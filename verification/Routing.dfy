/** What routing does with a message, said without the tables' own functions: which requests go where, in what order. */
module Routing {
  import opened Collections
  import opened SubscriptionChannels
  import opened RequesterTables

  // ---- Splitting ----

  /** What a request asks for: a subscription, the end of one, or what it is itself. */
  datatype Ask = Subscription(rid: int, path: SubscriptionPath) | Ending(rid: int, sid: int) | Itself(request: Request)

  function AsksOf(r: Request): seq<Ask> {
    match r
    case SubscribeRequest(rid, paths) => seq(|paths|, i requires 0 <= i < |paths| => Subscription(rid, paths[i]))
    case UnsubscribeRequest(rid, sids) => seq(|sids|, i requires 0 <= i < |sids| => Ending(rid, sids[i]))
    case _ => [Itself(r)]
  }

  function FlatMap<A, B>(f: A -> seq<B>, s: seq<A>): seq<B> {
    if s == [] then [] else FlatMap(f, s[..|s| - 1]) + f(s[|s| - 1])
  }

  lemma {:induction false} FlatMapConcat<A, B>(f: A -> seq<B>, a: seq<A>, b: seq<A>)
    ensures FlatMap(f, a + b) == FlatMap(f, a) + FlatMap(f, b)
  {
    if b == [] {
      assert a + b == a;
    } else {
      assert (a + b)[..|a + b| - 1] == a + b[..|b| - 1];
      FlatMapConcat(f, a, b[..|b| - 1]);
    }
  }

  function Asks(rs: seq<Request>): seq<Ask> {
    FlatMap(AsksOf, rs)
  }

  /** Requests of one ask each ask for these in order. */
  lemma {:induction false} AsksOfSingles(rs: seq<Request>, asks: seq<Ask>)
    requires |rs| == |asks| && forall i :: 0 <= i < |rs| ==> AsksOf(rs[i]) == [asks[i]]
    ensures Asks(rs) == asks
  {
    if rs != [] {
      AsksOfSingles(rs[..|rs| - 1], asks[..|asks| - 1]);
    }
  }

  lemma SplitAsks(r: Request)
    ensures Asks(Split(r)) == AsksOf(r)
  {
    AsksOfSingles(Split(r), AsksOf(r));
  }

  /** Splitting keeps what is asked for, in order, with the RIDs; every request asks for one thing afterwards. */
  lemma {:induction false} SplittingKeepsAsks(rs: seq<Request>)
    ensures Asks(SplitAll(rs)) == Asks(rs) && |SplitAll(rs)| == |Asks(rs)|
    ensures forall r <- SplitAll(rs) :: |AsksOf(r)| == 1
  {
    if rs != [] {
      var front, last := rs[..|rs| - 1], rs[|rs| - 1];
      SplittingKeepsAsks(front);
      SplitAsks(last);
      FlatMapConcat(AsksOf, SplitAll(front), Split(last));
      SplitsToOne(last);
    }
  }

  lemma SplitsToOne(r: Request)
    ensures forall x <- Split(r) :: |AsksOf(x)| == 1
    ensures |Split(r)| == |AsksOf(r)|
  {}

  // ---- Levels ----

  function IndexOf(level: Level): int {
    match level
    case Default => 0
    case Queued => 1
    case Durable => 2
    case DurableAndPersist => 3
  }

  /** A number is the level of that index; no number is the lowest level, and any other number is none. */
  lemma LevelMeaning(qos: Option<int>, level: Level)
    ensures LevelOf(qos) == Some(level) <==> if qos.Some? then qos.value == IndexOf(level) else level == Default
    ensures LevelOf(qos).None? <==> qos.Some? && !(0 <= qos.value <= 3)
  {}

  // ---- Targets ----

  /** The path that a request names. A subscription of a level that there is not counts as none. */
  function PathOf(r: Request): Option<string> {
    match r
    case ListRequest(_, path) => Some(path)
    case SetRequest(_, path, _) => Some(path)
    case RemoveRequest(_, path) => Some(path)
    case InvokeRequest(_, path, _) => Some(path)
    case SubscribeRequest(_, paths) =>
      if |paths| == 1 && (paths[0].qos.Some? ==> 0 <= paths[0].qos.value <= 3) then Some(paths[0].path) else None
    case _ => None
  }

  /** Where a split request must go: by its path, or where the table sends its RID or SID. */
  function TargetOf(resolve: Resolver, t: Tables, r: Request): Option<string> {
    match r
    case CloseRequest(rid) => if rid in t.byRid then Some(t.byRid[rid]) else None
    case UnsubscribeRequest(_, sids) => if |sids| == 1 && sids[0] in t.bySid then Some(t.bySid[sids[0]].path) else None
    case _ => if PathOf(r).Some? then Some(resolve(PathOf(r).value)) else None
  }

  lemma ResolvesToTarget(resolve: Resolver, t: Tables, r: Request)
    requires IsSplit(r)
    ensures TargetOf(resolve, t, r)
            == if Resolve(resolve, t, r).Some? then Some(Resolve(resolve, t, r).value.target) else None
  {}

  /** Every request with a path is sent to the target of its path, and nowhere else, whatever the tables hold. */
  lemma PathRouted(resolve: Resolver, t: Tables, rs: seq<Request>, r: Request, target: string)
    requires r in SplitAll(rs) && PathOf(r).Some?
    ensures (target, r) in RouteMessage(resolve, t, rs) <==> target == resolve(PathOf(r).value)
  {
    SplitAllIsSplit(rs);
    RoutedMeaning(resolve, t, SplitAll(rs), target, r);
    ResolvesToTarget(resolve, t, r);
  }

  /** The requests that have a target, each with it, in order. */
  function Sent(resolve: Resolver, t: Tables, rs: seq<Request>): seq<(string, Request)> {
    if rs == [] then []
    else
      var past, r := Sent(resolve, t, rs[..|rs| - 1]), rs[|rs| - 1];
      if TargetOf(resolve, t, r).Some? then past + [(TargetOf(resolve, t, r).value, r)] else past
  }

  lemma {:induction false} RoutedIsSent(resolve: Resolver, t: Tables, rs: seq<Request>)
    requires forall r <- rs :: IsSplit(r)
    ensures Routed(resolve, t, rs) == Sent(resolve, t, rs)
  {
    if rs != [] {
      RoutedIsSent(resolve, t, rs[..|rs| - 1]);
      ResolvesToTarget(resolve, t, rs[|rs| - 1]);
    }
  }

  /** A message is routed request by request, in order, each that has a target exactly once. */
  lemma MessageIsSent(resolve: Resolver, t: Tables, rs: seq<Request>)
    ensures RouteMessage(resolve, t, rs) == Sent(resolve, t, SplitAll(rs))
  {
    SplitAllIsSplit(rs);
    RoutedIsSent(resolve, t, SplitAll(rs));
  }
}

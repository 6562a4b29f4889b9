/**
 The requester's target tables: which link a LIST or INVOKE stream (by RID) and a subscription (by SID)
 were routed to. Tables change only through persisted events, applied after the command that issued them.
 */
module RequesterTables {
  import opened Collections
  import opened SubscriptionChannels

  datatype SubscriptionPath = SubscriptionPath(path: string, sid: int, qos: Option<int>)

  datatype Request =
    | ListRequest(rid: int, path: string)
    | SetRequest(rid: int, path: string, payload: string)
    | RemoveRequest(rid: int, path: string)
    | InvokeRequest(rid: int, path: string, payload: string)
    | SubscribeRequest(rid: int, paths: seq<SubscriptionPath>)
    | UnsubscribeRequest(rid: int, sids: seq<int>)
    | CloseRequest(rid: int)

  /** A response: whether its stream is closed, and the SIDs of its update rows, if it has updates. */
  datatype Response = Response(rid: int, closed: bool, updates: Option<seq<int>>)

  datatype Message = Requests(requests: seq<Request>) | Responses(responses: seq<Response>)

  datatype PathAndQos = PathAndQos(path: string, qos: Level)

  datatype Tables = Tables(byRid: map<int, string>, bySid: map<int, PathAndQos>, lastRid: int)

  const NO_TABLES := Tables(map[], map[], 0)

  // ---- Events ----

  datatype Event =
    | RidTarget(rid: int, target: string)
    | SidTarget(sid: int, pathAndQos: PathAndQos)
    | RemoveRid(rid: int)
    | RemoveSids(sids: seq<int>)
    | LastRidSet(rid: int)

  function Without(m: map<int, PathAndQos>, sids: seq<int>): map<int, PathAndQos> {
    map sid | sid in m && sid !in sids :: m[sid]
  }

  function ApplyEvent(t: Tables, e: Event): Tables {
    match e
    case RidTarget(rid, target) => t.(byRid := t.byRid[rid := target])
    case SidTarget(sid, p) => t.(bySid := t.bySid[sid := p])
    case RemoveRid(rid) => t.(byRid := t.byRid - {rid})
    case RemoveSids(sids) => t.(bySid := Without(t.bySid, sids))
    case LastRidSet(rid) => t.(lastRid := rid)
  }

  function Replay(t: Tables, events: seq<Event>): Tables {
    if events == [] then t else ApplyEvent(Replay(t, events[..|events| - 1]), events[|events| - 1])
  }

  lemma {:induction false} ReplayConcat(t: Tables, a: seq<Event>, b: seq<Event>)
    ensures Replay(t, a + b) == Replay(Replay(t, a), b)
  {
    if b == [] {
      assert a + b == a;
    } else {
      assert (a + b)[..|a + b| - 1] == a + b[..|b| - 1];
      ReplayConcat(t, a, b[..|b| - 1]);
    }
  }

  // ---- Resolving the requests of one message, all against the tables before it ----

  /** QoS.apply: an unsupported level makes it throw. */
  function LevelOf(qos: Option<int>): Option<Level> {
    match qos
    case None => Some(Default)
    case Some(0) => Some(Default)
    case Some(1) => Some(Queued)
    case Some(2) => Some(Durable)
    case Some(3) => Some(DurableAndPersist)
    case _ => None
  }

  function Split(r: Request): seq<Request> {
    match r
    case SubscribeRequest(rid, paths) => seq(|paths|, i requires 0 <= i < |paths| => SubscribeRequest(rid, [paths[i]]))
    case UnsubscribeRequest(rid, sids) => seq(|sids|, i requires 0 <= i < |sids| => UnsubscribeRequest(rid, [sids[i]]))
    case _ => [r]
  }

  function SplitAll(rs: seq<Request>): seq<Request> {
    if rs == [] then [] else SplitAll(rs[..|rs| - 1]) + Split(rs[|rs| - 1])
  }

  predicate IsSplit(r: Request) {
    && (r.SubscribeRequest? ==> |r.paths| == 1)
    && (r.UnsubscribeRequest? ==> |r.sids| == 1)
  }

  lemma {:induction false} SplitAllIsSplit(rs: seq<Request>)
    ensures forall r <- SplitAll(rs) :: IsSplit(r)
  {
    if rs != [] {
      SplitAllIsSplit(rs[..|rs| - 1]);
    }
  }

  /** The target of a request and the events it persists. */
  datatype Resolved = Resolved(target: string, events: seq<Event>)

  type Resolver = string -> string

  /** None is the exception that makes the request be dropped. */
  function Resolve(resolve: Resolver, t: Tables, r: Request): Option<Resolved>
    requires IsSplit(r)
  {
    match r
    case ListRequest(rid, path) => Some(Resolved(resolve(path), [RidTarget(rid, resolve(path))]))
    case InvokeRequest(rid, path, _) => Some(Resolved(resolve(path), [RidTarget(rid, resolve(path))]))
    case SetRequest(_, path, _) => Some(Resolved(resolve(path), []))
    case RemoveRequest(_, path) => Some(Resolved(resolve(path), []))
    case SubscribeRequest(_, paths) =>
      var level := LevelOf(paths[0].qos);
      if level.None? then None
      else
        var target := resolve(paths[0].path);
        Some(Resolved(target, [SidTarget(paths[0].sid, PathAndQos(target, level.value))]))
    case UnsubscribeRequest(_, sids) =>
      if sids[0] in t.bySid then Some(Resolved(t.bySid[sids[0]].path, [RemoveSids([sids[0]])])) else None
    case CloseRequest(rid) =>
      if rid in t.byRid then Some(Resolved(t.byRid[rid], [RemoveRid(rid)])) else None
  }

  /** The routed requests with their targets, in order. */
  function Routed(resolve: Resolver, t: Tables, rs: seq<Request>): seq<(string, Request)>
    requires forall r <- rs :: IsSplit(r)
  {
    if rs == [] then []
    else
      var past, r := Routed(resolve, t, rs[..|rs| - 1]), rs[|rs| - 1];
      var resolved := Resolve(resolve, t, r);
      if resolved.Some? then past + [(resolved.value.target, r)] else past
  }

  /** A request is routed, to the target it resolves to, if and only if it resolves. */
  lemma {:induction false} RoutedMeaning(resolve: Resolver, t: Tables, rs: seq<Request>, target: string, r: Request)
    requires forall x <- rs :: IsSplit(x)
    ensures (target, r) in Routed(resolve, t, rs)
            <==> r in rs && Resolve(resolve, t, r).Some? && Resolve(resolve, t, r).value.target == target
  {
    if rs != [] {
      RoutedMeaning(resolve, t, rs[..|rs| - 1], target, r);
      assert rs == rs[..|rs| - 1] + [rs[|rs| - 1]];
    }
  }

  function ResolveEvents(resolve: Resolver, t: Tables, rs: seq<Request>): seq<Event>
    requires forall r <- rs :: IsSplit(r)
  {
    if rs == [] then []
    else
      var past := ResolveEvents(resolve, t, rs[..|rs| - 1]);
      var resolved := Resolve(resolve, t, rs[|rs| - 1]);
      if resolved.Some? then past + resolved.value.events else past
  }

  function RouteMessage(resolve: Resolver, t: Tables, rs: seq<Request>): seq<(string, Request)> {
    SplitAllIsSplit(rs);
    Routed(resolve, t, SplitAll(rs))
  }

  /** The cleanup a closed response asks for. One with RID 0 carries updates; without them it asks for none here. */
  function CleanupOf(r: Response): seq<Event> {
    if !r.closed then []
    else if r.rid != 0 then [RemoveRid(r.rid)]
    else if r.updates.Some? then [RemoveSids(r.updates.value)]
    else []
  }

  function CleanupEvents(rs: seq<Response>): seq<Event> {
    if rs == [] then []
    else
      CleanupEvents(rs[..|rs| - 1]) + CleanupOf(rs[|rs| - 1])
  }

  function MessageEvents(resolve: Resolver, t: Tables, m: Message): seq<Event> {
    match m
    case Requests(rs) =>
      SplitAllIsSplit(rs);
      var events := ResolveEvents(resolve, t, SplitAll(rs));
      if rs == [] then events else events + [LastRidSet(rs[|rs| - 1].rid)]
    case Responses(rs) => CleanupEvents(rs)
  }

  function After(resolve: Resolver, t: Tables, m: Message): Tables {
    Replay(t, MessageEvents(resolve, t, m))
  }

  function RunTables(resolve: Resolver, history: seq<Message>): Tables {
    if history == [] then NO_TABLES
    else After(resolve, RunTables(resolve, history[..|history| - 1]), history[|history| - 1])
  }

  // ---- A reference for one RID: what the history says about it, without tables ----

  /** The effect of one split request on a RID that was live before the message. */
  function RidStep(resolve: Resolver, live: bool, rid: int, current: Option<string>, r: Request): Option<string> {
    match r
    case ListRequest(id, path) => if id == rid then Some(resolve(path)) else current
    case InvokeRequest(id, path, _) => if id == rid then Some(resolve(path)) else current
    case CloseRequest(id) => if id == rid && live then None else current
    case _ => current
  }

  function RidSteps(resolve: Resolver, live: bool, rid: int, start: Option<string>, rs: seq<Request>): Option<string> {
    if rs == [] then start
    else RidStep(resolve, live, rid, RidSteps(resolve, live, rid, start, rs[..|rs| - 1]), rs[|rs| - 1])
  }

  /** The target of the stream a RID stands for after a history, if it is open. */
  function OpenRid(resolve: Resolver, history: seq<Message>, rid: int): Option<string> {
    if history == [] then None
    else
      var before := OpenRid(resolve, history[..|history| - 1], rid);
      match history[|history| - 1]
      case Requests(rs) => RidSteps(resolve, before.Some?, rid, before, SplitAll(rs))
      case Responses(rs) => if exists r <- rs :: ClosesRid(r, rid) then None else before
  }

  // ---- The same for one SID ----

  function SidStep(resolve: Resolver, live: bool, sid: int, current: Option<PathAndQos>, r: Request): Option<PathAndQos>
    requires IsSplit(r)
  {
    match r
    case SubscribeRequest(_, paths) =>
      if paths[0].sid == sid && LevelOf(paths[0].qos).Some?
      then Some(PathAndQos(resolve(paths[0].path), LevelOf(paths[0].qos).value)) else current
    case UnsubscribeRequest(_, sids) => if sids[0] == sid && live then None else current
    case _ => current
  }

  function SidSteps(resolve: Resolver, live: bool, sid: int, start: Option<PathAndQos>,
                    rs: seq<Request>): Option<PathAndQos>
    requires forall r <- rs :: IsSplit(r)
  {
    if rs == [] then start
    else SidStep(resolve, live, sid, SidSteps(resolve, live, sid, start, rs[..|rs| - 1]), rs[|rs| - 1])
  }

  predicate ClosesSid(r: Response, sid: int) {
    r.closed && r.rid == 0 && r.updates.Some? && sid in r.updates.value
  }

  /** The target and level of a subscription after a history, if it is open. */
  function OpenSid(resolve: Resolver, history: seq<Message>, sid: int): Option<PathAndQos> {
    if history == [] then None
    else
      var before := OpenSid(resolve, history[..|history| - 1], sid);
      match history[|history| - 1]
      case Requests(rs) =>
        SplitAllIsSplit(rs);
        SidSteps(resolve, before.Some?, sid, before, SplitAll(rs))
      case Responses(rs) => if exists r <- rs :: ClosesSid(r, sid) then None else before
  }

  function Lookup<K, V>(m: map<K, V>, k: K): Option<V> {
    if k in m then Some(m[k]) else None
  }

  lemma {:induction false} ResolveEventsRid(resolve: Resolver, t: Tables, rs: seq<Request>, rid: int)
    requires forall r <- rs :: IsSplit(r)
    ensures Lookup(Replay(t, ResolveEvents(resolve, t, rs)).byRid, rid)
            == RidSteps(resolve, rid in t.byRid, rid, Lookup(t.byRid, rid), rs)
  {
    if rs != [] {
      var front, r := rs[..|rs| - 1], rs[|rs| - 1];
      ResolveEventsRid(resolve, t, front, rid);
      var past, resolved := ResolveEvents(resolve, t, front), Resolve(resolve, t, r);
      if resolved.Some? {
        ReplayConcat(t, past, resolved.value.events);
      }
      ResolveOne(resolve, t, r, Replay(t, past), rid, 0);
    }
  }

  /** What the events of one request do to one RID and one SID of later tables. */
  lemma ResolveOne(resolve: Resolver, t: Tables, r: Request, later: Tables, rid: int, sid: int)
    requires IsSplit(r)
    ensures var resolved := Resolve(resolve, t, r);
            var after := if resolved.Some? then Replay(later, resolved.value.events) else later;
            && Lookup(after.byRid, rid) == RidStep(resolve, rid in t.byRid, rid, Lookup(later.byRid, rid), r)
            && Lookup(after.bySid, sid) == SidStep(resolve, sid in t.bySid, sid, Lookup(later.bySid, sid), r)
  {
    var resolved := Resolve(resolve, t, r);
    if resolved.Some? {
      ReplayFew(later, resolved.value.events);
    }
  }

  lemma ReplayFew(t: Tables, events: seq<Event>)
    requires |events| <= 1
    ensures Replay(t, events) == if events == [] then t else ApplyEvent(t, events[0])
  {
    if events != [] {
      assert events[..0] == [];
    }
  }

  lemma {:induction false} ResolveEventsSid(resolve: Resolver, t: Tables, rs: seq<Request>, sid: int)
    requires forall r <- rs :: IsSplit(r)
    ensures Lookup(Replay(t, ResolveEvents(resolve, t, rs)).bySid, sid)
            == SidSteps(resolve, sid in t.bySid, sid, Lookup(t.bySid, sid), rs)
  {
    if rs != [] {
      var front, r := rs[..|rs| - 1], rs[|rs| - 1];
      ResolveEventsSid(resolve, t, front, sid);
      var past, resolved := ResolveEvents(resolve, t, front), Resolve(resolve, t, r);
      if resolved.Some? {
        ReplayConcat(t, past, resolved.value.events);
      }
      ResolveOne(resolve, t, r, Replay(t, past), 0, sid);
    }
  }

  predicate ClosesRid(r: Response, rid: int) {
    r.closed && rid != 0 && r.rid == rid
  }

  lemma CleanupOneRid(t: Tables, r: Response, rid: int)
    ensures Lookup(Replay(t, CleanupOf(r)).byRid, rid) == if ClosesRid(r, rid) then None else Lookup(t.byRid, rid)
  {
    ReplayFew(t, CleanupOf(r));
  }

  lemma {:induction false} CleanupRid(t: Tables, rs: seq<Response>, rid: int)
    ensures Lookup(Replay(t, CleanupEvents(rs)).byRid, rid)
            == if exists r <- rs :: ClosesRid(r, rid) then None else Lookup(t.byRid, rid)
  {
    if rs != [] {
      var front, r := rs[..|rs| - 1], rs[|rs| - 1];
      CleanupRid(t, front, rid);
      ReplayConcat(t, CleanupEvents(front), CleanupOf(r));
      CleanupOneRid(Replay(t, CleanupEvents(front)), r, rid);
      assert rs == front + [r];
      assert (exists x <- rs :: ClosesRid(x, rid)) <==> (exists x <- front :: ClosesRid(x, rid)) || ClosesRid(r, rid);
    }
  }

  lemma ReplayLastRidSet(t: Tables, events: seq<Event>, rid: int)
    ensures Replay(t, events + [LastRidSet(rid)]) == Replay(t, events).(lastRid := rid)
  {
    ReplayConcat(t, events, [LastRidSet(rid)]);
    ReplayFew(Replay(t, events), [LastRidSet(rid)]);
  }

  lemma RequestsStepsRid(resolve: Resolver, t: Tables, rs: seq<Request>, rid: int)
    ensures (SplitAllIsSplit(rs);
             Lookup(After(resolve, t, Requests(rs)).byRid, rid)
             == RidSteps(resolve, rid in t.byRid, rid, Lookup(t.byRid, rid), SplitAll(rs)))
  {
    SplitAllIsSplit(rs);
    ResolveEventsRid(resolve, t, SplitAll(rs), rid);
    if rs != [] {
      ReplayLastRidSet(t, ResolveEvents(resolve, t, SplitAll(rs)), rs[|rs| - 1].rid);
    }
  }

  /** In every run the RID table holds exactly the open streams of the history, with their targets. */
  lemma {:induction false} RidTableIsOpenStreams(resolve: Resolver, history: seq<Message>, rid: int)
    ensures Lookup(RunTables(resolve, history).byRid, rid) == OpenRid(resolve, history, rid)
  {
    if history != [] {
      var past, m := history[..|history| - 1], history[|history| - 1];
      RidTableIsOpenStreams(resolve, past, rid);
      if m.Requests? {
        RequestsStepsRid(resolve, RunTables(resolve, past), m.requests, rid);
      } else {
        CleanupRid(RunTables(resolve, past), m.responses, rid);
      }
    }
  }

  lemma CleanupOneSid(t: Tables, r: Response, sid: int)
    ensures Lookup(Replay(t, CleanupOf(r)).bySid, sid) == if ClosesSid(r, sid) then None else Lookup(t.bySid, sid)
  {
    ReplayFew(t, CleanupOf(r));
  }

  lemma {:induction false} CleanupSid(t: Tables, rs: seq<Response>, sid: int)
    ensures Lookup(Replay(t, CleanupEvents(rs)).bySid, sid)
            == if exists r <- rs :: ClosesSid(r, sid) then None else Lookup(t.bySid, sid)
  {
    if rs != [] {
      var front, r := rs[..|rs| - 1], rs[|rs| - 1];
      CleanupSid(t, front, sid);
      ReplayConcat(t, CleanupEvents(front), CleanupOf(r));
      CleanupOneSid(Replay(t, CleanupEvents(front)), r, sid);
      assert rs == front + [r];
      assert (exists x <- rs :: ClosesSid(x, sid)) <==> (exists x <- front :: ClosesSid(x, sid)) || ClosesSid(r, sid);
    }
  }

  lemma RequestsStepsSid(resolve: Resolver, t: Tables, rs: seq<Request>, sid: int)
    ensures (SplitAllIsSplit(rs);
             Lookup(After(resolve, t, Requests(rs)).bySid, sid)
             == SidSteps(resolve, sid in t.bySid, sid, Lookup(t.bySid, sid), SplitAll(rs)))
  {
    SplitAllIsSplit(rs);
    ResolveEventsSid(resolve, t, SplitAll(rs), sid);
    if rs != [] {
      ReplayLastRidSet(t, ResolveEvents(resolve, t, SplitAll(rs)), rs[|rs| - 1].rid);
    }
  }

  /** In every run the SID table holds exactly the open subscriptions of the history, with target and level. */
  lemma {:induction false} SidTableIsOpenSubscriptions(resolve: Resolver, history: seq<Message>, sid: int)
    ensures Lookup(RunTables(resolve, history).bySid, sid) == OpenSid(resolve, history, sid)
  {
    if history != [] {
      var past, m := history[..|history| - 1], history[|history| - 1];
      SidTableIsOpenSubscriptions(resolve, past, sid);
      if m.Requests? {
        RequestsStepsSid(resolve, RunTables(resolve, past), m.requests, sid);
      } else {
        CleanupSid(RunTables(resolve, past), m.responses, sid);
      }
    }
  }

  // ---- The journal ----

  /** Every event persisted over a history, in order. */
  function JournalOf(resolve: Resolver, history: seq<Message>): seq<Event> {
    if history == [] then []
    else
      var past := history[..|history| - 1];
      JournalOf(resolve, past) + MessageEvents(resolve, RunTables(resolve, past), history[|history| - 1])
  }

  /** Replaying the whole journal rebuilds both tables and the last RID. */
  lemma {:induction false} ReplayRebuildsTables(resolve: Resolver, history: seq<Message>)
    ensures Replay(NO_TABLES, JournalOf(resolve, history)) == RunTables(resolve, history)
  {
    if history != [] {
      var past, m := history[..|history| - 1], history[|history| - 1];
      ReplayRebuildsTables(resolve, past);
      ReplayConcat(NO_TABLES, JournalOf(resolve, past), MessageEvents(resolve, RunTables(resolve, past), m));
    }
  }

  /** The RID of the last request of the latest message that held any. */
  function LatestRid(history: seq<Message>): int {
    if history == [] then 0
    else
      match history[|history| - 1]
      case Requests(rs) => if rs == [] then LatestRid(history[..|history| - 1]) else rs[|rs| - 1].rid
      case Responses(_) => LatestRid(history[..|history| - 1])
  }

  lemma {:induction false} OnlyLastRidSetCounts(t: Tables, events: seq<Event>)
    requires forall e <- events :: !e.LastRidSet?
    ensures Replay(t, events).lastRid == t.lastRid
  {
    if events != [] {
      OnlyLastRidSetCounts(t, events[..|events| - 1]);
      assert events[|events| - 1] in events;
    }
  }

  lemma {:induction false} ResolvingSetsNoRid(resolve: Resolver, t: Tables, rs: seq<Request>)
    requires forall r <- rs :: IsSplit(r)
    ensures forall e <- ResolveEvents(resolve, t, rs) :: !e.LastRidSet?
  {
    if rs != [] {
      ResolvingSetsNoRid(resolve, t, rs[..|rs| - 1]);
    }
  }

  lemma {:induction false} CleanupSetsNoRid(rs: seq<Response>)
    ensures forall e <- CleanupEvents(rs) :: !e.LastRidSet?
  {
    if rs != [] {
      CleanupSetsNoRid(rs[..|rs| - 1]);
    }
  }

  /** In every run lastRid is the RID of the last request received, whether or not that request was routed. */
  lemma {:induction false} LastRidIsLatest(resolve: Resolver, history: seq<Message>)
    ensures RunTables(resolve, history).lastRid == LatestRid(history)
  {
    if history != [] {
      var past, m := history[..|history| - 1], history[|history| - 1];
      LastRidIsLatest(resolve, past);
      LastRidAfter(resolve, RunTables(resolve, past), m);
    }
  }

  lemma LastRidAfter(resolve: Resolver, t: Tables, m: Message)
    ensures After(resolve, t, m).lastRid
            == if m.Requests? && m.requests != [] then m.requests[|m.requests| - 1].rid else t.lastRid
  {
    match m
    case Requests(rs) =>
      SplitAllIsSplit(rs);
      var events := ResolveEvents(resolve, t, SplitAll(rs));
      ResolvingSetsNoRid(resolve, t, SplitAll(rs));
      OnlyLastRidSetCounts(t, events);
      if rs != [] {
        ReplayLastRidSet(t, events, rs[|rs| - 1].rid);
      }
    case Responses(rs) =>
      CleanupSetsNoRid(rs);
      OnlyLastRidSetCounts(t, CleanupEvents(rs));
  }

  // ---- Stop requests follow their start ----

  predicate StartsRid(r: Request, rid: int, path: string) {
    (r.ListRequest? || r.InvokeRequest?) && r.rid == rid && r.path == path
  }

  /** The request starts or closes the stream of the RID. */
  predicate TouchesRid(r: Request, rid: int) {
    (r.ListRequest? || r.InvokeRequest? || r.CloseRequest?) && r.rid == rid
  }

  predicate MessageTouchesRid(m: Message, rid: int) {
    match m
    case Requests(rs) => exists r <- SplitAll(rs) :: TouchesRid(r, rid)
    case Responses(rs) => exists r <- rs :: ClosesRid(r, rid)
  }

  lemma {:induction false} UntouchedRidSteps(resolve: Resolver, live: bool, rid: int, start: Option<string>,
                                             rs: seq<Request>, from: nat)
    requires from <= |rs| && forall k :: from <= k < |rs| ==> !TouchesRid(rs[k], rid)
    ensures RidSteps(resolve, live, rid, start, rs) == RidSteps(resolve, live, rid, start, rs[..from])
  {
    if from < |rs| {
      UntouchedRidSteps(resolve, live, rid, start, rs[..|rs| - 1], from);
      assert rs[..|rs| - 1][..from] == rs[..from];
    } else {
      assert rs[..from] == rs;
    }
  }

  lemma {:induction false} UntouchedRid(resolve: Resolver, history: seq<Message>, mid: seq<Message>, rid: int)
    requires forall m <- mid :: !MessageTouchesRid(m, rid)
    ensures OpenRid(resolve, history + mid, rid) == OpenRid(resolve, history, rid)
  {
    if mid == [] {
      assert history + mid == history;
    } else {
      var front, m := mid[..|mid| - 1], mid[|mid| - 1];
      UntouchedRid(resolve, history, front, rid);
      assert (history + mid)[..|history + mid| - 1] == history + front;
      assert m in mid && !MessageTouchesRid(m, rid);
      if m.Requests? {
        var before, rs := OpenRid(resolve, history + front, rid), SplitAll(m.requests);
        UntouchedRidSteps(resolve, before.Some?, rid, before, rs, 0);
        assert rs[..0] == [];
      }
    }
  }

  lemma OpenAfterStart(resolve: Resolver, past: seq<Message>, rs: seq<Request>, at: nat, mid: seq<Message>, rid: int,
                       path: string)
    requires at < |SplitAll(rs)| && StartsRid(SplitAll(rs)[at], rid, path)
    requires forall k :: at < k < |SplitAll(rs)| ==> !TouchesRid(SplitAll(rs)[k], rid)
    requires forall m <- mid :: !MessageTouchesRid(m, rid)
    ensures Lookup(RunTables(resolve, past + [Requests(rs)] + mid).byRid, rid) == Some(resolve(path))
  {
    StartOpens(resolve, past, rs, at, rid, path);
    UntouchedRid(resolve, past + [Requests(rs)], mid, rid);
    RidTableIsOpenStreams(resolve, past + [Requests(rs)] + mid, rid);
  }

  lemma StartOpens(resolve: Resolver, past: seq<Message>, rs: seq<Request>, at: nat, rid: int, path: string)
    requires at < |SplitAll(rs)| && StartsRid(SplitAll(rs)[at], rid, path)
    requires forall k :: at < k < |SplitAll(rs)| ==> !TouchesRid(SplitAll(rs)[k], rid)
    ensures OpenRid(resolve, past + [Requests(rs)], rid) == Some(resolve(path))
  {
    assert (past + [Requests(rs)])[..|past|] == past;
    var before := OpenRid(resolve, past, rid);
    StepsAfterStart(resolve, before.Some?, before, SplitAll(rs), at, rid, path);
  }

  lemma StepsAfterStart(resolve: Resolver, live: bool, start: Option<string>, rs: seq<Request>, at: nat, rid: int,
                        path: string)
    requires at < |rs| && StartsRid(rs[at], rid, path)
    requires forall k :: at < k < |rs| ==> !TouchesRid(rs[k], rid)
    ensures RidSteps(resolve, live, rid, start, rs) == Some(resolve(path))
  {
    UntouchedRidSteps(resolve, live, rid, start, rs, at + 1);
    assert rs[..at + 1][..at] == rs[..at];
  }

  /** A CLOSE is routed to the target its RID has in the tables before the message, and only there. */
  lemma CloseRouted(resolve: Resolver, t: Tables, next: seq<Request>, rid: int, target: string)
    ensures (target, CloseRequest(rid)) in RouteMessage(resolve, t, next)
            <==> CloseRequest(rid) in SplitAll(next) && Lookup(t.byRid, rid) == Some(target)
  {
    SplitAllIsSplit(next);
    RoutedMeaning(resolve, t, SplitAll(next), target, CloseRequest(rid));
  }

  lemma UnsubscribeRouted(resolve: Resolver, t: Tables, next: seq<Request>, rid: int, sid: int, target: string)
    ensures (target, UnsubscribeRequest(rid, [sid])) in RouteMessage(resolve, t, next)
            <==> UnsubscribeRequest(rid, [sid]) in SplitAll(next) && sid in t.bySid && t.bySid[sid].path == target
  {
    SplitAllIsSplit(next);
    RoutedMeaning(resolve, t, SplitAll(next), target, UnsubscribeRequest(rid, [sid]));
  }

  /**
   In every run, a CLOSE in a later message is routed to the target of the most recent LIST or INVOKE with
   its RID, and nowhere else, unless a CLOSE or a closed response for that RID came in between.
   */
  lemma CloseFollowsStart(resolve: Resolver, past: seq<Message>, rs: seq<Request>, at: nat, mid: seq<Message>,
                          rid: int, path: string, next: seq<Request>, target: string)
    requires at < |SplitAll(rs)| && StartsRid(SplitAll(rs)[at], rid, path)
    requires forall k :: at < k < |SplitAll(rs)| ==> !TouchesRid(SplitAll(rs)[k], rid)
    requires forall m <- mid :: !MessageTouchesRid(m, rid)
    requires CloseRequest(rid) in SplitAll(next)
    ensures (target, CloseRequest(rid)) in RouteMessage(resolve, RunTables(resolve, past + [Requests(rs)] + mid), next)
            <==> target == resolve(path)
  {
    OpenAfterStart(resolve, past, rs, at, mid, rid, path);
    OnlyStreamTarget(resolve, RunTables(resolve, past + [Requests(rs)] + mid), next, rid, resolve(path), target);
  }

  lemma OnlyStreamTarget(resolve: Resolver, t: Tables, next: seq<Request>, rid: int, open: string, target: string)
    requires Lookup(t.byRid, rid) == Some(open) && CloseRequest(rid) in SplitAll(next)
    ensures (target, CloseRequest(rid)) in RouteMessage(resolve, t, next) <==> target == open
  {
    CloseRouted(resolve, t, next, rid, target);
  }

  predicate TouchesSid(r: Request, sid: int) {
    || (r.SubscribeRequest? && r.paths != [] && r.paths[0].sid == sid && LevelOf(r.paths[0].qos).Some?)
    || (r.UnsubscribeRequest? && r.sids != [] && r.sids[0] == sid)
  }

  predicate MessageTouchesSid(m: Message, sid: int) {
    match m
    case Requests(rs) => exists r <- SplitAll(rs) :: TouchesSid(r, sid)
    case Responses(rs) => exists r <- rs :: ClosesSid(r, sid)
  }

  lemma {:induction false} UntouchedSidSteps(resolve: Resolver, live: bool, sid: int, start: Option<PathAndQos>,
                                             rs: seq<Request>, from: nat)
    requires forall r <- rs :: IsSplit(r)
    requires from <= |rs| && forall k :: from <= k < |rs| ==> !TouchesSid(rs[k], sid)
    ensures SidSteps(resolve, live, sid, start, rs) == SidSteps(resolve, live, sid, start, rs[..from])
  {
    if from < |rs| {
      UntouchedSidSteps(resolve, live, sid, start, rs[..|rs| - 1], from);
      assert IsSplit(rs[|rs| - 1]) && !TouchesSid(rs[|rs| - 1], sid);
      assert rs[..|rs| - 1][..from] == rs[..from];
    } else {
      assert rs[..from] == rs;
    }
  }

  lemma {:induction false} UntouchedSid(resolve: Resolver, history: seq<Message>, mid: seq<Message>, sid: int)
    requires forall m <- mid :: !MessageTouchesSid(m, sid)
    ensures OpenSid(resolve, history + mid, sid) == OpenSid(resolve, history, sid)
  {
    if mid == [] {
      assert history + mid == history;
    } else {
      var front, m := mid[..|mid| - 1], mid[|mid| - 1];
      UntouchedSid(resolve, history, front, sid);
      assert (history + mid)[..|history + mid| - 1] == history + front;
      assert m in mid && !MessageTouchesSid(m, sid);
      if m.Requests? {
        SplitAllIsSplit(m.requests);
        var before, rs := OpenSid(resolve, history + front, sid), SplitAll(m.requests);
        UntouchedSidSteps(resolve, before.Some?, sid, before, rs, 0);
        assert rs[..0] == [];
      }
    }
  }

  lemma OpenAfterSubscribe(resolve: Resolver, past: seq<Message>, rs: seq<Request>, at: nat, mid: seq<Message>,
                           p: SubscriptionPath)
    requires at < |SplitAll(rs)| && SplitAll(rs)[at].SubscribeRequest? && SplitAll(rs)[at].paths == [p]
             && LevelOf(p.qos).Some?
    requires forall k :: at < k < |SplitAll(rs)| ==> !TouchesSid(SplitAll(rs)[k], p.sid)
    requires forall m <- mid :: !MessageTouchesSid(m, p.sid)
    ensures Lookup(RunTables(resolve, past + [Requests(rs)] + mid).bySid, p.sid)
            == Some(PathAndQos(resolve(p.path), LevelOf(p.qos).value))
  {
    SubscribeOpens(resolve, past, rs, at, p);
    UntouchedSid(resolve, past + [Requests(rs)], mid, p.sid);
    SidTableIsOpenSubscriptions(resolve, past + [Requests(rs)] + mid, p.sid);
  }

  lemma SubscribeOpens(resolve: Resolver, past: seq<Message>, rs: seq<Request>, at: nat, p: SubscriptionPath)
    requires at < |SplitAll(rs)| && SplitAll(rs)[at].SubscribeRequest? && SplitAll(rs)[at].paths == [p]
             && LevelOf(p.qos).Some?
    requires forall k :: at < k < |SplitAll(rs)| ==> !TouchesSid(SplitAll(rs)[k], p.sid)
    ensures OpenSid(resolve, past + [Requests(rs)], p.sid) == Some(PathAndQos(resolve(p.path), LevelOf(p.qos).value))
  {
    SplitAllIsSplit(rs);
    assert (past + [Requests(rs)])[..|past|] == past;
    var before := OpenSid(resolve, past, p.sid);
    StepsAfterSubscribe(resolve, before.Some?, before, SplitAll(rs), at, p);
  }

  lemma StepsAfterSubscribe(resolve: Resolver, live: bool, start: Option<PathAndQos>, rs: seq<Request>, at: nat,
                            p: SubscriptionPath)
    requires forall r <- rs :: IsSplit(r)
    requires at < |rs| && rs[at].SubscribeRequest? && rs[at].paths == [p] && LevelOf(p.qos).Some?
    requires forall k :: at < k < |rs| ==> !TouchesSid(rs[k], p.sid)
    ensures SidSteps(resolve, live, p.sid, start, rs) == Some(PathAndQos(resolve(p.path), LevelOf(p.qos).value))
  {
    UntouchedSidSteps(resolve, live, p.sid, start, rs, at + 1);
    assert rs[..at + 1][..at] == rs[..at];
  }

  /** The same for an UNSUBSCRIBE and the most recent SUBSCRIBE with its SID and a supported level. */
  lemma UnsubscribeFollowsSubscribe(resolve: Resolver, past: seq<Message>, rs: seq<Request>, at: nat, mid: seq<Message>,
                                    p: SubscriptionPath, rid: int, next: seq<Request>, target: string)
    requires at < |SplitAll(rs)| && SplitAll(rs)[at].SubscribeRequest? && SplitAll(rs)[at].paths == [p]
             && LevelOf(p.qos).Some?
    requires forall k :: at < k < |SplitAll(rs)| ==> !TouchesSid(SplitAll(rs)[k], p.sid)
    requires forall m <- mid :: !MessageTouchesSid(m, p.sid)
    requires UnsubscribeRequest(rid, [p.sid]) in SplitAll(next)
    ensures (target, UnsubscribeRequest(rid, [p.sid]))
            in RouteMessage(resolve, RunTables(resolve, past + [Requests(rs)] + mid), next)
            <==> target == resolve(p.path)
  {
    OpenAfterSubscribe(resolve, past, rs, at, mid, p);
    OnlySubscriptionTarget(resolve, RunTables(resolve, past + [Requests(rs)] + mid), next, rid, p.sid,
                           PathAndQos(resolve(p.path), LevelOf(p.qos).value), target);
  }

  lemma OnlySubscriptionTarget(resolve: Resolver, t: Tables, next: seq<Request>, rid: int, sid: int, open: PathAndQos,
                               target: string)
    requires Lookup(t.bySid, sid) == Some(open) && UnsubscribeRequest(rid, [sid]) in SplitAll(next)
    ensures (target, UnsubscribeRequest(rid, [sid])) in RouteMessage(resolve, t, next) <==> target == open.path
  {
    UnsubscribeRouted(resolve, t, next, rid, sid, target);
  }
}

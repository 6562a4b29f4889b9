/** Envelopes that both subscribe and change the node: when the subscriber has the node's value afterwards. */
module MixedSubscriptions {
  import opened Collections
  import opened Dsa
  import opened Paths
  import opened InMemoryNode
  import opened InMemoryStreams
  import opened MixedEnvelopes

  /** The requests neither start a stream nor end this subscription. */
  ghost predicate PlainAroundSid(c: Client, rs: seq<Request>) {
    AllPlain(rs) && forall r <- rs :: r.UnsubscribeRequest? ==> r.sid != c.sid
  }

  // ---- Values told ----

  /** The value known depends on the value known before, whatever the views are. */
  lemma {:induction false} ValueOnly(c: Client, k: Known, l: Known, ms: seq<Outgoing>)
    requires k.value == l.value
    ensures TakeAll(c, k, ms).value == TakeAll(c, l, ms).value
  {
    if ms != [] {
      ValueOnly(c, k, l, ms[..|ms| - 1]);
    }
  }

  /** Who knows a value knows it of a node that has one. */
  predicate ToldIsSet(c: Client, k: Known, p: Progress) {
    TakeAll(c, k, p.notifications).value.Some? ==> p.node.value.Some?
  }

  lemma MutationKeepsToldSet(c: Client, k: Known, p: Progress, m: Mutation)
    requires ToldIsSet(c, k, p)
    ensures ToldIsSet(c, k, WithMutation(p, m)) && WithMutation(p, m).node.sids == p.node.sids
  {
    var out := Mutate(p.node, m).1;
    assert out == [out[0]];
    TakeOne(c, k, p.notifications, out[0]);
  }

  lemma {:induction false} MutationsKeepToldSet(c: Client, k: Known, p: Progress, ms: seq<Mutation>)
    requires ToldIsSet(c, k, p)
    ensures ToldIsSet(c, k, WithMutations(p, ms)) && WithMutations(p, ms).node.sids == p.node.sids
  {
    if ms != [] {
      MutationsKeepToldSet(c, k, p, ms[..|ms| - 1]);
      MutationKeepsToldSet(c, k, WithMutations(p, ms[..|ms| - 1]), ms[|ms| - 1]);
    }
  }

  lemma PlainKeepsToldSet(c: Client, k: Known, p: Progress, sender: ActorRef, r: Request)
    requires ToldIsSet(c, k, p) && Plain(r)
    ensures ToldIsSet(c, k, Handled(p, sender, r))
    ensures Subscribed(p.node, c) && (r.UnsubscribeRequest? ==> r.sid != c.sid) ==>
              Subscribed(Handled(p, sender, r).node, c)
  {
    match r
    case SetRequest(_, path, _) => MutationKeepsToldSet(c, k, p, MutationOf(r, LastSegment(path).value).value);
    case RemoveRequest(_, path) =>
      var m := MutationOf(r, LastSegment(path).value);
      if m.Some? {
        MutationKeepsToldSet(c, k, p, m.value);
      }
    case InvokeRequest(_, effects) => MutationsKeepToldSet(c, k, p, effects);
    case _ =>
  }

  lemma {:induction false} AllPlainKeepToldSet(c: Client, k: Known, n: Node, sender: ActorRef, rs: seq<Request>)
    requires AllPlain(rs) && k.value.None?
    ensures ToldIsSet(c, k, HandledAll(Begin(n), sender, rs))
    ensures Subscribed(n, c) && PlainAroundSid(c, rs) ==> Subscribed(HandledAll(Begin(n), sender, rs).node, c)
  {
    if rs != [] {
      AllPlainKeepToldSet(c, k, n, sender, rs[..|rs| - 1]);
      assert Plain(rs[|rs| - 1]);
      PlainKeepsToldSet(c, k, HandledAll(Begin(n), sender, rs[..|rs| - 1]), sender, rs[|rs| - 1]);
    }
  }

  // ---- The envelope ----

  /** What the reply says of a subscription: that it was made, and the value if there is one. */
  function Answer(sender: ActorRef, r: Request, value: Option<Val>): seq<Outgoing>
    requires r.SubscribeRequest?
  {
    if value.Some? then [Done(sender, r.rid), CurrentValue(sender, r.sid, value.value)] else [Done(sender, r.rid)]
  }

  lemma SplitAtSubscribe(n: Node, sender: ActorRef, a: seq<Request>, r: Request, b: seq<Request>)
    requires r.SubscribeRequest? && (forall x <- a :: WellFormed(x)) && (forall x <- b :: WellFormed(x))
    ensures forall x <- a + [r] + b :: WellFormed(x)
    ensures var p := HandledAll(Begin(n), sender, a);
            var subscribed := p.node.(sids := p.node.sids[r.sid := sender]);
            var q := HandledAll(Begin(subscribed), sender, b);
            HandledAll(Begin(n), sender, a + [r] + b)
            == Progress(q.node, p.notifications + q.notifications,
                        p.responses + Answer(sender, r, p.node.value) + q.responses)
  {
    HandledAllConcat(Begin(n), sender, a + [r], b);
    assert (a + [r])[..|a|] == a;
    var p := HandledAll(Begin(n), sender, a);
    assert Handled(p, sender, r).responses == p.responses + Answer(sender, r, p.node.value);
    HandledAllAfter(Handled(p, sender, r), sender, b);
  }

  /** The value in the reply is what the client knows in the end; without one it is what it was told. */
  lemma ValueAfterReply(c: Client, k: Known, ms: seq<Outgoing>, done: seq<Outgoing>, rid: int, value: Option<Val>,
                        more: seq<Outgoing>)
    requires forall m <- done + more :: m.Done?
    ensures TakeAll(c, k, ms + (done + Answer(c.ref, SubscribeRequest(rid, c.sid), value) + more)).value
            == if value.Some? then value else TakeAll(c, k, ms).value
  {
    var answer := Answer(c.ref, SubscribeRequest(rid, c.sid), value);
    var told := TakeAll(c, k, ms);
    assert forall m <- done :: m in done + more;
    assert forall m <- more :: m in done + more;
    TakeConcat(c, k, ms, done + answer + more);
    TakeConcat(c, told, done + answer, more);
    TakeConcat(c, told, done, answer);
    DoneTellsNothing(c, told, done);
    DoneTellsNothing(c, TakeAll(c, told, answer), more);
    AnswerTells(c, told, rid, value);
  }

  lemma AnswerTells(c: Client, k: Known, rid: int, value: Option<Val>)
    ensures TakeAll(c, k, Answer(c.ref, SubscribeRequest(rid, c.sid), value)).value
            == if value.Some? then value else k.value
  {
    var done := Done(c.ref, rid);
    TakeOne(c, k, [], done);
    assert [] + [done] == [done];
    if value.Some? {
      TakeOne(c, k, [done], CurrentValue(c.ref, c.sid, value.value));
      assert [done] + [CurrentValue(c.ref, c.sid, value.value)] == [done, CurrentValue(c.ref, c.sid, value.value)];
    }
  }

  /** A subscriber that knows the value is told of every change. */
  lemma ToldOfChanges(c: Client, k: Known, n: Node, sender: ActorRef, rs: seq<Request>)
    requires NamesApart(n) && Subscribed(n, c) && PlainAroundSid(c, rs) && k.value == n.value
    ensures var q := HandledAll(Begin(n), sender, rs);
            Subscribed(q.node, c) && TakeAll(c, k, q.notifications).value == q.node.value
  {
    var full := Known(SnapshotRows(n, map[]), n.value);
    SnapshotShows(n, map[], map[]);
    assert map[] + SnapshotRows(n, map[]) == SnapshotRows(n, map[]);
    ChangesKeepStep(c, full, n, sender, rs);
    AllPlainKeepToldSet(c, Known(map[], None), n, sender, rs);
    ValueOnly(c, k, full, HandledAll(Begin(n), sender, rs).notifications);
  }

  lemma NamesAfter(c: Client, n: Node, sender: ActorRef, rs: seq<Request>)
    requires NamesApart(n) && AllPlain(rs)
    ensures NamesApart(HandledAll(Begin(n), sender, rs).node)
  {
    var full := Known(SnapshotRows(n, map[]), n.value);
    SnapshotShows(n, map[], map[]);
    assert map[] + SnapshotRows(n, map[]) == SnapshotRows(n, map[]);
    ChangesKeepStep(c, full, n, sender, rs);
  }

  /**
   A SUBSCRIBE in one envelope with requests that change the node, before it and after it: the client has the node's
   value afterwards if and only if there was none when the SUBSCRIBE was handled, or it is still that one.
   */
  lemma MixedSubscriptionInStepIff(n: Node, c: Client, k: Known, a: seq<Request>, rid: int, b: seq<Request>)
    requires NamesApart(n) && AllPlain(a) && PlainAroundSid(c, b)
    ensures var i := Envelope(c.ref, a + [SubscribeRequest(rid, c.sid)] + b);
            && WellFormedInput(i)
            && var (n', out) := Receive(n, i);
            && var before := HandledAll(Begin(n), c.ref, a).node.value;
            && Subscribed(n', c)
            && (TakeAll(c, Restarted(c, k, i), out).value == n'.value <==> before.None? || n'.value == before)
  {
    var r := SubscribeRequest(rid, c.sid);
    var i := Envelope(c.ref, a + [r] + b);
    SplitAtSubscribe(n, c.ref, a, r, b);
    assert r in i.requests;
    var k0, p := Restarted(c, k, i), HandledAll(Begin(n), c.ref, a);
    var subscribed := p.node.(sids := p.node.sids[c.sid := c.ref]);
    var q := HandledAll(Begin(subscribed), c.ref, b);
    ChangesAreDone(n, c.ref, a);
    ChangesAreDone(subscribed, c.ref, b);
    AllPlainKeepToldSet(c, k0, n, c.ref, a);
    NamesAfter(c, n, c.ref, a);
    ValueAfterReply(c, k0, p.notifications + q.notifications, p.responses, rid, p.node.value, q.responses);
    TakeConcat(c, k0, p.notifications, q.notifications);
    ToldOfChanges(c, Known(map[], p.node.value), subscribed, c.ref, b);
    if p.node.value.None? {
      ToldOfChanges(c, TakeAll(c, k0, p.notifications), subscribed, c.ref, b);
    }
  }
}

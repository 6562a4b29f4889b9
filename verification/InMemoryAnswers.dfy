/** What an in-memory node answers and announces: one answer for each request, and what a reader finds in it. */
module InMemoryAnswers {
  import opened Collections
  import opened Dsa
  import opened Paths
  import opened InMemoryNode

  /** The requests, by sender and RID, that these messages answer. A value or a row beside the answer is none. */
  function Answered(ms: seq<Outgoing>): seq<(ActorRef, int)> {
    if ms == [] then []
    else
      var past := Answered(ms[..|ms| - 1]);
      match ms[|ms| - 1]
      case Done(to, rid) => past + [(to, rid)]
      case Snapshot(to, rid, _) => past + [(to, rid)]
      case _ => past
  }

  function Rids(sender: ActorRef, rs: seq<Request>): seq<(ActorRef, int)> {
    seq(|rs|, i requires 0 <= i < |rs| => (sender, rs[i].rid))
  }

  lemma {:induction false} AnsweredConcat(a: seq<Outgoing>, b: seq<Outgoing>)
    ensures Answered(a + b) == Answered(a) + Answered(b)
  {
    if b == [] {
      assert a + b == a;
    } else {
      assert (a + b)[..|a + b| - 1] == a + b[..|b| - 1];
      AnsweredConcat(a, b[..|b| - 1]);
    }
  }

  lemma AnsweredOne(ms: seq<Outgoing>, m: Outgoing)
    ensures Answered(ms + [m])
            == if m.Done? || m.Snapshot? then Answered(ms) + [(m.to, m.rid)] else Answered(ms)
  {
    assert (ms + [m])[..|ms|] == ms;
  }

  predicate Announces(m: Outgoing) {
    m.ToListeners? || m.ToSubscribers?
  }

  lemma {:induction false} AnnouncementsAnswerNothing(ms: seq<Outgoing>)
    requires forall m <- ms :: Announces(m)
    ensures Answered(ms) == []
  {
    if ms != [] {
      AnnouncementsAnswerNothing(ms[..|ms| - 1]);
      assert Announces(ms[|ms| - 1]);
    }
  }

  lemma {:induction false} CallsOnlyAnnounce(p: Progress, ms: seq<Mutation>)
    requires forall m <- p.notifications :: Announces(m)
    ensures forall m <- WithMutations(p, ms).notifications :: Announces(m)
    ensures |WithMutations(p, ms).notifications| == |p.notifications| + |ms|
    ensures WithMutations(p, ms).responses == p.responses
  {
    if ms != [] {
      CallsOnlyAnnounce(p, ms[..|ms| - 1]);
    }
  }

  lemma RequestAnswered(p: Progress, sender: ActorRef, r: Request)
    requires WellFormed(r) && forall m <- p.notifications :: Announces(m)
    ensures Answered(Handled(p, sender, r).responses) == Answered(p.responses) + [(sender, r.rid)]
    ensures forall m <- Handled(p, sender, r).notifications :: Announces(m)
  {
    match r
    case InvokeRequest(rid, effects) =>
      CallsOnlyAnnounce(p, effects);
      AnsweredOne(p.responses, Done(sender, rid));
    case SubscribeRequest(rid, sid) =>
      AnsweredOne(p.responses, Done(sender, rid));
      if p.node.value.Some? {
        AnsweredOne(p.responses + [Done(sender, rid)], CurrentValue(sender, sid, p.node.value.value));
      }
    case ListRequest(rid, childConfigs) =>
      AnsweredOne(p.responses, Snapshot(sender, rid, SnapshotRows(p.node, childConfigs)));
    case _ => AnsweredOne(p.responses, Done(sender, r.rid));
  }

  lemma {:induction false} RequestsAnswered(p: Progress, sender: ActorRef, rs: seq<Request>)
    requires (forall r <- rs :: WellFormed(r)) && forall m <- p.notifications :: Announces(m)
    ensures Answered(HandledAll(p, sender, rs).responses) == Answered(p.responses) + Rids(sender, rs)
    ensures forall m <- HandledAll(p, sender, rs).notifications :: Announces(m)
  {
    if rs != [] {
      RequestsAnswered(p, sender, rs[..|rs| - 1]);
      RequestAnswered(HandledAll(p, sender, rs[..|rs| - 1]), sender, rs[|rs| - 1]);
      RidsMore(sender, rs, Answered(p.responses));
    }
  }

  lemma RidsMore(sender: ActorRef, rs: seq<Request>, before: seq<(ActorRef, int)>)
    requires rs != []
    ensures before + Rids(sender, rs[..|rs| - 1]) + [(sender, rs[|rs| - 1].rid)] == before + Rids(sender, rs)
  {
    assert Rids(sender, rs) == Rids(sender, rs[..|rs| - 1]) + [(sender, rs[|rs| - 1].rid)];
  }

  /** Every request of an envelope is answered exactly once, to its sender, in the order of the requests. */
  lemma EachAnsweredOnce(n: Node, sender: ActorRef, rs: seq<Request>)
    requires forall r <- rs :: WellFormed(r)
    ensures Answered(Receive(n, Envelope(sender, rs)).1) == Rids(sender, rs)
  {
    var p := HandledAll(Progress(n, [], []), sender, rs);
    RequestsAnswered(Progress(n, [], []), sender, rs);
    AnsweredConcat(p.notifications, p.responses);
    AnnouncementsAnswerNothing(p.notifications);
  }

  /** What is in a LIST reply: "$is" always, the other configs, the attributes, and the children's configs. */
  lemma ListReplyMeaning(n: Node, childConfigs: map<string, Val>, name: string)
    requires (forall k <- n.configs :: IsConfigName(k)) && (forall k <- n.attributes :: IsAttributeName(k))
    requires forall k <- n.children :: IsChildName(k)
    ensures var rows := SnapshotRows(n, childConfigs);
            && (name in rows <==> name == "$is" || name in n.configs || name in n.attributes || name in n.children)
            && (name in n.configs ==> rows[name] == n.configs[name])
            && (name == "$is" && name !in n.configs ==> rows[name] == Str(""))
            && (name in n.attributes ==> rows[name] == n.attributes[name])
            && (name in n.children && name in childConfigs ==> rows[name] == childConfigs[name])
  {}

  /** A new child is announced to every listener as a node of profile "node", by one row. */
  lemma ChildAnnounced(n: Node, name: string, ref: ActorRef)
    ensures Receive(n, Call(AddChild(name, ref))).1
            == [ToListeners(n.rids, [Upsert(name, Obj(map["$is" := Str("node")]))])]
  {}

  /** A value that was set is what the next subscriber is answered. */
  lemma SetThenSubscribed(n: Node, setter: ActorRef, set_: Request, c: ActorRef, rid: int, sid: int)
    requires set_.SetRequest? && LastSegment(set_.path).Some? && IsChildName(LastSegment(set_.path).value)
    ensures WellFormedInput(Envelope(setter, [set_])) && WellFormedInput(Envelope(c, [SubscribeRequest(rid, sid)]))
    ensures Receive(Receive(n, Envelope(setter, [set_])).0, Envelope(c, [SubscribeRequest(rid, sid)])).1
            == [Done(c, rid), CurrentValue(c, sid, set_.value)]
  {
    OneHandled(n, setter, set_);
    var n' := Receive(n, Envelope(setter, [set_])).0;
    OneHandled(n', c, SubscribeRequest(rid, sid));
    assert [] + [Done(c, rid)] + [CurrentValue(c, sid, set_.value)] == [Done(c, rid), CurrentValue(c, sid, set_.value)];
  }

  lemma OneHandled(n: Node, sender: ActorRef, r: Request)
    requires WellFormed(r)
    ensures var p := Handled(Progress(n, [], []), sender, r);
            Receive(n, Envelope(sender, [r])) == (p.node, p.notifications + p.responses)
  {
    var rs, start := [r], Progress(n, [], []);
    assert rs[..|rs| - 1] == [] && HandledAll(start, sender, []) == start;
    assert HandledAll(start, sender, rs) == Handled(HandledAll(start, sender, rs[..|rs| - 1]), sender, r);
  }
}

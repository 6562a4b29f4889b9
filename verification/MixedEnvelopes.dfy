/** Envelopes that both start a LIST stream and change the node: when the client is in step afterwards. */
module MixedEnvelopes {
  import opened Collections
  import opened Dsa
  import opened Paths
  import opened InMemoryNode
  import opened InMemoryStreams

  // ---- Handling is the same whatever was handled before ----

  function After(p: Progress, q: Progress): Progress {
    Progress(q.node, p.notifications + q.notifications, p.responses + q.responses)
  }

  lemma {:induction false} MutationsAfter(p: Progress, q: Progress, ms: seq<Mutation>)
    ensures WithMutations(After(p, q), ms) == After(p, WithMutations(q, ms))
  {
    if ms != [] {
      MutationsAfter(p, q, ms[..|ms| - 1]);
      MutationAfter(p, WithMutations(q, ms[..|ms| - 1]), ms[|ms| - 1]);
    }
  }

  lemma MutationAfter(p: Progress, q: Progress, m: Mutation)
    ensures WithMutation(After(p, q), m) == After(p, WithMutation(q, m))
  {
    var out := Mutate(q.node, m).1;
    assert p.notifications + q.notifications + out == p.notifications + (q.notifications + out);
  }

  lemma Assoc<T>(a: seq<T>, b: seq<T>, c: seq<T>)
    ensures a + b + c == a + (b + c)
  {}

  lemma HandledAfter(p: Progress, q: Progress, sender: ActorRef, r: Request)
    requires WellFormed(r)
    ensures Handled(After(p, q), sender, r) == After(p, Handled(q, sender, r))
  {
    match r
    case SetRequest(rid, path, _) =>
      MutationAfter(p, q, MutationOf(r, LastSegment(path).value).value);
      Assoc(p.responses, q.responses, [Done(sender, rid)]);
    case RemoveRequest(rid, path) =>
      var m := MutationOf(r, LastSegment(path).value);
      if m.Some? {
        MutationAfter(p, q, m.value);
      }
      Assoc(p.responses, q.responses, [Done(sender, rid)]);
    case InvokeRequest(rid, effects) =>
      MutationsAfter(p, q, effects);
      Assoc(p.responses, q.responses, [Done(sender, rid)]);
    case SubscribeRequest(rid, sid) =>
      Assoc(p.responses, q.responses, [Done(sender, rid)]);
      if q.node.value.Some? {
        Assoc(p.responses, q.responses + [Done(sender, rid)], [CurrentValue(sender, sid, q.node.value.value)]);
      }
    case UnsubscribeRequest(rid, _) => Assoc(p.responses, q.responses, [Done(sender, rid)]);
    case ListRequest(rid, childConfigs) =>
      Assoc(p.responses, q.responses, [Snapshot(sender, rid, SnapshotRows(q.node, childConfigs))]);
    case CloseRequest(rid) => Assoc(p.responses, q.responses, [Done(sender, rid)]);
  }

  function Begin(n: Node): Progress {
    Progress(n, [], [])
  }

  lemma {:induction false} HandledAllAfter(p: Progress, sender: ActorRef, rs: seq<Request>)
    requires forall r <- rs :: WellFormed(r)
    ensures HandledAll(p, sender, rs) == After(p, HandledAll(Begin(p.node), sender, rs))
  {
    if rs == [] {
      assert p.notifications + [] == p.notifications && p.responses + [] == p.responses;
    } else {
      HandledAllAfter(p, sender, rs[..|rs| - 1]);
      HandledAfter(p, HandledAll(Begin(p.node), sender, rs[..|rs| - 1]), sender, rs[|rs| - 1]);
    }
  }

  lemma {:induction false} HandledAllConcat(p: Progress, sender: ActorRef, a: seq<Request>, b: seq<Request>)
    requires forall r <- a :: WellFormed(r)
    requires forall r <- b :: WellFormed(r)
    ensures forall r <- a + b :: WellFormed(r)
    ensures HandledAll(p, sender, a + b) == HandledAll(HandledAll(p, sender, a), sender, b)
  {
    if b == [] {
      assert a + b == a;
    } else {
      assert (a + b)[..|a + b| - 1] == a + b[..|b| - 1];
      HandledAllConcat(p, sender, a, b[..|b| - 1]);
    }
  }

  // ---- Views that are alike ----

  /** Everything known in one view is known in the other. */
  predicate Within(v: ListView, w: ListView) {
    forall k <- v :: k in w && w[k] == v[k]
  }

  /** The views say the same of every other name. */
  ghost predicate AlikeBut(names: set<string>, v: ListView, w: ListView) {
    forall k :: k !in names ==> (k in v <==> k in w) && (k in v ==> v[k] == w[k])
  }

  lemma {:induction false} RowsKeepAlike(names: set<string>, v: ListView, w: ListView, rows: seq<Row>)
    ensures Within(v, w) ==> Within(ApplyRows(v, rows), ApplyRows(w, rows))
    ensures AlikeBut(names, v, w) ==> AlikeBut(names, ApplyRows(v, rows), ApplyRows(w, rows))
  {
    if rows != [] {
      RowsKeepAlike(names, v, w, rows[..|rows| - 1]);
    }
  }

  lemma TakeKeepsAlike(names: set<string>, c: Client, k: Known, l: Known, m: Outgoing)
    ensures Within(k.view, l.view) ==> Within(Take(c, k, m).view, Take(c, l, m).view)
    ensures AlikeBut(names, k.view, l.view) ==> AlikeBut(names, Take(c, k, m).view, Take(c, l, m).view)
  {
    if m.ToListeners? {
      RowsKeepAlike(names, k.view, l.view, m.rows);
    }
  }

  lemma {:induction false} TakeAllKeepsAlike(names: set<string>, c: Client, k: Known, l: Known, ms: seq<Outgoing>)
    ensures Within(k.view, l.view) ==> Within(TakeAll(c, k, ms).view, TakeAll(c, l, ms).view)
    ensures AlikeBut(names, k.view, l.view) ==> AlikeBut(names, TakeAll(c, k, ms).view, TakeAll(c, l, ms).view)
  {
    if ms != [] {
      TakeAllKeepsAlike(names, c, k, l, ms[..|ms| - 1]);
      TakeKeepsAlike(names, c, TakeAll(c, k, ms[..|ms| - 1]), TakeAll(c, l, ms[..|ms| - 1]), ms[|ms| - 1]);
    }
  }

  // ---- Requests that start no stream ----

  predicate Plain(r: Request) {
    WellFormed(r) && IntendedRequest(r) && !IsStart(r)
  }

  ghost predicate AllPlain(rs: seq<Request>) {
    forall r <- rs :: WellFormed(r) && IntendedRequest(r) && !IsStart(r)
  }

  /** The requests neither start a stream nor close this one. */
  ghost predicate PlainAround(c: Client, rs: seq<Request>) {
    AllPlain(rs) && CloseRequest(c.rid) !in rs
  }

  /** What changes tell a client that does not listen, and how they change who listens. */
  lemma MutationToOthers(c: Client, k: Known, p: Progress, m: Mutation)
    requires !Listening(p.node, c)
    ensures var q := WithMutation(p, m);
            q.node.rids == p.node.rids && TakeAll(c, k, q.notifications).view == TakeAll(c, k, p.notifications).view
  {
    var out := Mutate(p.node, m).1;
    assert out == [out[0]];
    TakeOne(c, k, p.notifications, out[0]);
  }

  lemma {:induction false} MutationsToOthers(c: Client, k: Known, p: Progress, ms: seq<Mutation>)
    requires !Listening(p.node, c)
    ensures var q := WithMutations(p, ms);
            q.node.rids == p.node.rids && TakeAll(c, k, q.notifications).view == TakeAll(c, k, p.notifications).view
  {
    if ms != [] {
      MutationsToOthers(c, k, p, ms[..|ms| - 1]);
      MutationToOthers(c, k, WithMutations(p, ms[..|ms| - 1]), ms[|ms| - 1]);
    }
  }

  lemma PlainToOthers(c: Client, k: Known, p: Progress, sender: ActorRef, r: Request)
    requires !Listening(p.node, c) && Plain(r)
    ensures var q := Handled(p, sender, r);
            !Listening(q.node, c) && TakeAll(c, k, q.notifications).view == TakeAll(c, k, p.notifications).view
  {
    match r
    case SetRequest(_, path, _) => MutationToOthers(c, k, p, MutationOf(r, LastSegment(path).value).value);
    case RemoveRequest(_, path) =>
      var m := MutationOf(r, LastSegment(path).value);
      if m.Some? {
        MutationToOthers(c, k, p, m.value);
      }
    case InvokeRequest(_, effects) => MutationsToOthers(c, k, p, effects);
    case _ =>
  }

  lemma {:induction false} AllPlainToOthers(c: Client, k: Known, n: Node, sender: ActorRef, rs: seq<Request>)
    requires !Listening(n, c) && AllPlain(rs)
    ensures var p := HandledAll(Begin(n), sender, rs);
            !Listening(p.node, c) && TakeAll(c, k, p.notifications).view == k.view
  {
    if rs != [] {
      AllPlainToOthers(c, k, n, sender, rs[..|rs| - 1]);
      PlainToOthers(c, k, HandledAll(Begin(n), sender, rs[..|rs| - 1]), sender, rs[|rs| - 1]);
    }
  }

  lemma {:induction false} MutationsKeepTables(p: Progress, ms: seq<Mutation>)
    ensures WithMutations(p, ms).node.rids == p.node.rids
  {
    if ms != [] {
      MutationsKeepTables(p, ms[..|ms| - 1]);
    }
  }

  lemma {:induction false} PlainKeepsListening(c: Client, n: Node, sender: ActorRef, rs: seq<Request>)
    requires Listening(n, c) && PlainAround(c, rs)
    ensures Listening(HandledAll(Begin(n), sender, rs).node, c)
  {
    if rs != [] {
      PlainKeepsListening(c, n, sender, rs[..|rs| - 1]);
      var p, r := HandledAll(Begin(n), sender, rs[..|rs| - 1]), rs[|rs| - 1];
      assert Plain(r) && r != CloseRequest(c.rid);
      if r.InvokeRequest? {
        MutationsKeepTables(p, r.effects);
      }
    }
  }

  /** What a client that starts from nothing is told by changes before its LIST is so. */
  lemma CorrectBeforeList(c: Client, v: Option<Val>, n: Node, sender: ActorRef, rs: seq<Request>)
    requires NamesApart(n) && PlainAround(c, rs)
    ensures var p := HandledAll(Begin(n), sender, rs);
            NamesApart(p.node) && Correct(TakeAll(c, Known(map[], v), p.notifications).view, p.node)
  {
    var full := Known(SnapshotRows(n, map[]), n.value);
    SnapshotShows(n, map[], map[]);
    assert map[] + SnapshotRows(n, map[]) == SnapshotRows(n, map[]);
    ChangesKeepStep(c, full, n, sender, rs);
    if Listening(n, c) {
      PlainKeepsListening(c, n, sender, rs);
      var p := HandledAll(Begin(n), sender, rs);
      TakeAllKeepsAlike({}, c, Known(map[], v), full, p.notifications);
      WithinCorrect(TakeAll(c, Known(map[], v), p.notifications).view, TakeAll(c, full, p.notifications).view, p.node);
    } else {
      AllPlainToOthers(c, Known(map[], v), n, sender, rs);
    }
  }

  lemma WithinCorrect(v: ListView, w: ListView, n: Node)
    requires Within(v, w) && Correct(w, n)
    ensures Correct(v, n)
  {}

  // ---- The envelope ----

  /** A LIST between plain requests: what was handled before it, and after it. */
  lemma SplitAtList(n: Node, sender: ActorRef, a: seq<Request>, list: Request, b: seq<Request>)
    requires list.ListRequest? && (forall r <- a :: WellFormed(r)) && (forall r <- b :: WellFormed(r))
    ensures forall r <- a + [list] + b :: WellFormed(r)
    ensures var p := HandledAll(Begin(n), sender, a);
            var listed := p.node.(rids := p.node.rids[list.rid := sender]);
            var q := HandledAll(Begin(listed), sender, b);
            HandledAll(Begin(n), sender, a + [list] + b)
            == Progress(q.node, p.notifications + q.notifications,
                        p.responses + [Snapshot(sender, list.rid, SnapshotRows(p.node, list.childConfigs))]
                        + q.responses)
  {
    HandledAllConcat(Begin(n), sender, a + [list], b);
    assert (a + [list])[..|a|] == a;
    HandledAllAfter(Handled(HandledAll(Begin(n), sender, a), sender, list), sender, b);
  }

  /** The client's view at the end: what it was told after it was told of changes, with the rows of the reply. */
  lemma ViewAfterReply(c: Client, k: Known, ms: seq<Outgoing>, done: seq<Outgoing>, table: ListView,
                       more: seq<Outgoing>)
    requires forall m <- done + more :: m.Done?
    ensures TakeAll(c, k, ms + (done + [Snapshot(c.ref, c.rid, table)] + more)).view == TakeAll(c, k, ms).view + table
  {
    var snapshot := Snapshot(c.ref, c.rid, table);
    TakeConcat(c, k, ms, done + [snapshot] + more);
    var told := TakeAll(c, k, ms);
    TakeConcat(c, told, done + [snapshot], more);
    TakeOne(c, told, done, snapshot);
    assert forall m <- done :: m in done + more;
    assert forall m <- more :: m in done + more;
    DoneTellsNothing(c, told, done);
    DoneTellsNothing(c, Take(c, told, snapshot), more);
  }

  /** Rows that are still so complete a view that was complete but for their names; others spoil it. */
  lemma OldRowsOver(view: ListView, full: ListView, table: ListView, n: Node)
    requires Shows(full, n) && AlikeBut(table.Keys, view, full)
    ensures Shows(view + table, n) <==> Correct(table, n)
  {
    assert Within(table, view + table);
    if Correct(table, n) {
      forall k <- n.configs.Keys + n.attributes.Keys + n.children.Keys ensures k in view + table {
        assert k in full;
      }
    }
  }

  /** What the client knows after the changes that follow its LIST, and that it would know them all had it the rows. */
  lemma AfterList(c: Client, k: Known, n: Node, table: ListView, b: seq<Request>)
    requires NamesApart(n) && Listening(n, c) && PlainAround(c, b) && Shows(k.view + table, n)
    ensures var q := HandledAll(Begin(n), c.ref, b);
            && Listening(q.node, c) && (forall m <- q.responses :: m.Done?)
            && (Shows(TakeAll(c, k, q.notifications).view + table, q.node) <==> Correct(table, q.node))
  {
    var full, q := Known(k.view + table, n.value), HandledAll(Begin(n), c.ref, b);
    ChangesKeepStep(c, full, n, c.ref, b);
    PlainKeepsListening(c, n, c.ref, b);
    TakeAllKeepsAlike(table.Keys, c, k, full, q.notifications);
    OldRowsOver(TakeAll(c, k, q.notifications).view, TakeAll(c, full, q.notifications).view, table, q.node);
  }

  /**
   A LIST in one envelope with requests that change the node, before it and after it: the client is in step
   afterwards if and only if every row of the reply, taken when the LIST was handled, is still so at the end.
   */
  lemma MixedEnvelopeInStepIff(n: Node, c: Client, k: Known, a: seq<Request>, childConfigs: map<string, Val>,
                               b: seq<Request>)
    requires NamesApart(n) && PlainAround(c, a) && PlainAround(c, b)
    ensures var i := Envelope(c.ref, a + [ListRequest(c.rid, childConfigs)] + b);
            && WellFormedInput(i)
            && var (n', out) := Receive(n, i);
            && Listening(n', c)
            && (Shows(TakeAll(c, Restarted(c, k, i), out).view, n')
                <==> Correct(SnapshotRows(HandledAll(Begin(n), c.ref, a).node, childConfigs), n'))
  {
    var list := ListRequest(c.rid, childConfigs);
    var i := Envelope(c.ref, a + [list] + b);
    SplitAtList(n, c.ref, a, list, b);
    assert list in i.requests;
    var k0 := Restarted(c, k, i);
    var p := HandledAll(Begin(n), c.ref, a);
    CorrectBeforeList(c, k0.value, n, c.ref, a);
    var told := TakeAll(c, k0, p.notifications);
    var table, listed := SnapshotRows(p.node, childConfigs), p.node.(rids := p.node.rids[c.rid := c.ref]);
    SnapshotShows(p.node, childConfigs, told.view);
    AfterList(c, told, listed, table, b);
    var q := HandledAll(Begin(listed), c.ref, b);
    ChangesAreDone(n, c.ref, a);
    ViewAfterReply(c, k0, p.notifications + q.notifications, p.responses, table, q.responses);
    TakeConcat(c, k0, p.notifications, q.notifications);
  }

  lemma {:induction false} ChangesAreDone(n: Node, sender: ActorRef, rs: seq<Request>)
    requires AllPlain(rs)
    ensures forall m <- HandledAll(Begin(n), sender, rs).responses :: m.Done?
  {
    if rs != [] {
      ChangesAreDone(n, sender, rs[..|rs| - 1]);
      var p, r := HandledAll(Begin(n), sender, rs[..|rs| - 1]), rs[|rs| - 1];
      assert Plain(r);
      if r.InvokeRequest? {
        MutationsAnswerNothing(p, r.effects);
      }
    }
  }

  lemma {:induction false} MutationsAnswerNothing(p: Progress, ms: seq<Mutation>)
    ensures WithMutations(p, ms).responses == p.responses
  {
    if ms != [] {
      MutationsAnswerNothing(p, ms[..|ms| - 1]);
    }
  }

  lemma OneSetSpoils(n: Node, name: string, v: Val)
    requires NamesApart(n) && IsAttributeName(name)
    ensures Correct(SnapshotRows(n, map[]), n.(attributes := n.attributes[name := v]))
            <==> name !in n.attributes || n.attributes[name] == v
  {
    var table, n' := SnapshotRows(n, map[]), n.(attributes := n.attributes[name := v]);
    SnapshotShows(n, map[], map[]);
    assert map[] + table == table;
    AttributeInTable(n, name);
    if name in n.attributes {
      assert Correct(table, n') ==> n'.attributes[name] == table[name];
      assert n.attributes[name] == v ==> n' == n;
    } else {
      OtherNamesCorrect(table, n, name, v);
    }
  }

  lemma AttributeInTable(n: Node, name: string)
    requires NamesApart(n) && IsAttributeName(name)
    ensures var table := SnapshotRows(n, map[]);
            (name in table <==> name in n.attributes) && (name in table ==> table[name] == n.attributes[name])
  {}

  lemma OtherNamesCorrect(view: ListView, n: Node, name: string, v: Val)
    requires Correct(view, n) && name !in view
    ensures Correct(view, n.(attributes := n.attributes[name := v]))
  {}

  /**
   So after a LIST and a SET of an attribute in one envelope the client has fallen behind exactly when the
   attribute existed with another value.
   */
  lemma MixedEnvelopeFallsBehind(n: Node, c: Client, set_: Request, name: string, k: Known)
    requires NamesApart(n)
    requires set_.SetRequest? && LastSegment(set_.path) == Some(name) && IsAttributeName(name)
    ensures var i := Envelope(c.ref, [ListRequest(c.rid, map[]), set_]);
            && WellFormedInput(i)
            && var (n', out) := Receive(n, i);
            && Listening(n', c)
            && (Shows(TakeAll(c, Restarted(c, k, i), out).view, n')
                <==> name !in n.attributes || n.attributes[name] == set_.value)
  {
    var list := ListRequest(c.rid, map[]);
    MixedEnvelopeOutput(n, c.ref, c.rid, set_, name);
    assert [] + [list] + [set_] == [list, set_];
    ListThenOne(n, c, k, set_);
    OneSetSpoils(n, name, set_.value);
  }

  lemma ListThenOne(n: Node, c: Client, k: Known, r: Request)
    requires NamesApart(n) && Plain(r) && r != CloseRequest(c.rid)
    ensures var i := Envelope(c.ref, [ListRequest(c.rid, map[]), r]);
            && WellFormedInput(i)
            && var (n', out) := Receive(n, i);
            && Listening(n', c)
            && (Shows(TakeAll(c, Restarted(c, k, i), out).view, n') <==> Correct(SnapshotRows(n, map[]), n'))
  {
    assert [] + [ListRequest(c.rid, map[])] + [r] == [ListRequest(c.rid, map[]), r];
    MixedEnvelopeInStepIff(n, c, k, [], map[], [r]);
  }
}

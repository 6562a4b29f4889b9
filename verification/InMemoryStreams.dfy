/** What a client of an in-memory node knows from its LIST and SUBSCRIBE streams, over whole runs. */
module InMemoryStreams {
  import opened Collections
  import opened Dsa
  import opened Paths
  import opened InMemoryNode

  /** A client that lists with one RID and subscribes with one SID. */
  datatype Client = Client(ref: ActorRef, rid: int, sid: int)

  /** The rows and the last value it has received. */
  datatype Known = Known(view: ListView, value: Option<Val>)

  predicate Listening(n: Node, c: Client) {
    c.rid in n.rids && n.rids[c.rid] == c.ref
  }

  predicate Subscribed(n: Node, c: Client) {
    c.sid in n.sids && n.sids[c.sid] == c.ref
  }

  function Take(c: Client, k: Known, m: Outgoing): Known {
    match m
    case ToListeners(recipients, rows) =>
      if c.rid in recipients && recipients[c.rid] == c.ref then k.(view := ApplyRows(k.view, rows)) else k
    case Snapshot(to, rid, table) => if to == c.ref && rid == c.rid then k.(view := k.view + table) else k
    case ToSubscribers(recipients, v) =>
      if c.sid in recipients && recipients[c.sid] == c.ref then k.(value := Some(v)) else k
    case CurrentValue(to, sid, v) => if to == c.ref && sid == c.sid then k.(value := Some(v)) else k
    case Done(_, _) => k
  }

  function TakeAll(c: Client, k: Known, ms: seq<Outgoing>): Known {
    if ms == [] then k else Take(c, TakeAll(c, k, ms[..|ms| - 1]), ms[|ms| - 1])
  }

  lemma TakeOne(c: Client, k: Known, ms: seq<Outgoing>, m: Outgoing)
    ensures TakeAll(c, k, ms + [m]) == Take(c, TakeAll(c, k, ms), m)
  {
    assert (ms + [m])[..|ms|] == ms;
  }

  lemma {:induction false} TakeConcat(c: Client, k: Known, a: seq<Outgoing>, b: seq<Outgoing>)
    ensures TakeAll(c, k, a + b) == TakeAll(c, TakeAll(c, k, a), b)
  {
    if b == [] {
      assert a + b == a;
    } else {
      assert (a + b)[..|a + b| - 1] == a + b[..|b| - 1];
      TakeConcat(c, k, a, b[..|b| - 1]);
    }
  }

  /** A LIST reply adds the same entries in whatever order its rows come. */
  lemma SnapshotInAnyOrder(view: ListView, table: ListView, rows: seq<Row>)
    requires RowSet(rows) == set name | name in table :: Upsert(name, table[name])
    ensures ApplyRows(view, rows) == view + table
  {
    ApplyRowsAnyOrder(view, rows);
    TablePatches(view, table, RowSet(rows));
    PatchedIsUnique(view, RowSet(rows), ApplyRows(view, rows), view + table);
  }

  lemma TablePatches(view: ListView, table: ListView, rows: set<Row>)
    requires rows == set name | name in table :: Upsert(name, table[name])
    ensures Patched(view, rows, view + table)
  {
    assert forall name <- table :: Upsert(name, table[name]) in rows;
  }

  // ---- Agreement of a view with the node ----

  ghost predicate NamesApart(n: Node) {
    && (forall k <- n.configs :: IsConfigName(k))
    && (forall k <- n.attributes :: IsAttributeName(k))
    && (forall k <- n.children :: IsChildName(k))
  }

  /** Everything in the view is so at the node; "$is" may be known as empty while it is missing. */
  ghost predicate Correct(view: ListView, n: Node) {
    forall k <- view ::
      if IsConfigName(k) then (if k in n.configs then view[k] == n.configs[k] else k == "$is" && view[k] == Str(""))
      else if IsAttributeName(k) then k in n.attributes && view[k] == n.attributes[k]
      else k in n.children
  }

  ghost predicate Complete(view: ListView, n: Node) {
    && n.configs.Keys <= view.Keys
    && n.attributes.Keys <= view.Keys
    && n.children.Keys <= view.Keys
  }

  /** The view holds exactly the configs, the attributes and the child names. */
  ghost predicate Shows(view: ListView, n: Node) {
    Correct(view, n) && Complete(view, n)
  }

  /** Reading a view: a missing "$is" reads as empty. */
  function ReadConfig(view: ListView, name: string): Option<Val> {
    if name in view then Some(view[name]) else if name == "$is" then Some(Str("")) else None
  }

  /** What Shows means to a reader. */
  lemma ShowsMeaning(view: ListView, n: Node)
    requires NamesApart(n) && Shows(view, n)
    ensures forall name :: IsConfigName(name) ==> ReadConfig(view, name) == ReadConfig(n.configs, name)
    ensures forall name :: IsAttributeName(name) ==>
              (name in view <==> name in n.attributes) && (name in view ==> view[name] == n.attributes[name])
    ensures forall name :: IsChildName(name) ==> (name in view <==> name in n.children)
  {}

  ghost predicate InStep(c: Client, k: Known, n: Node) {
    && NamesApart(n)
    && (Listening(n, c) ==> Shows(k.view, n))
    && (Subscribed(n, c) ==> k.value == n.value)
  }

  // ---- Mutators ----

  function WithEntry(n: Node, name: string, value: Val): Node {
    if IsConfigName(name) then n.(configs := n.configs[name := value])
    else n.(attributes := n.attributes[name := value])
  }

  lemma UpsertKeepsShows(n: Node, name: string, value: Val, view: ListView)
    requires NamesApart(n) && Shows(view, n) && !IsChildName(name)
    ensures NamesApart(WithEntry(n, name, value))
            && Shows(ApplyRow(view, Upsert(name, value)), WithEntry(n, name, value))
  {
    UpsertKeepsCorrect(n, name, value, view);
  }

  lemma UpsertKeepsCorrect(n: Node, name: string, value: Val, view: ListView)
    requires Correct(view, n) && !IsChildName(name)
    ensures Correct(view[name := value], WithEntry(n, name, value))
  {}

  function WithEntries(n: Node, pairs: seq<(string, Val)>): Node {
    if pairs == [] then n
    else WithEntry(WithEntries(n, pairs[..|pairs| - 1]), pairs[|pairs| - 1].0, pairs[|pairs| - 1].1)
  }

  lemma {:induction false} UpsertsKeepShows(n: Node, pairs: seq<(string, Val)>, view: ListView)
    requires forall p <- pairs :: !IsChildName(p.0)
    requires NamesApart(n) && Shows(view, n)
    ensures NamesApart(WithEntries(n, pairs)) && Shows(ApplyRows(view, UpsertRows(pairs)), WithEntries(n, pairs))
  {
    if pairs != [] {
      var front, last := pairs[..|pairs| - 1], pairs[|pairs| - 1];
      UpsertsKeepShows(n, front, view);
      UpsertKeepsShows(WithEntries(n, front), last.0, last.1, ApplyRows(view, UpsertRows(front)));
      assert UpsertRows(pairs)[..|pairs| - 1] == UpsertRows(front);
    }
  }

  lemma {:induction false} ConfigEntries(n: Node, pairs: seq<(string, Val)>)
    requires forall p <- pairs :: IsConfigName(p.0)
    ensures WithEntries(n, pairs) == n.(configs := Added(n.configs, pairs))
  {
    if pairs != [] {
      ConfigEntries(n, pairs[..|pairs| - 1]);
    }
  }

  lemma {:induction false} AttributeEntries(n: Node, pairs: seq<(string, Val)>)
    requires forall p <- pairs :: IsAttributeName(p.0)
    ensures WithEntries(n, pairs) == n.(attributes := Added(n.attributes, pairs))
  {
    if pairs != [] {
      AttributeEntries(n, pairs[..|pairs| - 1]);
    }
  }

  lemma {:induction false} AddedNames(m: map<string, Val>, pairs: seq<(string, Val)>, prefix: char)
    requires forall p <- pairs :: |p.0| > 0 && p.0[0] == prefix
    requires forall k <- m :: |k| > 0 && k[0] == prefix
    ensures forall k <- Added(m, pairs) :: |k| > 0 && k[0] == prefix
  {
    if pairs != [] {
      AddedNames(m, pairs[..|pairs| - 1], prefix);
    }
  }

  lemma PrefixedNames(prefix: char, pairs: seq<(string, Val)>)
    ensures forall p <- Prefixed(prefix, pairs) :: |p.0| > 0 && p.0[0] == prefix
  {}

  lemma MutationKeepsNames(n: Node, m: Mutation)
    requires NamesApart(n) && Intended(m)
    ensures NamesApart(Mutate(n, m).0)
  {
    match m
    case AddConfigs(cs) =>
      PrefixedNames('$', cs);
      AddedNames(n.configs, Prefixed('$', cs), '$');
    case AddAttributes(cs) =>
      PrefixedNames('@', cs);
      AddedNames(n.attributes, Prefixed('@', cs), '@');
    case _ =>
  }

  /** The rows a mutator sends take a view that shows the node to one that shows the changed node. */
  lemma MutationKeepsShows(n: Node, m: Mutation, view: ListView)
    requires NamesApart(n) && Intended(m) && Shows(view, n)
    ensures var (n', out) := Mutate(n, m);
            if out[0].ToListeners? then out[0].recipients == n.rids && Shows(ApplyRows(view, out[0].rows), n')
            else m.SetValue? && Shows(view, n')
  {
    match m
    case AddConfigs(cs) =>
      PrefixedNames('$', cs);
      UpsertsKeepShows(n, Prefixed('$', cs), view);
      ConfigEntries(n, Prefixed('$', cs));
    case AddAttributes(cs) =>
      PrefixedNames('@', cs);
      UpsertsKeepShows(n, Prefixed('@', cs), view);
      AttributeEntries(n, Prefixed('@', cs));
    case SetValue(_) =>
    case RemoveConfig(name) => RowAlone(view, Remove(name));
    case RemoveAttribute(name) => RowAlone(view, Remove(name));
    case AddChild(name, _) => RowAlone(view, Upsert(name, NODE_CONFIGS));
    case RemoveChild(name) => RowAlone(view, Remove(name));
  }

  lemma RowAlone(view: ListView, row: Row)
    ensures ApplyRows(view, [row]) == ApplyRow(view, row)
  {
    assert [row][..0] == [];
  }

  lemma MutationKeepsStep(c: Client, k: Known, n: Node, m: Mutation)
    requires InStep(c, k, n) && Intended(m)
    ensures var (n', out) := Mutate(n, m); |out| == 1 && InStep(c, Take(c, k, out[0]), n')
    ensures Mutate(n, m).0.rids == n.rids && Mutate(n, m).0.sids == n.sids
  {
    MutationKeepsNames(n, m);
    if Listening(n, c) {
      MutationKeepsShows(n, m, k.view);
    }
  }

  // ---- Envelopes ----

  predicate IsMutating(r: Request) {
    r.SetRequest? || r.RemoveRequest? || r.InvokeRequest?
  }

  predicate IsStart(r: Request) {
    r.ListRequest? || r.SubscribeRequest?
  }

  /** Requests that start a stream do not share the envelope with requests that change the node. */
  predicate Separated(rs: seq<Request>) {
    (forall r <- rs :: !IsStart(r)) || (forall r <- rs :: !IsMutating(r))
  }

  predicate IntendedRequest(r: Request) {
    r.InvokeRequest? ==> forall m <- r.effects :: Intended(m)
  }

  predicate GoodInput(i: Input) {
    && WellFormedInput(i)
    && match i
       case Call(m) => Intended(m)
       case Envelope(_, rs) => Separated(rs) && forall r <- rs :: IntendedRequest(r)
  }

  /** An envelope of a single request is always separated. */
  lemma SingleRequestSeparated(r: Request)
    ensures Separated([r])
  {}

  predicate Lists(c: Client, sender: ActorRef, rs: seq<Request>) {
    sender == c.ref && exists r <- rs :: r.ListRequest? && r.rid == c.rid
  }

  predicate Subscribes(c: Client, sender: ActorRef, rs: seq<Request>) {
    sender == c.ref && exists r <- rs :: r.SubscribeRequest? && r.sid == c.sid
  }

  /** A client starts from nothing whenever it lists or subscribes. */
  function Restarted(c: Client, k: Known, i: Input): Known {
    match i
    case Call(_) => k
    case Envelope(sender, rs) =>
      Known(if Lists(c, sender, rs) then map[] else k.view, if Subscribes(c, sender, rs) then None else k.value)
  }

  lemma {:induction false} MutationsKeepStep(c: Client, k: Known, p: Progress, ms: seq<Mutation>)
    requires InStep(c, TakeAll(c, k, p.notifications), p.node) && forall m <- ms :: Intended(m)
    ensures var q := WithMutations(p, ms);
            InStep(c, TakeAll(c, k, q.notifications), q.node) && q.responses == p.responses
  {
    if ms != [] {
      MutationsKeepStep(c, k, p, ms[..|ms| - 1]);
      OneMutationKeepsStep(c, k, WithMutations(p, ms[..|ms| - 1]), ms[|ms| - 1]);
    }
  }

  lemma OneMutationKeepsStep(c: Client, k: Known, p: Progress, m: Mutation)
    requires InStep(c, TakeAll(c, k, p.notifications), p.node) && Intended(m)
    ensures var q := WithMutation(p, m); InStep(c, TakeAll(c, k, q.notifications), q.node) && q.responses == p.responses
  {
    MutationKeepsStep(c, TakeAll(c, k, p.notifications), p.node, m);
    var out := Mutate(p.node, m).1;
    assert out == [out[0]];
    TakeOne(c, k, p.notifications, out[0]);
  }

  lemma RequestKeepsStep(c: Client, k: Known, p: Progress, sender: ActorRef, r: Request)
    requires WellFormed(r) && IntendedRequest(r) && !IsStart(r)
    requires InStep(c, TakeAll(c, k, p.notifications), p.node) && forall m <- p.responses :: m.Done?
    ensures var q := Handled(p, sender, r);
            InStep(c, TakeAll(c, k, q.notifications), q.node) && forall m <- q.responses :: m.Done?
  {
    match r
    case SetRequest(_, path, _) =>
      OneMutationKeepsStep(c, k, p, MutationOf(r, LastSegment(path).value).value);
    case RemoveRequest(_, path) =>
      var m := MutationOf(r, LastSegment(path).value);
      if m.Some? {
        OneMutationKeepsStep(c, k, p, m.value);
      }
    case InvokeRequest(_, effects) =>
      MutationsKeepStep(c, k, p, effects);
    case _ =>
  }

  lemma {:induction false} ChangesKeepStep(c: Client, k: Known, n: Node, sender: ActorRef, rs: seq<Request>)
    requires InStep(c, k, n)
    requires forall r <- rs :: WellFormed(r) && IntendedRequest(r) && !IsStart(r)
    ensures var p := HandledAll(Progress(n, [], []), sender, rs);
            InStep(c, TakeAll(c, k, p.notifications), p.node) && forall m <- p.responses :: m.Done?
  {
    if rs != [] {
      ChangesKeepStep(c, k, n, sender, rs[..|rs| - 1]);
      RequestKeepsStep(c, k, HandledAll(Progress(n, [], []), sender, rs[..|rs| - 1]), sender, rs[|rs| - 1]);
    }
  }

  lemma {:induction false} DoneTellsNothing(c: Client, k: Known, ms: seq<Outgoing>)
    requires forall m <- ms :: m.Done?
    ensures TakeAll(c, k, ms) == k
  {
    if ms != [] {
      DoneTellsNothing(c, k, ms[..|ms| - 1]);
      assert ms[|ms| - 1].Done?;
    }
  }

  predicate SameContent(a: Node, b: Node) {
    a.value == b.value && a.configs == b.configs && a.attributes == b.attributes && a.children == b.children
  }

  /** The rows of a LIST reply complete any correct view. */
  lemma SnapshotShows(n: Node, childConfigs: map<string, Val>, view: ListView)
    requires NamesApart(n) && Correct(view, n)
    ensures Shows(view + SnapshotRows(n, childConfigs), n)
  {}

  /** What the responses so far have told the client, when no request changes the node. */
  ghost predicate Told(c: Client, k: Known, n: Node, sender: ActorRef, rs: seq<Request>, p: Progress) {
    var now := TakeAll(c, k, p.responses);
    && SameContent(p.node, n) && p.notifications == []
    && (if Lists(c, sender, rs) then Correct(k.view, n) ==> Shows(now.view, n) else now.view == k.view)
    && (if Subscribes(c, sender, rs) && n.value.Some? then now.value == n.value else now.value == k.value)
    && (Listening(p.node, c) ==> Lists(c, sender, rs) || Listening(n, c))
    && (Subscribed(p.node, c) ==> Subscribes(c, sender, rs) || Subscribed(n, c))
  }

  lemma StartsAppend(c: Client, sender: ActorRef, rs: seq<Request>, r: Request)
    ensures Lists(c, sender, rs + [r])
            <==> Lists(c, sender, rs) || (sender == c.ref && r.ListRequest? && r.rid == c.rid)
    ensures Subscribes(c, sender, rs + [r])
            <==> Subscribes(c, sender, rs) || (sender == c.ref && r.SubscribeRequest? && r.sid == c.sid)
  {}

  lemma ListTold(c: Client, k: Known, n: Node, sender: ActorRef, rs: seq<Request>, r: Request, p: Progress)
    requires NamesApart(n) && r.ListRequest?
    requires Told(c, k, n, sender, rs, p)
    ensures Told(c, k, n, sender, rs + [r], Handled(p, sender, r))
  {
    var table := SnapshotRows(p.node, r.childConfigs);
    assert table == SnapshotRows(n, r.childConfigs);
    var q := Progress(p.node.(rids := p.node.rids[r.rid := sender]), p.notifications,
                      p.responses + [Snapshot(sender, r.rid, table)]);
    ToldWithSnapshot(c, k, n, sender, rs, r, p, q);
  }

  lemma ToldWithSnapshot(c: Client, k: Known, n: Node, sender: ActorRef, rs: seq<Request>, r: Request, p: Progress,
                         q: Progress)
    requires NamesApart(n) && r.ListRequest?
    requires Told(c, k, n, sender, rs, p)
    requires q.node == p.node.(rids := p.node.rids[r.rid := sender]) && q.notifications == p.notifications
    requires q.responses == p.responses + [Snapshot(sender, r.rid, SnapshotRows(n, r.childConfigs))]
    ensures Told(c, k, n, sender, rs + [r], q)
  {
    var table, now := SnapshotRows(n, r.childConfigs), TakeAll(c, k, p.responses);
    StartsAppend(c, sender, rs, r);
    TakeOne(c, k, p.responses, Snapshot(sender, r.rid, table));
    if sender == c.ref && r.rid == c.rid {
      ListedView(n, r.childConfigs, k.view, now.view, Lists(c, sender, rs));
      ToldOwnList(c, k, n, sender, rs, rs + [r], p, q);
    } else {
      ToldWithDone(c, k, n, sender, rs, rs + [r], p, q);
    }
  }

  lemma ToldOwnList(c: Client, k: Known, n: Node, sender: ActorRef, rs: seq<Request>, rs': seq<Request>, p: Progress,
                    q: Progress)
    requires Told(c, k, n, sender, rs, p) && Lists(c, sender, rs')
    requires Subscribes(c, sender, rs') == Subscribes(c, sender, rs)
    requires Correct(k.view, n) ==> Shows(TakeAll(c, k, q.responses).view, n)
    requires TakeAll(c, k, q.responses).value == TakeAll(c, k, p.responses).value
    requires SameContent(q.node, p.node) && q.node.sids == p.node.sids && q.notifications == p.notifications
    ensures Told(c, k, n, sender, rs', q)
  {}

  /** Another LIST completes the view, whether or not there was one before. */
  lemma ListedView(n: Node, childConfigs: map<string, Val>, start: ListView, now: ListView, listed: bool)
    requires NamesApart(n)
    requires if listed then Correct(start, n) ==> Shows(now, n) else now == start
    ensures Correct(start, n) ==> Shows(now + SnapshotRows(n, childConfigs), n)
  {
    if Correct(start, n) {
      SnapshotShows(n, childConfigs, now);
    }
  }

  lemma SubscribeTold(c: Client, k: Known, n: Node, sender: ActorRef, rs: seq<Request>, r: Request, p: Progress)
    requires r.SubscribeRequest?
    requires Told(c, k, n, sender, rs, p)
    ensures Told(c, k, n, sender, rs + [r], Handled(p, sender, r))
  {
    StartsAppend(c, sender, rs, r);
    TakeOne(c, k, p.responses, Done(sender, r.rid));
    if n.value.Some? {
      TakeOne(c, k, p.responses + [Done(sender, r.rid)], CurrentValue(sender, r.sid, n.value.value));
    }
  }

  lemma StopTold(c: Client, k: Known, n: Node, sender: ActorRef, rs: seq<Request>, r: Request, p: Progress)
    requires r.UnsubscribeRequest? || r.CloseRequest?
    requires Told(c, k, n, sender, rs, p)
    ensures Told(c, k, n, sender, rs + [r], Handled(p, sender, r))
  {
    StartsAppend(c, sender, rs, r);
    TakeOne(c, k, p.responses, Done(sender, r.rid));
    var q := Handled(p, sender, r);
    ToldWithDone(c, k, n, sender, rs, rs + [r], p, q);
  }

  /** A response that tells the client nothing, and a node that listens to no more clients than before. */
  lemma ToldWithDone(c: Client, k: Known, n: Node, sender: ActorRef, rs: seq<Request>, rs': seq<Request>, p: Progress,
                     q: Progress)
    requires Told(c, k, n, sender, rs, p)
    requires Lists(c, sender, rs') == Lists(c, sender, rs) && Subscribes(c, sender, rs') == Subscribes(c, sender, rs)
    requires TakeAll(c, k, q.responses) == TakeAll(c, k, p.responses) && q.notifications == p.notifications
    requires SameContent(q.node, p.node)
    requires (Listening(q.node, c) ==> Listening(p.node, c)) && (Subscribed(q.node, c) ==> Subscribed(p.node, c))
    ensures Told(c, k, n, sender, rs', q)
  {}

  lemma {:induction false} StartsTold(c: Client, k: Known, n: Node, sender: ActorRef, rs: seq<Request>)
    requires NamesApart(n)
    requires forall r <- rs :: WellFormed(r) && !IsMutating(r)
    ensures Told(c, k, n, sender, rs, HandledAll(Progress(n, [], []), sender, rs))
  {
    if rs != [] {
      var front, r := rs[..|rs| - 1], rs[|rs| - 1];
      StartsTold(c, k, n, sender, front);
      var p := HandledAll(Progress(n, [], []), sender, front);
      assert rs == front + [r] && !IsMutating(r);
      if r.ListRequest? {
        ListTold(c, k, n, sender, front, r, p);
      } else if r.SubscribeRequest? {
        SubscribeTold(c, k, n, sender, front, r, p);
      } else {
        StopTold(c, k, n, sender, front, r, p);
      }
    }
  }

  lemma EnvelopeKeepsStep(c: Client, k: Known, n: Node, sender: ActorRef, rs: seq<Request>)
    requires InStep(c, k, n) && GoodInput(Envelope(sender, rs))
    ensures var i := Envelope(sender, rs);
            InStep(c, TakeAll(c, Restarted(c, k, i), Receive(n, i).1), Receive(n, i).0)
  {
    var i := Envelope(sender, rs);
    var k0, p := Restarted(c, k, i), HandledAll(Progress(n, [], []), sender, rs);
    TakeConcat(c, k0, p.notifications, p.responses);
    if forall r <- rs :: !IsStart(r) {
      assert k0 == k;
      ChangesKeepStep(c, k, n, sender, rs);
      DoneTellsNothing(c, TakeAll(c, k, p.notifications), p.responses);
    } else {
      StartsTold(c, k0, n, sender, rs);
      ToldInStep(c, k, n, sender, rs, p);
    }
  }

  lemma ToldInStep(c: Client, k: Known, n: Node, sender: ActorRef, rs: seq<Request>, p: Progress)
    requires InStep(c, k, n)
    requires Told(c, Restarted(c, k, Envelope(sender, rs)), n, sender, rs, p)
    ensures InStep(c, TakeAll(c, Restarted(c, k, Envelope(sender, rs)), p.responses), p.node)
  {}

  // ---- Runs ----

  /** The node and what the client knows after a run of inputs. */
  function Run(c: Client, inputs: seq<Input>): (Node, Known)
    requires forall i <- inputs :: GoodInput(i)
  {
    if inputs == [] then (Fresh(), Known(map[], None))
    else
      var (n, k) := Run(c, inputs[..|inputs| - 1]);
      var i := inputs[|inputs| - 1];
      assert GoodInput(i);
      var (n', out) := Receive(n, i);
      (n', TakeAll(c, Restarted(c, k, i), out))
  }

  /**
   In every run, a client that started from nothing at its LIST and applied every row it received holds
   exactly the node's configs, attributes and child names for as long as it stays registered; and one
   that subscribed holds the node's current value.
   */
  lemma {:induction false} StreamsStayInStep(c: Client, inputs: seq<Input>)
    requires forall i <- inputs :: GoodInput(i)
    ensures var (n, k) := Run(c, inputs);
            && NamesApart(n)
            && (Listening(n, c) ==> Shows(k.view, n))
            && (Subscribed(n, c) ==> k.value == n.value)
  {
    if inputs != [] {
      var front, i := inputs[..|inputs| - 1], inputs[|inputs| - 1];
      StreamsStayInStep(c, front);
      var (n, k) := Run(c, front);
      assert GoodInput(i);
      match i
      case Call(m) =>
        MutationKeepsStep(c, k, n, m);
        var out := Mutate(n, m).1;
        assert out == [] + [out[0]];
        TakeOne(c, k, [], out[0]);
      case Envelope(sender, rs) =>
        EnvelopeKeepsStep(c, k, n, sender, rs);
    }
  }

  /** A LIST and a SET of an attribute in one envelope: the notification leaves before the older snapshot. */
  lemma MixedEnvelopeOutput(n: Node, ref: ActorRef, rid: int, set_: Request, name: string)
    requires set_.SetRequest? && LastSegment(set_.path) == Some(name) && IsAttributeName(name)
    ensures var i := Envelope(ref, [ListRequest(rid, map[]), set_]);
            && WellFormedInput(i)
            && Receive(n, i) ==
               (n.(rids := n.rids[rid := ref], attributes := n.attributes[name := set_.value]),
                [ToListeners(n.rids[rid := ref], [Upsert(name, set_.value)]),
                 Snapshot(ref, rid, SnapshotRows(n, map[])), Done(ref, set_.rid)])
  {
    var list := ListRequest(rid, map[]);
    var rs, start := [list, set_], Progress(n, [], []);
    assert rs[..1] == [list] && [list][..0] == [];
    assert HandledAll(start, ref, [list]) == Handled(start, ref, list);
    assert HandledAll(start, ref, rs) == Handled(HandledAll(start, ref, [list]), ref, set_);
    var pairs := Prefixed('@', [(name, set_.value)]);
    assert pairs == [(name, set_.value)] && pairs[..0] == [];
    assert UpsertRows(pairs) == [Upsert(name, set_.value)];
    assert Added(n.attributes, []) == n.attributes;
    assert Added(n.attributes, pairs) == Added(n.attributes, pairs[..0])[name := set_.value];
    var rows := ToListeners(n.rids[rid := ref], [Upsert(name, set_.value)]);
    var snapshot := Snapshot(ref, rid, SnapshotRows(n, map[]));
    var p := HandledAll(start, ref, rs);
    assert p.node == n.(rids := n.rids[rid := ref], attributes := n.attributes[name := set_.value]);
    assert p.notifications == [rows] && p.responses == [snapshot, Done(ref, set_.rid)];
    assert [rows] + [snapshot, Done(ref, set_.rid)] == [rows, snapshot, Done(ref, set_.rid)];
  }
}

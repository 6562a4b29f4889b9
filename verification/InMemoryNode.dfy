/**
 The in-memory node and its request handler. LIST and SUBSCRIBE are streams: a snapshot in the
 reply, then a notification for every change for as long as the listener stays registered.
 */
module InMemoryNode {
  import opened Collections
  import opened Dsa
  import opened Paths

  datatype Node = Node(
    value: Option<Val>,
    configs: map<string, Val>,
    attributes: map<string, Val>,
    children: map<string, ActorRef>,
    sids: map<int, ActorRef>,
    rids: map<int, ActorRef>)

  /** What the node sends: a message to every entry of a table, or one response in a reply. */
  datatype Outgoing =
    | ToListeners(recipients: map<int, ActorRef>, rows: seq<Row>)
    | ToSubscribers(recipients: map<int, ActorRef>, value: Val)
    | Snapshot(to: ActorRef, rid: int, table: ListView)  // one Upsert row per entry, in any order
    | CurrentValue(to: ActorRef, sid: int, value: Val)
    | Done(to: ActorRef, rid: int)

  /** The mutators of a node. */
  datatype Mutation =
    | SetValue(value: Val)
    | AddConfigs(configs: seq<(string, Val)>)
    | RemoveConfig(name: string)
    | AddAttributes(attributes: seq<(string, Val)>)
    | RemoveAttribute(name: string)
    | AddChild(name: string, ref: ActorRef)
    | RemoveChild(name: string)

  predicate Intended(m: Mutation) {
    match m
    case RemoveConfig(name) => IsConfigName(name)
    case RemoveAttribute(name) => IsAttributeName(name)
    case AddChild(name, _) => IsChildName(name)
    case RemoveChild(name) => IsChildName(name)
    case _ => true
  }

  function Prefixed(prefix: char, pairs: seq<(string, Val)>): (r: seq<(string, Val)>)
    ensures |r| == |pairs|
  {
    seq(|pairs|, i requires 0 <= i < |pairs| => (WithPrefix(prefix, pairs[i].0), pairs[i].1))
  }

  /** Adds the pairs in order; a later pair replaces an earlier one of the same name. */
  function Added(m: map<string, Val>, pairs: seq<(string, Val)>): map<string, Val> {
    if pairs == [] then m
    else Added(m, pairs[..|pairs| - 1])[pairs[|pairs| - 1].0 := pairs[|pairs| - 1].1]
  }

  function UpsertRows(pairs: seq<(string, Val)>): seq<Row> {
    seq(|pairs|, i requires 0 <= i < |pairs| => Upsert(pairs[i].0, pairs[i].1))
  }

  const NODE_CONFIGS: Val := Obj(map["$is" := Str("node")])

  function Mutate(n: Node, m: Mutation): (Node, seq<Outgoing>) {
    match m
    case SetValue(v) => (n.(value := Some(v)), [ToSubscribers(n.sids, v)])
    case AddConfigs(cs) =>
      var pairs := Prefixed('$', cs);
      (n.(configs := Added(n.configs, pairs)), [ToListeners(n.rids, UpsertRows(pairs))])
    case RemoveConfig(name) => (n.(configs := n.configs - {name}), [ToListeners(n.rids, [Remove(name)])])
    case AddAttributes(cs) =>
      var pairs := Prefixed('@', cs);
      (n.(attributes := Added(n.attributes, pairs)), [ToListeners(n.rids, UpsertRows(pairs))])
    case RemoveAttribute(name) => (n.(attributes := n.attributes - {name}), [ToListeners(n.rids, [Remove(name)])])
    case AddChild(name, ref) =>
      (n.(children := n.children[name := ref]), [ToListeners(n.rids, [Upsert(name, NODE_CONFIGS)])])
    case RemoveChild(name) => (n.(children := n.children - {name}), [ToListeners(n.rids, [Remove(name)])])
  }

  /** Requests that reach a node. An action's handler may call mutators; a LIST asks the children for their configs. */
  datatype Request =
    | SetRequest(rid: int, path: string, value: Val)
    | RemoveRequest(rid: int, path: string)
    | InvokeRequest(rid: int, effects: seq<Mutation>)
    | SubscribeRequest(rid: int, sid: int)
    | UnsubscribeRequest(rid: int, sid: int)
    | ListRequest(rid: int, childConfigs: map<string, Val>)
    | CloseRequest(rid: int)

  /** The mutator a SET or REMOVE request amounts to; a REMOVE of anything else does nothing. */
  function MutationOf(r: Request, name: string): Option<Mutation>
    requires r.SetRequest? || r.RemoveRequest?
  {
    if r.SetRequest? then
      Some(if IsConfigName(name) then AddConfigs([(name, r.value)])
           else if IsAttributeName(name) then AddAttributes([(name, r.value)])
           else SetValue(r.value))
    else if IsConfigName(name) then Some(RemoveConfig(name))
    else if IsAttributeName(name) then Some(RemoveAttribute(name))
    else None
  }

  /** The rows of a LIST reply: "$is" always, the other configs, the attributes, and the children. */
  function SnapshotRows(n: Node, childConfigs: map<string, Val>): ListView {
    map["$is" := if "$is" in n.configs then n.configs["$is"] else Str("")]
    + (n.configs - {"$is"})
    + n.attributes
    + (map name | name in n.children :: if name in childConfigs then childConfigs[name] else Obj(map[]))
  }

  /** Notifications leave while a request is handled; its responses wait for the reply. */
  datatype Progress = Progress(node: Node, notifications: seq<Outgoing>, responses: seq<Outgoing>)

  function WithMutation(p: Progress, m: Mutation): Progress {
    var (node, notifications) := Mutate(p.node, m);
    p.(node := node, notifications := p.notifications + notifications)
  }

  function WithMutations(p: Progress, ms: seq<Mutation>): Progress {
    if ms == [] then p else WithMutation(WithMutations(p, ms[..|ms| - 1]), ms[|ms| - 1])
  }

  /** The request's path names something; a path of slashes only makes the handler throw. */
  predicate WellFormed(r: Request) {
    r.SetRequest? || r.RemoveRequest? ==> LastSegment(r.path).Some?
  }

  function Handled(p: Progress, sender: ActorRef, r: Request): Progress
    requires WellFormed(r)
  {
    match r
    case SetRequest(rid, path, _) =>
      var after := WithMutation(p, MutationOf(r, LastSegment(path).value).value);
      after.(responses := p.responses + [Done(sender, rid)])
    case RemoveRequest(rid, path) =>
      var m := MutationOf(r, LastSegment(path).value);
      var after := if m.Some? then WithMutation(p, m.value) else p;
      after.(responses := p.responses + [Done(sender, rid)])
    case InvokeRequest(rid, effects) =>
      WithMutations(p, effects).(responses := p.responses + [Done(sender, rid)])
    case SubscribeRequest(rid, sid) =>
      var n := p.node.(sids := p.node.sids[sid := sender]);
      var head := p.responses + [Done(sender, rid)];
      p.(node := n, responses := if n.value.Some? then head + [CurrentValue(sender, sid, n.value.value)] else head)
    case UnsubscribeRequest(rid, sid) =>
      p.(node := p.node.(sids := p.node.sids - {sid}), responses := p.responses + [Done(sender, rid)])
    case ListRequest(rid, childConfigs) =>
      p.(node := p.node.(rids := p.node.rids[rid := sender]),
         responses := p.responses + [Snapshot(sender, rid, SnapshotRows(p.node, childConfigs))])
    case CloseRequest(rid) =>
      p.(node := p.node.(rids := p.node.rids - {rid}), responses := p.responses + [Done(sender, rid)])
  }

  function HandledAll(p: Progress, sender: ActorRef, rs: seq<Request>): Progress
    requires forall r <- rs :: WellFormed(r)
  {
    if rs == [] then p
    else Handled(HandledAll(p, sender, rs[..|rs| - 1]), sender, rs[|rs| - 1])
  }

  /** A message for the node: a mutator call, or an envelope of requests from one sender. */
  datatype Input = Call(mutation: Mutation) | Envelope(sender: ActorRef, requests: seq<Request>)

  predicate WellFormedInput(i: Input) {
    i.Envelope? ==> forall r <- i.requests :: WellFormed(r)
  }

  /** The node after an input, and what it sent, in the order it was sent: the reply comes last. */
  function Receive(n: Node, i: Input): (Node, seq<Outgoing>)
    requires WellFormedInput(i)
  {
    match i
    case Call(m) => Mutate(n, m)
    case Envelope(sender, requests) =>
      var p := HandledAll(Progress(n, [], []), sender, requests);
      (p.node, p.notifications + p.responses)
  }

  function Fresh(): Node {
    Node(None, map["$is" := Str("node")], map[], map[], map[], map[])
  }

  // ---- The actor ----

  class InMemoryDSANode {
    var value: Option<Val>
    var configs: map<string, Val>
    var attributes: map<string, Val>
    var children: map<string, ActorRef>
    var sids: map<int, ActorRef>
    var rids: map<int, ActorRef>
    var outbox: seq<Outgoing>

    function View(): Node
      reads this
    {
      Node(value, configs, attributes, children, sids, rids)
    }

    constructor ()
      ensures View() == Fresh() && outbox == []
    {
      value, configs, attributes, children := None, map["$is" := Str("node")], map[], map[];
      sids, rids, outbox := map[], map[], [];
    }

    method NotifyListActors(rows: seq<Row>)
      modifies this`outbox
      ensures outbox == old(outbox) + [ToListeners(rids, rows)]
    {
      outbox := outbox + [ToListeners(rids, rows)];
    }

    method NotifySubscribeActors(v: Val)
      modifies this`outbox
      ensures outbox == old(outbox) + [ToSubscribers(sids, v)]
    {
      outbox := outbox + [ToSubscribers(sids, v)];
    }

    method SetValue(v: Val)
      modifies this
      ensures (var (node, sent) := Mutate(old(View()), Mutation.SetValue(v));
               (View(), outbox) == (node, old(outbox) + sent))
    {
      value := Some(v);
      NotifySubscribeActors(v);
    }

    method AddConfigs(cs: seq<(string, Val)>)
      modifies this
      ensures (var (node, sent) := Mutate(old(View()), Mutation.AddConfigs(cs));
               (View(), outbox) == (node, old(outbox) + sent))
    {
      var cfg := Prefixed('$', cs);
      configs := AddAll(configs, cfg);
      NotifyListActors(UpsertRows(cfg));
    }

    method RemoveConfig(name: string)
      modifies this
      ensures (var (node, sent) := Mutate(old(View()), Mutation.RemoveConfig(name));
               (View(), outbox) == (node, old(outbox) + sent))
    {
      configs := configs - {name};
      NotifyListActors([Remove(name)]);
    }

    method AddAttributes(cs: seq<(string, Val)>)
      modifies this
      ensures (var (node, sent) := Mutate(old(View()), Mutation.AddAttributes(cs));
               (View(), outbox) == (node, old(outbox) + sent))
    {
      var attrs := Prefixed('@', cs);
      attributes := AddAll(attributes, attrs);
      NotifyListActors(UpsertRows(attrs));
    }

    method RemoveAttribute(name: string)
      modifies this
      ensures (var (node, sent) := Mutate(old(View()), Mutation.RemoveAttribute(name));
               (View(), outbox) == (node, old(outbox) + sent))
    {
      attributes := attributes - {name};
      NotifyListActors([Remove(name)]);
    }

    method AddChild(name: string, child: ActorRef)
      modifies this
      ensures (var (node, sent) := Mutate(old(View()), Mutation.AddChild(name, child));
               (View(), outbox) == (node, old(outbox) + sent))
    {
      children := children[name := child];
      NotifyListActors([Upsert(name, NODE_CONFIGS)]);
    }

    method RemoveChild(name: string)
      modifies this
      ensures (var (node, sent) := Mutate(old(View()), Mutation.RemoveChild(name));
               (View(), outbox) == (node, old(outbox) + sent))
    {
      children := children - {name};
      NotifyListActors([Remove(name)]);
    }

    method Perform(m: Mutation)
      modifies this
      ensures (View(), outbox) == (Mutate(old(View()), m).0, old(outbox) + Mutate(old(View()), m).1)
    {
      match m
      case SetValue(v) => SetValue(v);
      case AddConfigs(cs) => AddConfigs(cs);
      case RemoveConfig(name) => RemoveConfig(name);
      case AddAttributes(cs) => AddAttributes(cs);
      case RemoveAttribute(name) => RemoveAttribute(name);
      case AddChild(name, ref) => AddChild(name, ref);
      case RemoveChild(name) => RemoveChild(name);
    }

    /** Handles one request of an envelope: notifications go out at once, the responses are returned. */
    method HandleRequest(sender: ActorRef, r: Request, ghost p: Progress) returns (responses: seq<Outgoing>)
      requires WellFormed(r) && View() == p.node
      modifies this
      ensures View() == Handled(p, sender, r).node
      ensures old(outbox) <= outbox
      ensures Handled(p, sender, r).notifications == p.notifications + outbox[|old(outbox)|..]
      ensures Handled(p, sender, r).responses == p.responses + responses
    {
      match r
      case SetRequest(rid, path, v) =>
        var name := LastSegment(path).value;
        if IsConfigName(name) {
          AddConfigs([(name, v)]);
        } else if IsAttributeName(name) {
          AddAttributes([(name, v)]);
        } else {
          SetValue(v);
        }
        responses := [Done(sender, rid)];
      case RemoveRequest(rid, path) =>
        var name := LastSegment(path).value;
        if IsConfigName(name) {
          RemoveConfig(name);
        } else if IsAttributeName(name) {
          RemoveAttribute(name);
        }
        responses := [Done(sender, rid)];
      case InvokeRequest(rid, effects) =>
        for i := 0 to |effects|
          invariant old(outbox) <= outbox
          invariant View() == WithMutations(p, effects[..i]).node
          invariant WithMutations(p, effects[..i]).notifications == p.notifications + outbox[|old(outbox)|..]
        {
          assert effects[..i + 1][..i] == effects[..i];
          Perform(effects[i]);
        }
        assert effects[..|effects|] == effects;
        responses := [Done(sender, rid)];
      case SubscribeRequest(rid, sid) =>
        sids := sids[sid := sender];
        responses := [Done(sender, rid)];
        if value.Some? {
          responses := responses + [CurrentValue(sender, sid, value.value)];
        }
      case UnsubscribeRequest(rid, sid) =>
        sids := sids - {sid};
        responses := [Done(sender, rid)];
      case ListRequest(rid, childConfigs) =>
        responses := [Snapshot(sender, rid, SnapshotRows(View(), childConfigs))];
        rids := rids[rid := sender];
      case CloseRequest(rid) =>
        rids := rids - {rid};
        responses := [Done(sender, rid)];
    }

    /** Handles an envelope: the reply with all responses leaves after the last request was handled. */
    method OnReceive(sender: ActorRef, requests: seq<Request>)
      requires forall r <- requests :: WellFormed(r)
      modifies this
      ensures View() == Receive(old(View()), Envelope(sender, requests)).0
      ensures outbox == old(outbox) + Receive(old(View()), Envelope(sender, requests)).1
    {
      var responses := [];
      ghost var p := Progress(View(), [], []);
      for i := 0 to |requests|
        invariant old(outbox) <= outbox
        invariant p == HandledAll(Progress(old(View()), [], []), sender, requests[..i])
        invariant p == Progress(View(), outbox[|old(outbox)|..], responses)
      {
        assert requests[..i + 1][..i] == requests[..i];
        var rs := HandleRequest(sender, requests[i], p);
        p := Handled(p, sender, requests[i]);
        responses := responses + rs;
      }
      assert requests[..|requests|] == requests;
      outbox := outbox + responses;
    }
  }

  method AddAll(m: map<string, Val>, pairs: seq<(string, Val)>) returns (r: map<string, Val>)
    ensures r == Added(m, pairs)
  {
    r := m;
    for i := 0 to |pairs|
      invariant r == Added(m, pairs[..i])
    {
      assert pairs[..i + 1][..i] == pairs[..i];
      r := r[pairs[i].0 := pairs[i].1];
    }
    assert pairs[..|pairs|] == pairs;
  }
}

/**
 What an in-memory node holds, and whom it keeps registered, said from its inputs alone: the latest one that is about
 the value, a name, a RID or a SID decides.
 */
module InMemoryHistory {
  import opened Collections
  import opened Dsa
  import opened Paths
  import opened InMemoryNode
  import opened InMemoryStreams

  datatype ValSlot = TheValue | TheConfig(name: string) | TheAttribute(name: string)

  datatype RefSlot = TheChild(name: string) | TheListener(rid: int) | TheSubscriber(sid: int)

  function Lookup<K, V>(m: map<K, V>, k: K): Option<V> {
    if k in m then Some(m[k]) else None
  }

  function ValAt(n: Node, slot: ValSlot): Option<Val> {
    match slot
    case TheValue => n.value
    case TheConfig(name) => Lookup(n.configs, name)
    case TheAttribute(name) => Lookup(n.attributes, name)
  }

  function RefAt(n: Node, slot: RefSlot): Option<ActorRef> {
    match slot
    case TheChild(name) => Lookup(n.children, name)
    case TheListener(rid) => Lookup(n.rids, rid)
    case TheSubscriber(sid) => Lookup(n.sids, sid)
  }

  // ---- Mutator calls ----

  /** The last of the pairs with this name, once prefixed. */
  function LatestPair(prefix: char, pairs: seq<(string, Val)>, name: string, before: Option<Val>): Option<Val> {
    if pairs == [] then before
    else
      var last := pairs[|pairs| - 1];
      if WithPrefix(prefix, last.0) == name then Some(last.1)
      else LatestPair(prefix, pairs[..|pairs| - 1], name, before)
  }

  function ValAfterCall(slot: ValSlot, m: Mutation, before: Option<Val>): Option<Val> {
    match slot
    case TheValue => if m.SetValue? then Some(m.value) else before
    case TheConfig(name) =>
      if m.AddConfigs? then LatestPair('$', m.configs, name, before)
      else if m == RemoveConfig(name) then None else before
    case TheAttribute(name) =>
      if m.AddAttributes? then LatestPair('@', m.attributes, name, before)
      else if m == RemoveAttribute(name) then None else before
  }

  function RefAfterCall(slot: RefSlot, m: Mutation, before: Option<ActorRef>): Option<ActorRef> {
    match slot
    case TheChild(name) =>
      if m.AddChild? && m.name == name then Some(m.ref) else if m == RemoveChild(name) then None else before
    case _ => before
  }

  function ValAfterCalls(slot: ValSlot, ms: seq<Mutation>, before: Option<Val>): Option<Val> {
    if ms == [] then before
    else ValAfterCall(slot, ms[|ms| - 1], ValAfterCalls(slot, ms[..|ms| - 1], before))
  }

  function RefAfterCalls(slot: RefSlot, ms: seq<Mutation>, before: Option<ActorRef>): Option<ActorRef> {
    if ms == [] then before
    else RefAfterCall(slot, ms[|ms| - 1], RefAfterCalls(slot, ms[..|ms| - 1], before))
  }

  lemma {:induction false} AddedAt(m: map<string, Val>, prefix: char, pairs: seq<(string, Val)>, name: string)
    ensures Lookup(Added(m, Prefixed(prefix, pairs)), name) == LatestPair(prefix, pairs, name, Lookup(m, name))
  {
    if pairs != [] {
      AddedAt(m, prefix, pairs[..|pairs| - 1], name);
      assert Prefixed(prefix, pairs)[..|pairs| - 1] == Prefixed(prefix, pairs[..|pairs| - 1]);
    }
  }

  lemma CallAt(n: Node, m: Mutation, v: ValSlot, r: RefSlot)
    ensures ValAt(Mutate(n, m).0, v) == ValAfterCall(v, m, ValAt(n, v))
    ensures RefAt(Mutate(n, m).0, r) == RefAfterCall(r, m, RefAt(n, r))
  {
    if m.AddConfigs? && v.TheConfig? {
      AddedAt(n.configs, '$', m.configs, v.name);
    } else if m.AddAttributes? && v.TheAttribute? {
      AddedAt(n.attributes, '@', m.attributes, v.name);
    }
  }

  lemma {:induction false} CallsAt(p: Progress, ms: seq<Mutation>, v: ValSlot, r: RefSlot)
    ensures ValAt(WithMutations(p, ms).node, v) == ValAfterCalls(v, ms, ValAt(p.node, v))
    ensures RefAt(WithMutations(p, ms).node, r) == RefAfterCalls(r, ms, RefAt(p.node, r))
  {
    if ms != [] {
      CallsAt(p, ms[..|ms| - 1], v, r);
      CallAt(WithMutations(p, ms[..|ms| - 1]).node, ms[|ms| - 1], v, r);
    }
  }

  // ---- Requests ----

  /** The name that a SET or REMOVE is about. */
  predicate Names(path: string, name: string) {
    LastSegment(path) == Some(name)
  }

  /** A SET of a path whose last name has no prefix sets the value. */
  predicate NamesValue(path: string) {
    LastSegment(path).Some? && IsChildName(LastSegment(path).value)
  }

  function ValAfterRequest(slot: ValSlot, r: Request, before: Option<Val>): Option<Val> {
    match r
    case SetRequest(_, path, value) =>
      if slot.TheValue? then (if NamesValue(path) then Some(value) else before)
      else if SlotNamed(slot, path) then Some(value) else before
    case RemoveRequest(_, path) => if !slot.TheValue? && SlotNamed(slot, path) then None else before
    case InvokeRequest(_, effects) => ValAfterCalls(slot, effects, before)
    case _ => before
  }

  /** The path ends in the slot's name, and that is one of its kind. */
  predicate SlotNamed(slot: ValSlot, path: string) {
    match slot
    case TheValue => false
    case TheConfig(name) => IsConfigName(name) && Names(path, name)
    case TheAttribute(name) => IsAttributeName(name) && Names(path, name)
  }

  function RefAfterRequest(slot: RefSlot, sender: ActorRef, r: Request, before: Option<ActorRef>): Option<ActorRef> {
    match r
    case InvokeRequest(_, effects) => RefAfterCalls(slot, effects, before)
    case ListRequest(rid, _) => if slot == TheListener(rid) then Some(sender) else before
    case CloseRequest(rid) => if slot == TheListener(rid) then None else before
    case SubscribeRequest(_, sid) => if slot == TheSubscriber(sid) then Some(sender) else before
    case UnsubscribeRequest(_, sid) => if slot == TheSubscriber(sid) then None else before
    case _ => before
  }

  function ValAfterRequests(slot: ValSlot, rs: seq<Request>, before: Option<Val>): Option<Val> {
    if rs == [] then before
    else ValAfterRequest(slot, rs[|rs| - 1], ValAfterRequests(slot, rs[..|rs| - 1], before))
  }

  function RefAfterRequests(slot: RefSlot, sender: ActorRef, rs: seq<Request>, before: Option<ActorRef>)
    : Option<ActorRef>
  {
    if rs == [] then before
    else RefAfterRequest(slot, sender, rs[|rs| - 1], RefAfterRequests(slot, sender, rs[..|rs| - 1], before))
  }

  lemma SetOrRemoveAt(n: Node, r: Request, v: ValSlot, s: RefSlot)
    requires WellFormed(r) && (r.SetRequest? || r.RemoveRequest?)
    ensures var m := MutationOf(r, LastSegment(r.path).value);
            var after := if m.Some? then Mutate(n, m.value).0 else n;
            ValAt(after, v) == ValAfterRequest(v, r, ValAt(n, v)) && RefAt(after, s) == RefAt(n, s)
  {
    var m := MutationOf(r, LastSegment(r.path).value);
    if m.Some? {
      CallAt(n, m.value, v, s);
      if r.SetRequest? && v.TheConfig? {
        OnePair('$', LastSegment(r.path).value, r.value, v.name, ValAt(n, v));
      } else if r.SetRequest? && v.TheAttribute? {
        OnePair('@', LastSegment(r.path).value, r.value, v.name, ValAt(n, v));
      }
    }
  }

  lemma OnePair(prefix: char, name: string, value: Val, asked: string, before: Option<Val>)
    ensures LatestPair(prefix, [(name, value)], asked, before)
            == if WithPrefix(prefix, name) == asked then Some(value) else before
  {
    assert [(name, value)][..0] == [];
  }

  lemma RequestAt(p: Progress, sender: ActorRef, r: Request, v: ValSlot, s: RefSlot)
    requires WellFormed(r)
    ensures ValAt(Handled(p, sender, r).node, v) == ValAfterRequest(v, r, ValAt(p.node, v))
    ensures RefAt(Handled(p, sender, r).node, s) == RefAfterRequest(s, sender, r, RefAt(p.node, s))
  {
    if r.SetRequest? || r.RemoveRequest? {
      SetOrRemoveAt(p.node, r, v, s);
    } else if r.InvokeRequest? {
      CallsAt(p, r.effects, v, s);
    }
  }

  lemma {:induction false} RequestsAt(p: Progress, sender: ActorRef, rs: seq<Request>, v: ValSlot, s: RefSlot)
    requires forall r <- rs :: WellFormed(r)
    ensures ValAt(HandledAll(p, sender, rs).node, v) == ValAfterRequests(v, rs, ValAt(p.node, v))
    ensures RefAt(HandledAll(p, sender, rs).node, s) == RefAfterRequests(s, sender, rs, RefAt(p.node, s))
  {
    if rs != [] {
      RequestsAt(p, sender, rs[..|rs| - 1], v, s);
      RequestAt(HandledAll(p, sender, rs[..|rs| - 1]), sender, rs[|rs| - 1], v, s);
    }
  }

  // ---- Whole runs ----

  function NodeAfter(inputs: seq<Input>): Node
    requires forall i <- inputs :: WellFormedInput(i)
  {
    if inputs == [] then Fresh() else Receive(NodeAfter(inputs[..|inputs| - 1]), inputs[|inputs| - 1]).0
  }

  /** What the inputs say of a slot: at first "$is" is "node", and there is nothing else. */
  function ValFrom(slot: ValSlot, inputs: seq<Input>): Option<Val> {
    if inputs == [] then (if slot == TheConfig("$is") then Some(Str("node")) else None)
    else
      var before := ValFrom(slot, inputs[..|inputs| - 1]);
      match inputs[|inputs| - 1]
      case Call(m) => ValAfterCall(slot, m, before)
      case Envelope(_, rs) => ValAfterRequests(slot, rs, before)
  }

  function RefFrom(slot: RefSlot, inputs: seq<Input>): Option<ActorRef> {
    if inputs == [] then None
    else
      var before := RefFrom(slot, inputs[..|inputs| - 1]);
      match inputs[|inputs| - 1]
      case Call(m) => RefAfterCall(slot, m, before)
      case Envelope(sender, rs) => RefAfterRequests(slot, sender, rs, before)
  }

  /**
   After every run of mutator calls and envelopes the node holds, as value and under every config, attribute and
   child name, what the latest input about it says; and a RID or a SID is registered, for whom, exactly if the
   latest request about it was a LIST, or a SUBSCRIBE, of that sender.
   */
  lemma {:induction false} NodeIsLatestInputs(inputs: seq<Input>, v: ValSlot, s: RefSlot)
    requires forall i <- inputs :: WellFormedInput(i)
    ensures ValAt(NodeAfter(inputs), v) == ValFrom(v, inputs) && RefAt(NodeAfter(inputs), s) == RefFrom(s, inputs)
  {
    if inputs != [] {
      var past, i := inputs[..|inputs| - 1], inputs[|inputs| - 1];
      NodeIsLatestInputs(past, v, s);
      assert WellFormedInput(i);
      match i
      case Call(m) => CallAt(NodeAfter(past), m, v, s);
      case Envelope(sender, rs) => RequestsAt(Progress(NodeAfter(past), [], []), sender, rs, v, s);
    }
  }

  /** The runs of the stream results are of this kind. */
  lemma {:induction false} StreamsRunIsNode(c: Client, inputs: seq<Input>)
    requires forall i <- inputs :: GoodInput(i)
    ensures forall i <- inputs :: WellFormedInput(i)
    ensures Run(c, inputs).0 == NodeAfter(inputs)
  {
    forall i <- inputs ensures WellFormedInput(i) {
      assert GoodInput(i);
    }
    if inputs != [] {
      StreamsRunIsNode(c, inputs[..|inputs| - 1]);
    }
  }
}

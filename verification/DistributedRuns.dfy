/**
 Runs of a whole cluster: nodes issue edits, replicators apply them and gossip their states in any
 order with any repetition, and nodes are told of the states of their own replicator in order.
 */
module DistributedRuns {
  import opened Collections
  import opened ReplicatedState
  import opened DistributedNode
  import opened DistributedNodeActor

  /** A replicated state, with the writes it has absorbed. */
  datatype Snapshot = Snapshot(state: NodeState, writes: set<Write>)

  /** What a replicator sends to its node: the answer to the initial read, or a change. */
  datatype Message = Reply(store: Option<Snapshot>) | Change(snapshot: Snapshot)

  datatype Replica = Replica(
    initial: NodeData,
    node: Node,
    applied: nat,
    store: Option<Snapshot>,
    inbox: seq<Message>,
    told: Option<Snapshot>)

  datatype System = System(replicas: map<nat, Replica>, published: set<Snapshot>, writes: set<Write>)

  datatype Action =
    | Mutate(at: nat, mutation: Mutation, now: nat)
    | Apply(at: nat, now: nat)
    | Read(at: nat)
    | Announce(at: nat)
    | Deliver(at: nat)
    | Gossip(at: nat)
    | Receive(at: nat, snapshot: Snapshot)

  function Start(nodes: map<nat, NodeData>): System {
    System(map i | i in nodes :: Replica(nodes[i], Fresh(nodes[i]), 0, None, [], None), {}, {})
  }

  function WriteOf(s: NodeState, slot: Slot): Write
    requires HasSlot(s, slot)
  {
    Write(slot, EntryAt(s, slot))
  }

  function EmptySnapshot(writer: nat, now: nat): Snapshot {
    Snapshot(Empty(writer, now), {WriteOf(Empty(writer, now), ValueSlot)})
  }

  /** Applies the writes of an edit, recording them as absorbed. */
  function ApplyToSnapshot(s: Snapshot, puts: seq<Put>, writer: nat, now: nat): (r: Snapshot)
    ensures r.state == ApplyPuts(s.state, puts, writer, now)
  {
    if puts == [] then s
    else
      var past, p := ApplyToSnapshot(s, puts[..|puts| - 1], writer, now), puts[|puts| - 1];
      PutAt(past.state, p, writer, now);
      var state := ApplyPut(past.state, p, writer, now);
      Snapshot(state, past.writes + {WriteOf(state, SlotOf(p))})
  }

  function MergeSnapshots(a: Option<Snapshot>, b: Snapshot): Snapshot {
    if a.None? then b else Snapshot(Merge(a.value.state, b.state), a.value.writes + b.writes)
  }

  function HandleMessage(r: Replica, m: Message): Replica {
    match m
    case Reply(None) => r.(node := Handle(r.node, NotFound))
    case Reply(Some(s)) => r.(node := Handle(r.node, GetSuccess(s.state)), told := Some(s))
    case Change(s) => r.(node := Handle(r.node, Changed(s.state)), told := Some(s))
  }

  /** The replicator applies the next update its node sent, starting from nothing if it has no state. */
  function ApplyNext(r: Replica, at: nat, now: nat): Replica
    requires r.applied < |r.node.sent|
  {
    var edit := r.node.sent[r.applied];
    var base := if r.store.Some? then r.store.value else EmptySnapshot(at, edit.issuedAt);
    r.(applied := r.applied + 1, store := Some(ApplyToSnapshot(base, edit.puts, at, now)))
  }

  function StepReplica(published: set<Snapshot>, r: Replica, a: Action): Replica {
    match a
    case Mutate(_, m, now) => r.(node := Handle(r.node, Issued(Edit(PutsOf(m), now))))
    case Apply(at, now) => if r.applied < |r.node.sent| then ApplyNext(r, at, now) else r
    case Read(_) => r.(inbox := r.inbox + [Reply(r.store)])
    case Announce(_) => if r.store.Some? then r.(inbox := r.inbox + [Change(r.store.value)]) else r
    case Deliver(_) => if r.inbox == [] then r else HandleMessage(r, r.inbox[0]).(inbox := r.inbox[1..])
    case Gossip(_) => r
    case Receive(_, s) => if s in published then r.(store := Some(MergeSnapshots(r.store, s))) else r
  }

  /** The system after one replica changed; the writes in its store are the only new ones. */
  function Replace(sys: System, at: nat, r: Replica): System {
    System(sys.replicas[at := r], sys.published,
           if r.store.Some? then sys.writes + r.store.value.writes else sys.writes)
  }

  function Step(sys: System, a: Action): System {
    if a.at !in sys.replicas then sys
    else
      var r := sys.replicas[a.at];
      if a.Gossip? then
        if r.store.Some? then sys.(published := sys.published + {r.store.value}) else sys
      else
        Replace(sys, a.at, StepReplica(sys.published, r, a))
  }

  function Run(nodes: map<nat, NodeData>, actions: seq<Action>): System {
    if actions == [] then Start(nodes)
    else Step(Run(nodes, actions[..|actions| - 1]), actions[|actions| - 1])
  }

  // ---- The invariant ----

  /** The snapshot's state is the outcome of its writes, all of which were made in the run. */
  ghost predicate Sound(s: Snapshot, writes: set<Write>) {
    Absorbed(s.state, s.writes) && s.writes <= writes
  }

  ghost predicate SoundOption(s: Option<Snapshot>, writes: set<Write>) {
    s.Some? ==> Sound(s.value, writes)
  }

  predicate Below(a: Option<Snapshot>, b: Option<Snapshot>) {
    a.Some? ==> b.Some? && a.value.writes <= b.value.writes
  }

  function Carried(m: Message): Option<Snapshot> {
    match m
    case Reply(s) => s
    case Change(s) => Some(s)
  }

  /** The states a node is still to be told of grow from what it knows to what its replicator has. */
  ghost predicate Chain(low: Option<Snapshot>, inbox: seq<Message>, high: Option<Snapshot>)
    decreases |inbox|
  {
    if inbox == [] then Below(low, high)
    else
      var carried := Carried(inbox[0]);
      if carried.None? then Chain(low, inbox[1..], high)
      else Below(low, carried) && Chain(carried, inbox[1..], high)
  }

  ghost predicate ReplicaOk(r: Replica, writes: set<Write>) {
    && SoundOption(r.store, writes)
    && SoundOption(r.told, writes)
    && (forall m <- r.inbox :: SoundOption(Carried(m), writes))
    && Chain(r.told, r.inbox, r.store)
    && r.node.data == if r.told.Some? then Overwrite(r.initial, r.told.value.state) else r.initial
  }

  /** A replica has absorbed all of its own writes. */
  ghost predicate OwnWrites(sys: System) {
    forall w <- sys.writes ::
      && w.entry.writer in sys.replicas
      && sys.replicas[w.entry.writer].store.Some?
      && w in sys.replicas[w.entry.writer].store.value.writes
  }

  ghost predicate Inv(sys: System) {
    && Coherent(sys.writes)
    && OwnWrites(sys)
    && (forall i <- sys.replicas :: ReplicaOk(sys.replicas[i], sys.writes))
    && (forall s <- sys.published :: Sound(s, sys.writes))
  }

  lemma {:induction false} ChainTo(low: Option<Snapshot>, inbox: seq<Message>, high: Option<Snapshot>,
                                   higher: Option<Snapshot>)
    requires Chain(low, inbox, high) && Below(high, higher)
    ensures Chain(low, inbox, higher)
    decreases |inbox|
  {
    if inbox != [] {
      var carried := Carried(inbox[0]);
      ChainTo(if carried.None? then low else carried, inbox[1..], high, higher);
    }
  }

  lemma {:induction false} ChainAppend(low: Option<Snapshot>, inbox: seq<Message>, high: Option<Snapshot>, m: Message)
    requires Chain(low, inbox, high) && Carried(m) == high
    ensures Chain(low, inbox + [m], high)
    decreases |inbox|
  {
    if inbox == [] {
      assert Chain(low, [m], high);
    } else {
      var carried := Carried(inbox[0]);
      ChainAppend(if carried.None? then low else carried, inbox[1..], high, m);
      assert (inbox + [m])[1..] == inbox[1..] + [m];
    }
  }

  /** The new writes of an edit are newer than any earlier write of the same writer, so the stamps stay unique. */
  lemma {:induction false} ApplyKeepsSound(s: Snapshot, all: set<Write>, puts: seq<Put>, writer: nat, now: nat)
    requires Sound(s, all) && Coherent(all)
    requires forall w <- all :: w.entry.writer == writer ==> w in s.writes
    ensures var t := ApplyToSnapshot(s, puts, writer, now);
            && Absorbed(t.state, t.writes) && s.writes <= t.writes
            && Coherent(all + t.writes)
            && (forall w <- all + t.writes :: w.entry.writer == writer ==> w in t.writes)
            && (forall w <- t.writes :: w in s.writes || w.entry.writer == writer)
  {
    if puts == [] {
      assert all + s.writes == all;
    } else {
      var past, p := ApplyToSnapshot(s, puts[..|puts| - 1], writer, now), puts[|puts| - 1];
      ApplyKeepsSound(s, all, puts[..|puts| - 1], writer, now);
      PutAbsorbs(past.state, past.writes, p, writer, now);
      var state := ApplyPut(past.state, p, writer, now);
      AddWrite(all + past.writes, past.writes, WriteOf(state, SlotOf(p)), writer);
      assert all + (past.writes + {WriteOf(state, SlotOf(p))}) == all + past.writes + {WriteOf(state, SlotOf(p))};
    }
  }

  lemma AddWrite(all: set<Write>, own: set<Write>, w: Write, writer: nat)
    requires Coherent(all) && w.entry.writer == writer
    requires forall v <- all :: v.entry.writer == writer ==> v in own
    requires forall v <- own :: v.slot == w.slot ==> v.entry.time < w.entry.time
    ensures Coherent(all + {w})
  {}

  lemma SoundGrows(r: Replica, writes: set<Write>, more: set<Write>)
    requires ReplicaOk(r, writes) && writes <= more
    ensures ReplicaOk(r, more)
  {}

  lemma StoreUpdate(r: Replica, r': Replica, writes: set<Write>)
    requires ReplicaOk(r, writes)
    requires r' == r.(store := r'.store, applied := r'.applied)
    requires SoundOption(r'.store, writes) && Below(r.store, r'.store)
    ensures ReplicaOk(r', writes)
  {
    ChainTo(r.told, r.inbox, r.store, r'.store);
  }

  lemma MessageQueued(r: Replica, m: Message, writes: set<Write>)
    requires ReplicaOk(r, writes) && Carried(m) == r.store
    ensures ReplicaOk(r.(inbox := r.inbox + [m]), writes)
  {
    ChainAppend(r.told, r.inbox, r.store, m);
  }

  lemma NodeDataKept(r: Replica, node: Node, writes: set<Write>)
    requires ReplicaOk(r, writes) && node.data == r.node.data
    ensures ReplicaOk(r.(node := node), writes)
  {}

  lemma GrowsWithWrites(a: Snapshot, b: Snapshot, writes: set<Write>)
    requires Sound(a, writes) && Sound(b, writes) && a.writes <= b.writes
    ensures Grows(a.state, b.state)
  {
    MoreWritesMoreSlots(a.state, a.writes, b.state, b.writes);
    SlotsGrow(a.state, b.state);
  }

  lemma SlotsGrow(a: NodeState, b: NodeState)
    requires forall slot | HasSlot(a, slot) :: HasSlot(b, slot)
    ensures Grows(a, b)
  {
    forall k <- a.configs ensures k in b.configs { assert HasSlot(a, ConfigSlot(k)); }
    forall k <- a.attributes ensures k in b.attributes { assert HasSlot(a, AttributeSlot(k)); }
    forall k <- a.subscriptions ensures k in b.subscriptions { assert HasSlot(a, SubscriptionSlot(k)); }
    forall k <- a.listSubscriptions ensures k in b.listSubscriptions { assert HasSlot(a, ListenerSlot(k)); }
    forall k <- a.children ensures k in b.children { assert HasSlot(a, ChildSlot(k)); }
  }

  lemma MessageHandled(r: Replica, writes: set<Write>)
    requires ReplicaOk(r, writes) && r.inbox != []
    ensures ReplicaOk(HandleMessage(r, r.inbox[0]).(inbox := r.inbox[1..]), writes)
  {
    var m := r.inbox[0];
    assert SoundOption(Carried(m), writes);
    if r.told.Some? && Carried(m).Some? {
      GrowsWithWrites(r.told.value, Carried(m).value, writes);
      LatestStateWins(r.initial, r.told.value.state, Carried(m).value.state);
    }
  }

  /** A replica whose store stays as it is adds no writes. */
  lemma SameStore(sys: System, at: nat, r': Replica)
    requires Inv(sys) && at in sys.replicas
    requires r'.store == sys.replicas[at].store && ReplicaOk(r', sys.writes)
    ensures Inv(Replace(sys, at, r'))
  {
    assert ReplicaOk(sys.replicas[at], sys.writes);
    SameWrites(sys, at, r');
    var next := Replace(sys, at, r');
    forall i <- next.replicas ensures ReplicaOk(next.replicas[i], next.writes) {
      if i != at {
        assert ReplicaOk(sys.replicas[i], sys.writes);
      }
    }
  }

  lemma SameWrites(sys: System, at: nat, r': Replica)
    requires OwnWrites(sys) && at in sys.replicas && SoundOption(r'.store, sys.writes)
    requires r'.store == sys.replicas[at].store
    ensures Replace(sys, at, r').writes == sys.writes && OwnWrites(Replace(sys, at, r'))
  {}

  lemma NewStore(sys: System, at: nat, r': Replica, s: Snapshot)
    requires Inv(sys) && at in sys.replicas
    requires var r := sys.replicas[at]; r' == r.(store := Some(s), applied := r'.applied) && Below(r.store, Some(s))
    requires Absorbed(s.state, s.writes) && Coherent(sys.writes + s.writes)
    requires forall w <- s.writes :: w in sys.writes || w.entry.writer == at
    requires forall w <- sys.writes :: w.entry.writer == at ==> w in s.writes
    ensures Inv(Replace(sys, at, r'))
  {
    var more := sys.writes + s.writes;
    forall i <- sys.replicas ensures ReplicaOk(sys.replicas[i], more) {
      SoundGrows(sys.replicas[i], sys.writes, more);
    }
    StoreUpdate(sys.replicas[at], r', more);
    var next := Replace(sys, at, r');
    assert forall i <- next.replicas :: ReplicaOk(next.replicas[i], more);
    assert forall p <- sys.published :: Sound(p, more);
    OwnWritesKept(sys, at, r', s);
  }

  lemma OwnWritesKept(sys: System, at: nat, r': Replica, s: Snapshot)
    requires OwnWrites(sys) && at in sys.replicas && r'.store == Some(s)
    requires forall w <- s.writes :: w in sys.writes || w.entry.writer == at
    requires forall w <- sys.writes :: w.entry.writer == at ==> w in s.writes
    ensures OwnWrites(Replace(sys, at, r'))
  {}

  /** The state a replicator applies its first update to: a None value that is a write of its own. */
  lemma FreshBase(sys: System, at: nat, now: nat)
    requires Inv(sys) && at in sys.replicas && sys.replicas[at].store.None?
    ensures var e := EmptySnapshot(at, now);
            Sound(e, sys.writes + e.writes) && Coherent(sys.writes + e.writes)
            && (forall w <- sys.writes + e.writes :: w.entry.writer == at ==> w in e.writes)
            && (forall w <- e.writes :: w.entry.writer == at)
  {
    EmptyAbsorbs(at, now);
    AddWrite(sys.writes, {}, WriteOf(Empty(at, now), ValueSlot), at);
  }

  lemma ApplyStep(sys: System, at: nat, now: nat)
    requires Inv(sys) && at in sys.replicas && sys.replicas[at].applied < |sys.replicas[at].node.sent|
    ensures Inv(Replace(sys, at, ApplyNext(sys.replicas[at], at, now)))
  {
    var r := sys.replicas[at];
    assert ReplicaOk(r, sys.writes);
    var edit := r.node.sent[r.applied];
    var base := if r.store.Some? then r.store.value else EmptySnapshot(at, edit.issuedAt);
    if r.store.None? {
      FreshBase(sys, at, edit.issuedAt);
    } else {
      assert sys.writes + base.writes == sys.writes;
    }
    ApplyKeepsSound(base, sys.writes + base.writes, edit.puts, at, now);
    var s := ApplyToSnapshot(base, edit.puts, at, now);
    assert sys.writes + base.writes + s.writes == sys.writes + s.writes;
    NewStore(sys, at, ApplyNext(r, at, now), s);
  }

  lemma ReceiveStep(sys: System, at: nat, s: Snapshot)
    requires Inv(sys) && at in sys.replicas && s in sys.published
    ensures Inv(Replace(sys, at, sys.replicas[at].(store := Some(MergeSnapshots(sys.replicas[at].store, s)))))
  {
    var r := sys.replicas[at];
    assert ReplicaOk(r, sys.writes);
    var merged := MergeSnapshots(r.store, s);
    if r.store.Some? {
      assert Coherent(r.store.value.writes + s.writes);
      MergeAbsorbs(r.store.value.state, r.store.value.writes, s.state, s.writes);
    }
    assert sys.writes + merged.writes == sys.writes;
    NewStore(sys, at, r.(store := Some(merged)), merged);
  }

  /** Every step keeps the invariant. */
  lemma StepKeepsInv(sys: System, a: Action)
    requires Inv(sys)
    ensures Inv(Step(sys, a))
  {
    if a.at in sys.replicas {
      var r := sys.replicas[a.at];
      assert ReplicaOk(r, sys.writes);
      if a.Mutate? {
        NodeDataKept(r, Handle(r.node, Issued(Edit(PutsOf(a.mutation), a.now))), sys.writes);
      } else if a.Read? {
        MessageQueued(r, Reply(r.store), sys.writes);
      } else if a.Announce? && r.store.Some? {
        MessageQueued(r, Change(r.store.value), sys.writes);
      } else if a.Deliver? && r.inbox != [] {
        MessageHandled(r, sys.writes);
      }
      if a.Apply? && r.applied < |r.node.sent| {
        ApplyStep(sys, a.at, a.now);
      } else if a.Receive? && a.snapshot in sys.published {
        ReceiveStep(sys, a.at, a.snapshot);
      } else if !a.Gossip? {
        SameStore(sys, a.at, StepReplica(sys.published, r, a));
      }
    }
  }

  lemma StartInv(nodes: map<nat, NodeData>)
    ensures Inv(Start(nodes))
  {}

  lemma StepKeepsNodes(sys: System, a: Action)
    ensures Step(sys, a).replicas.Keys == sys.replicas.Keys
    ensures forall i <- sys.replicas :: Step(sys, a).replicas[i].initial == sys.replicas[i].initial
  {}

  lemma {:induction false} RunKeepsInv(nodes: map<nat, NodeData>, actions: seq<Action>)
    ensures Inv(Run(nodes, actions)) && Run(nodes, actions).replicas.Keys == nodes.Keys
    ensures forall i <- nodes :: Run(nodes, actions).replicas[i].initial == nodes[i]
  {
    if actions == [] {
      StartInv(nodes);
    } else {
      RunKeepsInv(nodes, actions[..|actions| - 1]);
      StepKeepsInv(Run(nodes, actions[..|actions| - 1]), actions[|actions| - 1]);
      StepKeepsNodes(Run(nodes, actions[..|actions| - 1]), actions[|actions| - 1]);
    }
  }

  // ---- The results ----

  /**
   Strong eventual consistency: in every run, two replicas that absorbed the same writes hold the same
   state; and two nodes with the same description that were told of the same writes hold the same data.
   */
  lemma StrongEventualConsistency(nodes: map<nat, NodeData>, actions: seq<Action>, i: nat, j: nat)
    requires i in nodes && j in nodes
    ensures var sys := Run(nodes, actions);
            && i in sys.replicas && j in sys.replicas
            && var a, b := sys.replicas[i], sys.replicas[j];
            && (a.store.Some? && b.store.Some? && a.store.value.writes == b.store.value.writes ==>
                  a.store.value.state == b.store.value.state)
            && (a.told.Some? && b.told.Some? && a.told.value.writes == b.told.value.writes && nodes[i] == nodes[j] ==>
                  a.node.data == b.node.data)
  {
    RunKeepsInv(nodes, actions);
    var sys := Run(nodes, actions);
    var a, b := sys.replicas[i], sys.replicas[j];
    assert ReplicaOk(a, sys.writes) && ReplicaOk(b, sys.writes);
    if a.store.Some? && b.store.Some? && a.store.value.writes == b.store.value.writes {
      SameWritesSameState(a.store.value.state, b.store.value.state, a.store.value.writes);
    }
    if a.told.Some? && b.told.Some? && a.told.value.writes == b.told.value.writes {
      SameWritesSameState(a.told.value.state, b.told.value.state, a.told.value.writes);
    }
  }

  /**
   In every run a node's data is its initial description overwritten by the latest state it was told of:
   earlier states leave no trace.
   */
  lemma DataIsInitialOverwritten(nodes: map<nat, NodeData>, actions: seq<Action>, i: nat)
    requires i in nodes
    ensures i in Run(nodes, actions).replicas
    ensures var r := Run(nodes, actions).replicas[i];
            r.node.data == if r.told.Some? then Overwrite(nodes[i], r.told.value.state) else nodes[i]
  {
    RunKeepsInv(nodes, actions);
    assert ReplicaOk(Run(nodes, actions).replicas[i], Run(nodes, actions).writes);
  }
}

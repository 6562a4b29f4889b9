/** Where the writes in a run of the cluster come from: what every mutator call keeps to, every write keeps to. */
module DistributedWrites {
  import opened Collections
  import opened Dsa
  import opened ReplicatedState
  import opened DistributedNode
  import opened DistributedNodeActor
  import opened DistributedRuns

  /** Which contents may be written to which slots. */
  type Rule = (Slot, Content) -> bool

  ghost predicate PutsKeep(rule: Rule, puts: seq<Put>) {
    forall p <- puts :: rule(SlotOf(p), ContentOf(p))
  }

  ghost predicate EditsKeep(rule: Rule, edits: seq<Edit>) {
    forall e <- edits :: PutsKeep(rule, e.puts)
  }

  ghost predicate WritesKeep(rule: Rule, writes: set<Write>) {
    forall w <- writes :: rule(w.slot, w.entry.value)
  }

  ghost predicate NodeKeeps(rule: Rule, n: Node) {
    EditsKeep(rule, n.sent) && EditsKeep(rule, n.stash)
  }

  ghost predicate SystemKeeps(rule: Rule, sys: System) {
    && WritesKeep(rule, sys.writes)
    && forall i <- sys.replicas :: NodeKeeps(rule, sys.replicas[i].node)
  }

  ghost predicate MutationsKeep(rule: Rule, actions: seq<Action>) {
    forall a <- actions :: a.Mutate? ==> PutsKeep(rule, PutsOf(a.mutation))
  }

  lemma {:induction false} ApplyKeeps(rule: Rule, s: Snapshot, puts: seq<Put>, writer: nat, now: nat)
    requires WritesKeep(rule, s.writes) && PutsKeep(rule, puts)
    ensures WritesKeep(rule, ApplyToSnapshot(s, puts, writer, now).writes)
  {
    if puts != [] {
      var past, p := ApplyToSnapshot(s, puts[..|puts| - 1], writer, now), puts[|puts| - 1];
      ApplyKeeps(rule, s, puts[..|puts| - 1], writer, now);
      assert rule(SlotOf(p), ContentOf(p));
      PutAt(past.state, p, writer, now);
    }
  }

  lemma ApplyNextKeeps(rule: Rule, r: Replica, at: nat, now: nat)
    requires rule(ValueSlot, OfVal(None)) && EditsKeep(rule, r.node.sent) && r.applied < |r.node.sent|
    requires r.store.Some? ==> WritesKeep(rule, r.store.value.writes)
    ensures WritesKeep(rule, ApplyNext(r, at, now).store.value.writes)
  {
    var edit := r.node.sent[r.applied];
    assert edit in r.node.sent;
    ApplyKeeps(rule, if r.store.Some? then r.store.value else EmptySnapshot(at, edit.issuedAt), edit.puts, at, now);
  }

  lemma HandleKeeps(rule: Rule, n: Node, e: Event)
    requires NodeKeeps(rule, n) && (e.Issued? ==> PutsKeep(rule, e.edit.puts))
    ensures NodeKeeps(rule, Handle(n, e))
  {}

  lemma MessageKeeps(rule: Rule, r: Replica, m: Message)
    requires NodeKeeps(rule, r.node)
    ensures NodeKeeps(rule, HandleMessage(r, m).node) && HandleMessage(r, m).store == r.store
  {
    HandleKeeps(rule, r.node, NotFound);
    if Carried(m).Some? {
      HandleKeeps(rule, r.node, GetSuccess(Carried(m).value.state));
      HandleKeeps(rule, r.node, Changed(Carried(m).value.state));
    }
  }

  lemma StoreKeeps(rule: Rule, sys: System, i: nat)
    requires Inv(sys) && SystemKeeps(rule, sys) && i in sys.replicas
    ensures sys.replicas[i].store.Some? ==> WritesKeep(rule, sys.replicas[i].store.value.writes)
  {
    assert ReplicaOk(sys.replicas[i], sys.writes);
  }

  lemma ReceiveKeeps(rule: Rule, sys: System, i: nat, s: Snapshot)
    requires Inv(sys) && SystemKeeps(rule, sys) && i in sys.replicas && s in sys.published
    ensures WritesKeep(rule, MergeSnapshots(sys.replicas[i].store, s).writes)
  {
    StoreKeeps(rule, sys, i);
    assert Sound(s, sys.writes);
  }

  lemma StepReplicaKeeps(rule: Rule, sys: System, a: Action)
    requires Inv(sys) && SystemKeeps(rule, sys) && a.at in sys.replicas && rule(ValueSlot, OfVal(None))
    requires a.Mutate? ==> PutsKeep(rule, PutsOf(a.mutation))
    ensures var r' := StepReplica(sys.published, sys.replicas[a.at], a);
            NodeKeeps(rule, r'.node) && (r'.store.Some? ==> WritesKeep(rule, r'.store.value.writes))
  {
    var r := sys.replicas[a.at];
    assert NodeKeeps(rule, r.node);
    StoreKeeps(rule, sys, a.at);
    match a
    case Mutate(_, m, now) => HandleKeeps(rule, r.node, Issued(Edit(PutsOf(m), now)));
    case Apply(at, now) =>
      if r.applied < |r.node.sent| {
        ApplyNextKeeps(rule, r, at, now);
      }
    case Deliver(_) =>
      if r.inbox != [] {
        MessageKeeps(rule, r, r.inbox[0]);
      }
    case Receive(at, s) =>
      if s in sys.published {
        ReceiveKeeps(rule, sys, at, s);
      }
    case _ =>
  }

  lemma ReplaceKeeps(rule: Rule, sys: System, at: nat, r': Replica)
    requires SystemKeeps(rule, sys) && at in sys.replicas && NodeKeeps(rule, r'.node)
    requires r'.store.Some? ==> WritesKeep(rule, r'.store.value.writes)
    ensures SystemKeeps(rule, Replace(sys, at, r'))
  {}

  /** In every run all writes, and all edits on their way, keep to the rule that the mutator calls keep to. */
  lemma {:induction false} RunKeeps(rule: Rule, nodes: map<nat, NodeData>, actions: seq<Action>)
    requires rule(ValueSlot, OfVal(None)) && MutationsKeep(rule, actions)
    ensures SystemKeeps(rule, Run(nodes, actions))
  {
    if actions != [] {
      var past, a := actions[..|actions| - 1], actions[|actions| - 1];
      assert a in actions;
      RunKeeps(rule, nodes, past);
      RunKeepsInv(nodes, past);
      var sys := Run(nodes, past);
      if a.at in sys.replicas {
        StepReplicaKeeps(rule, sys, a);
        ReplaceKeeps(rule, sys, a.at, StepReplica(sys.published, sys.replicas[a.at], a));
      }
    }
  }
}

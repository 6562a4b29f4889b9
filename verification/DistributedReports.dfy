/** Listeners stay in step in every run of the cluster, as long as mutators get the names they are meant for. */
module DistributedReports {
  import opened Dsa
  import opened ReplicatedState
  import opened DistributedNode
  import opened DistributedNodeActor
  import opened DistributedRuns
  import opened DistributedWrites

  /** The name of a slot is of the kind that goes there. */
  predicate NameApart(slot: Slot, content: Content) {
    match slot
    case ConfigSlot(name) => IsConfigName(name)
    case AttributeSlot(name) => IsAttributeName(name)
    case ChildSlot(name) => IsChildName(name)
    case _ => true
  }

  ghost predicate NamesInv(sys: System) {
    && SystemKeeps(NameApart, sys)
    && forall i <- sys.replicas :: DataNamesApart(sys.replicas[i].initial)
  }

  ghost predicate AllIntended(actions: seq<Action>) {
    forall a <- actions :: a.Mutate? ==> Intended(a.mutation)
  }

  lemma IntendedKeepNames(m: Mutation)
    requires Intended(m)
    ensures PutsKeep(NameApart, PutsOf(m))
  {
    IntendedNamesApart(m);
    forall p <- PutsOf(m) ensures NameApart(SlotOf(p), ContentOf(p)) {
      assert PutNameApart(p);
    }
  }

  lemma RunKeepsNames(nodes: map<nat, NodeData>, actions: seq<Action>)
    requires forall i <- nodes :: DataNamesApart(nodes[i])
    requires AllIntended(actions)
    ensures NamesInv(Run(nodes, actions))
  {
    forall a <- actions | a.Mutate? ensures PutsKeep(NameApart, PutsOf(a.mutation)) {
      IntendedKeepNames(a.mutation);
    }
    RunKeeps(NameApart, nodes, actions);
    RunKeepsInv(nodes, actions);
  }

  lemma SoundNames(s: Snapshot, writes: set<Write>)
    requires Sound(s, writes) && WritesKeep(NameApart, writes)
    ensures StateNamesApart(s.state)
  {
    forall k <- s.state.configs ensures IsConfigName(k) { SlotKeeps(s, writes, ConfigSlot(k)); }
    forall k <- s.state.attributes ensures IsAttributeName(k) { SlotKeeps(s, writes, AttributeSlot(k)); }
    forall k <- s.state.children ensures IsChildName(k) { SlotKeeps(s, writes, ChildSlot(k)); }
  }

  lemma SlotKeeps(s: Snapshot, writes: set<Write>, slot: Slot)
    requires Sound(s, writes) && WritesKeep(NameApart, writes) && HasSlot(s.state, slot)
    ensures NameApart(slot, EntryAt(s.state, slot).value)
  {
    assert Write(slot, EntryAt(s.state, slot)) in writes;
  }

  lemma InitialNamesApart(description: Description, value: Val, name: string)
    ensures DataNamesApart(InitialData(description, value, name))
  {}

  /** What a node holds and what it is about to be told have their names apart. */
  lemma NamesAtDelivery(sys: System, i: nat)
    requires Inv(sys) && NamesInv(sys) && i in sys.replicas
    requires sys.replicas[i].inbox != [] && Carried(sys.replicas[i].inbox[0]).Some?
    ensures DataNamesApart(sys.replicas[i].node.data)
    ensures StateNamesApart(Carried(sys.replicas[i].inbox[0]).value.state)
  {
    var r := sys.replicas[i];
    assert ReplicaOk(r, sys.writes) && DataNamesApart(r.initial);
    assert SoundOption(Carried(r.inbox[0]), sys.writes);
    SoundNames(Carried(r.inbox[0]).value, sys.writes);
    if r.told.Some? {
      SoundNames(r.told.value, sys.writes);
      OverwriteKeepsNamesApart(r.initial, r.told.value.state);
    }
  }

  lemma DeliveryOverwrites(sys: System, i: nat)
    requires i in sys.replicas && sys.replicas[i].inbox != [] && Carried(sys.replicas[i].inbox[0]).Some?
    ensures var after := Step(sys, Deliver(i));
            && i in after.replicas
            && after.replicas[i].node.data
               == Overwrite(sys.replicas[i].node.data, Carried(sys.replicas[i].inbox[0]).value.state)
  {}

  /**
   In every run with intended names, whenever a node takes over a state, the rows it reports, in any order,
   take the complete view of its data before to the complete view of its data afterwards.
   */
  lemma EveryReportInLockstep(nodes: map<nat, NodeData>, actions: seq<Action>, i: nat, rows: seq<Row>)
    requires forall k <- nodes :: DataNamesApart(nodes[k])
    requires AllIntended(actions) && i in nodes
    requires i in Run(nodes, actions).replicas
    requires var r := Run(nodes, actions).replicas[i];
             && r.inbox != [] && Carried(r.inbox[0]).Some?
             && RowSet(rows) == Report(CollectDiff(Carried(r.inbox[0]).value.state, r.node.data))
    ensures var before, after := Run(nodes, actions), Run(nodes, actions + [Deliver(i)]);
            && i in after.replicas
            && ApplyRows(Render(before.replicas[i].node.data), rows) == Render(after.replicas[i].node.data)
  {
    var sys := Run(nodes, actions);
    RunKeepsInv(nodes, actions);
    RunKeepsNames(nodes, actions);
    NamesAtDelivery(sys, i);
    DeliveryOverwrites(sys, i);
    ReportLockstep(sys.replicas[i].node.data, Carried(sys.replicas[i].inbox[0]).value.state, rows);
    RunStep(nodes, actions, Deliver(i));
  }

  lemma RunStep(nodes: map<nat, NodeData>, actions: seq<Action>, a: Action)
    ensures Run(nodes, actions + [a]) == Step(Run(nodes, actions), a)
  {
    assert (actions + [a])[..|actions|] == actions;
  }
}

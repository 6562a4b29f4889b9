/** What becomes of the value a replicated node is created with. */
module InitialValue {
  import opened Collections
  import opened Dsa
  import opened ReplicatedState
  import opened DistributedNode
  import opened DistributedNodeActor
  import opened DistributedRuns
  import opened DistributedWrites

  predicate Sets(a: Action, v: Val) {
    a.Mutate? && a.mutation == SetValue(v)
  }

  /** Nothing but these values is written to the register. */
  function OnlyValues(allowed: set<Val>): Rule {
    (slot: Slot, content: Content) =>
      slot == ValueSlot ==> content.OfVal? && (content.val.Some? ==> content.val.value in allowed)
  }

  function ValuesSet(actions: seq<Action>): set<Val> {
    set a | a in actions && a.Mutate? && a.mutation.SetValue? :: a.mutation.value
  }

  lemma MutationsKeepValues(actions: seq<Action>)
    ensures MutationsKeep(OnlyValues(ValuesSet(actions)), actions)
  {
    var rule := OnlyValues(ValuesSet(actions));
    forall a <- actions | a.Mutate? ensures PutsKeep(rule, PutsOf(a.mutation)) {
      if a.mutation.SetValue? {
        assert a.mutation.value in ValuesSet(actions);
      }
    }
  }

  /**
   In every run, a node that was told of any state has that state's value, and it is None or one that was set
   somewhere: the value it was created with is gone, unless it was set too.
   */
  lemma InitialValueLost(nodes: map<nat, NodeData>, actions: seq<Action>, i: nat)
    requires i in nodes
    ensures i in Run(nodes, actions).replicas
    ensures var r := Run(nodes, actions).replicas[i];
            if r.told.None? then r.node.data.value == nodes[i].value
            else && r.node.data.value == r.told.value.state.value.value
                 && (r.node.data.value.Some? ==> exists a <- actions :: Sets(a, r.node.data.value.value))
  {
    var rule := OnlyValues(ValuesSet(actions));
    MutationsKeepValues(actions);
    RunKeeps(rule, nodes, actions);
    RunKeepsInv(nodes, actions);
    DataIsInitialOverwritten(nodes, actions, i);
    var sys := Run(nodes, actions);
    var r := sys.replicas[i];
    if r.told.Some? {
      assert ReplicaOk(r, sys.writes);
      ToldValueSet(r.told.value, sys.writes, rule);
      if r.node.data.value.Some? {
        assert r.node.data.value.value in ValuesSet(actions);
        var a :| a in actions && a.Mutate? && a.mutation.SetValue? && a.mutation.value == r.node.data.value.value;
        assert Sets(a, r.node.data.value.value);
      }
    }
  }

  lemma ToldValueSet(s: Snapshot, writes: set<Write>, rule: Rule)
    requires Sound(s, writes) && WritesKeep(rule, writes)
    ensures rule(ValueSlot, OfVal(s.state.value.value))
  {
    assert Write(ValueSlot, EntryAt(s.state, ValueSlot)) in writes;
  }
}

/** A run of two replicas in which an edit of another property erases a value. */
module ErasedValue {
  import opened Collections
  import opened Dsa
  import opened ReplicatedState
  import opened DistributedNode
  import opened DistributedNodeActor
  import opened DistributedRuns

  /** A node is initialised from nothing and issues its first edit, which its replicator applies. */
  function FirstEdit(at: nat, m: Mutation, now: nat): seq<Action> {
    [Read(at), Deliver(at), Mutate(at, m, now), Apply(at, now)]
  }

  function StepAll(sys: System, actions: seq<Action>): System
    decreases |actions|
  {
    if actions == [] then sys else StepAll(Step(sys, actions[0]), actions[1..])
  }

  lemma {:induction false} RunStepAll(nodes: map<nat, NodeData>, past: seq<Action>, actions: seq<Action>)
    ensures Run(nodes, past + actions) == StepAll(Run(nodes, past), actions)
    decreases |actions|
  {
    if actions == [] {
      assert past + actions == past;
    } else {
      RunStepAll(nodes, past + [actions[0]], actions[1..]);
      assert past + [actions[0]] + actions[1..] == past + actions;
      assert (past + [actions[0]])[..|past|] == past;
    }
  }

  lemma StepFour(sys: System, a: Action, b: Action, c: Action, d: Action)
    ensures StepAll(sys, [a, b, c, d]) == Step(Step(Step(Step(sys, a), b), c), d)
  {
    assert [a, b, c, d][1..] == [b, c, d] && [b, c, d][1..] == [c, d] && [c, d][1..] == [d] && [d][1..] == [];
    assert StepAll(Step(Step(Step(sys, a), b), c), [d]) == Step(Step(Step(Step(sys, a), b), c), d);
    assert StepAll(Step(Step(sys, a), b), [c, d]) == StepAll(Step(Step(Step(sys, a), b), c), [d]);
    assert StepAll(Step(sys, a), [b, c, d]) == StepAll(Step(Step(sys, a), b), [c, d]);
  }

  predicate Unused(r: Replica) {
    r == Replica(r.initial, Fresh(r.initial), 0, None, [], None)
  }

  function FirstSnapshot(at: nat, m: Mutation, now: nat): Snapshot {
    ApplyToSnapshot(EmptySnapshot(at, now), PutsOf(m), at, now)
  }

  lemma FirstEditApplied(sys: System, at: nat, m: Mutation, now: nat)
    requires at in sys.replicas && Unused(sys.replicas[at])
    ensures var next := StepAll(sys, FirstEdit(at, m, now));
            && next.replicas.Keys == sys.replicas.Keys && next.published == sys.published
            && next.replicas[at].store == Some(FirstSnapshot(at, m, now))
            && forall i <- sys.replicas :: i != at ==> next.replicas[i] == sys.replicas[i]
  {
    StepFour(sys, Read(at), Deliver(at), Mutate(at, m, now), Apply(at, now));
  }

  /** Both replicators gossip, and each receives the other's state. */
  function Exchange(i: nat, j: nat, si: Snapshot, sj: Snapshot): seq<Action> {
    [Gossip(i), Gossip(j), Receive(i, sj), Receive(j, si)]
  }

  lemma Exchanged(sys: System, i: nat, j: nat, si: Snapshot, sj: Snapshot)
    requires i != j && i in sys.replicas && j in sys.replicas
    requires sys.replicas[i].store == Some(si) && sys.replicas[j].store == Some(sj)
    ensures var next := StepAll(sys, Exchange(i, j, si, sj));
            && next.replicas.Keys == sys.replicas.Keys
            && next.replicas[i].store == Some(MergeSnapshots(Some(si), sj))
            && next.replicas[j].store == Some(MergeSnapshots(Some(sj), si))
  {
    StepFour(sys, Gossip(i), Gossip(j), Receive(i, sj), Receive(j, si));
  }

  /** The value is set at one replica; another property is edited at the other; they exchange their states. */
  function TwoEdits(i: nat, j: nat, v: Val, t: nat, m: Mutation, u: nat): seq<Action> {
    FirstEdit(i, SetValue(v), t) + FirstEdit(j, m, u)
    + Exchange(i, j, FirstSnapshot(i, SetValue(v), t), FirstSnapshot(j, m, u))
  }

  lemma OnlySetValueWritesIt(m: Mutation)
    requires !m.SetValue?
    ensures forall p <- PutsOf(m) :: !p.PutValue?
  {}

  lemma ValuesOfFirstEdits(i: nat, j: nat, v: Val, t: nat, m: Mutation, u: nat)
    requires !m.SetValue?
    ensures FirstSnapshot(i, SetValue(v), t).state.value == Entry((if t > 0 then t else 1) + 1, i, Some(v))
    ensures FirstSnapshot(j, m, u).state.value == Entry(if u > 0 then u else 1, j, None)
  {
    OnlySetValueWritesIt(m);
    PutsKeepValue(Empty(j, u), PutsOf(m), j, u);
    assert PutsOf(SetValue(v))[..0] == [];
  }

  lemma RunTwoEdits(nodes: map<nat, NodeData>, i: nat, j: nat, v: Val, t: nat, m: Mutation, u: nat)
    requires i in nodes && j in nodes && i != j
    ensures var si, sj := FirstSnapshot(i, SetValue(v), t), FirstSnapshot(j, m, u);
            var first, last := Run(nodes, FirstEdit(i, SetValue(v), t)), Run(nodes, TwoEdits(i, j, v, t, m, u));
            && i in first.replicas && first.replicas[i].store == Some(si)
            && i in last.replicas && last.replicas[i].store == Some(MergeSnapshots(Some(si), sj))
            && j in last.replicas && last.replicas[j].store == Some(MergeSnapshots(Some(sj), si))
  {
    var a, b := FirstEdit(i, SetValue(v), t), FirstEdit(j, m, u);
    var si, sj := FirstSnapshot(i, SetValue(v), t), FirstSnapshot(j, m, u);
    assert [] + a == a;
    RunStepAll(nodes, [], a);
    RunStepAll(nodes, a, b);
    RunStepAll(nodes, a + b, Exchange(i, j, si, sj));
    var start := Start(nodes);
    FirstEditApplied(start, i, SetValue(v), t);
    FirstEditApplied(StepAll(start, a), j, m, u);
    Exchanged(StepAll(StepAll(start, a), b), i, j, si, sj);
  }

  /**
   In this run of any two replicas the value that was set and stored survives, at either of them, if and only if
   the other edit was issued no more than one tick after it, or, by a replica of a lower address, not after it;
   otherwise both hold None, though nobody removed it.
   */
  lemma ValueSurvivesIff(nodes: map<nat, NodeData>, i: nat, j: nat, v: Val, t: nat, m: Mutation, u: nat)
    requires i in nodes && j in nodes && i != j && !m.SetValue?
    ensures var first, last := Run(nodes, FirstEdit(i, SetValue(v), t)), Run(nodes, TwoEdits(i, j, v, t, m, u));
            && i in first.replicas && first.replicas[i].store.Some?
            && first.replicas[i].store.value.state.value.value == Some(v)
            && forall k <- {i, j} ::
                 && k in last.replicas && last.replicas[k].store.Some?
                 && last.replicas[k].store.value.state.value.value
                    == if u <= (if t > 0 then t else 1) + (if i < j then 1 else 0) then Some(v) else None
  {
    RunTwoEdits(nodes, i, j, v, t, m, u);
    ValuesOfFirstEdits(i, j, v, t, m, u);
  }
}

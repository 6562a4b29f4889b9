/** What the local clients of a replicated node learn from what it sends when it takes over a state. */
module DistributedClients {
  import opened Collections
  import opened Dsa
  import opened ReplicatedState
  import opened DistributedNode
  import opened DistributedNodeActor

  /** A client that lists with one RID and subscribes with one SID. */
  datatype Client = Client(ref: ActorRef, rid: int, sid: int)

  /** The rows applied so far, and the last value received. */
  datatype Known = Known(view: ListView, value: Val)

  predicate Entered(table: map<int, ActorRef>, id: int, ref: ActorRef) {
    id in table && table[id] == ref
  }

  function Know(c: Client, k: Known, o: Outgoing): Known {
    match o
    case ListUpdates(recipients, rows) =>
      if Entered(recipients, c.rid, c.ref) then k.(view := ApplyRows(k.view, rows)) else k
    case ValueUpdate(recipients, v) => if Entered(recipients, c.sid, c.ref) then k.(value := v) else k
  }

  function KnowAll(c: Client, k: Known, outbox: seq<Outgoing>): Known {
    if outbox == [] then k else Know(c, KnowAll(c, k, outbox[..|outbox| - 1]), outbox[|outbox| - 1])
  }

  lemma KnowOne(c: Client, k: Known, outbox: seq<Outgoing>, o: Outgoing)
    ensures KnowAll(c, k, outbox + [o]) == Know(c, KnowAll(c, k, outbox), o)
  {
    assert (outbox + [o])[..|outbox|] == outbox;
  }

  /** The value as a client reads it: an absent one is empty. */
  function Reading(value: Option<Val>): Val {
    if value.Some? then value.value else Str("")
  }

  /** A listener learns exactly the rows, and nobody else anything. */
  lemma RowsLearnt(c: Client, k: Known, outbox: seq<Outgoing>, rids: map<int, ActorRef>, rows: seq<Row>)
    ensures var before, after := KnowAll(c, k, outbox), KnowAll(c, k, WithRows(outbox, rids, rows));
            && after.value == before.value
            && after.view == if Entered(rids, c.rid, c.ref) then ApplyRows(before.view, rows) else before.view
  {
    KnowOne(c, k, outbox, ListUpdates(rids, rows));
  }

  /** A subscriber that knew the value before knows it afterwards, and nobody else learns anything. */
  lemma ValueLearnt(c: Client, k: Known, outbox: seq<Outgoing>, sids: map<int, ActorRef>, old_: Option<Val>,
                    new_: Option<Val>)
    ensures var before, after := KnowAll(c, k, outbox), KnowAll(c, k, WithValueUpdate(outbox, sids, old_, new_));
            && after.view == before.view
            && (Entered(sids, c.sid, c.ref) && before.value == Reading(old_) ==> after.value == Reading(new_))
            && (!Entered(sids, c.sid, c.ref) ==> after.value == before.value)
  {
    if old_ != new_ {
      KnowOne(c, k, outbox, ValueUpdate(sids, Reading(new_)));
    }
  }

  /** One message to the listeners if there are rows, and one to the subscribers if the value is another. */
  lemma OneMessageEach(outbox: seq<Outgoing>, rids: map<int, ActorRef>, sids: map<int, ActorRef>, report: seq<Row>,
                       before: NodeData, after: NodeData)
    ensures var sent := OutboxAfter(outbox, rids, sids, report, before, after);
            && outbox <= sent
            && |sent| == |outbox| + (if report == [] then 0 else 1) + (if before.value == after.value then 0 else 1)
  {}

  /**
   A client that knew the node's data before a state is taken over knows the data afterwards, if it is in the
   tables then: its view is the complete one, when names are apart, and its value is the node's.
   */
  lemma ClientsKnowNewData(c: Client, k: Known, outbox: seq<Outgoing>, rids: map<int, ActorRef>,
                           sids: map<int, ActorRef>, report: seq<Row>, state: NodeState, data: NodeData)
    requires Reports(report, state, data)
    ensures var before, after := KnowAll(c, k, outbox), Overwrite(data, state);
            var now := KnowAll(c, k, OutboxAfter(outbox, rids, sids, report, data, after));
            && (DataNamesApart(data) && StateNamesApart(state) ==>
                  Entered(rids, c.rid, c.ref) && before.view == Render(data) ==> now.view == Render(after))
            && (Entered(sids, c.sid, c.ref) && before.value == Reading(data.value) ==>
                  now.value == Reading(after.value))
            && (!Entered(rids, c.rid, c.ref) ==> now.view == before.view)
            && (!Entered(sids, c.sid, c.ref) ==> now.value == before.value)
  {
    RowsLearnt(c, k, outbox, rids, report);
    ValueLearnt(c, k, WithRows(outbox, rids, report), sids, data.value, Overwrite(data, state).value);
  }

  /** The clients that are served are those of the full table with a reference in the node's own actor system. */
  lemma LocalClientsServed(address: string, table: map<int, ActorRef>, id: int, ref: ActorRef)
    ensures Entered(LocalOnly(address, table), id, ref) <==> Entered(table, id, ref) && ref.address == address
  {}
}

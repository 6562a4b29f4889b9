/** The replicated node as an actor: what each message it handles does to its fields. */
module DistributedNodeActor {
  import opened Collections
  import opened Dsa
  import opened ReplicatedState
  import opened DistributedNode

  /** The mutators of a node. A removal takes the name as it is; the additions prefix theirs. */
  datatype Mutation =
    | SetValue(value: Val)
    | AddConfigs(configs: seq<(string, Val)>)
    | RemoveConfig(name: string)
    | AddAttributes(attributes: seq<(string, Val)>)
    | RemoveAttribute(name: string)
    | AddChild(name: string, description: Description)
    | RemoveChild(name: string)
    | Subscribe(sid: int, ref: ActorRef)
    | Unsubscribe(sid: int)
    | List(rid: int, ref: ActorRef)
    | Unlist(rid: int)

  /** The writes of the update that a mutator sends to the replicator. */
  function PutsOf(m: Mutation): seq<Put> {
    match m
    case SetValue(v) => [PutValue(Some(v))]
    case AddConfigs(cs) => seq(|cs|, i requires 0 <= i < |cs| => PutConfig(WithPrefix('$', cs[i].0), Some(cs[i].1)))
    case RemoveConfig(name) => [PutConfig(name, None)]
    case AddAttributes(cs) =>
      seq(|cs|, i requires 0 <= i < |cs| => PutAttribute(WithPrefix('@', cs[i].0), Some(cs[i].1)))
    case RemoveAttribute(name) => [PutAttribute(name, None)]
    case AddChild(name, description) => [PutChild(name, Some(description))]
    case RemoveChild(name) => [PutChild(name, None)]
    case Subscribe(sid, ref) => [PutSubscription(sid, Some(ref))]
    case Unsubscribe(sid) => [PutSubscription(sid, None)]
    case List(rid, ref) => [PutListener(rid, Some(ref))]
    case Unlist(rid) => [PutListener(rid, None)]
  }

  /** The mutator is called with the kind of name it is for. */
  predicate Intended(m: Mutation) {
    match m
    case RemoveConfig(name) => IsConfigName(name)
    case RemoveAttribute(name) => IsAttributeName(name)
    case AddChild(name, _) => IsChildName(name)
    case RemoveChild(name) => IsChildName(name)
    case _ => true
  }

  predicate PutNameApart(p: Put) {
    match p
    case PutConfig(name, _) => IsConfigName(name)
    case PutAttribute(name, _) => IsAttributeName(name)
    case PutChild(name, _) => IsChildName(name)
    case _ => true
  }

  lemma IntendedNamesApart(m: Mutation)
    requires Intended(m)
    ensures forall p <- PutsOf(m) :: PutNameApart(p)
  {}

  // ---- The simple form of the node ----

  /** Local data, and the edits that wait for, or went to, the replicator. */
  datatype Node = Node(data: NodeData, initialized: bool, stash: seq<Edit>, sent: seq<Edit>)

  datatype Event = Issued(edit: Edit) | GetSuccess(state: NodeState) | NotFound | Changed(state: NodeState)

  function Told(n: Node, state: NodeState): Node {
    n.(data := Overwrite(n.data, state))
  }

  function Initialize(n: Node): Node {
    n.(initialized := true, stash := [], sent := n.sent + n.stash)
  }

  function Handle(n: Node, e: Event): Node {
    match e
    case Issued(edit) => if n.initialized then n.(sent := n.sent + [edit]) else n.(stash := n.stash + [edit])
    case GetSuccess(state) => Initialize(Told(n, state))
    case NotFound => Initialize(n)
    case Changed(state) => Told(n, state)
  }

  function HandleAll(n: Node, events: seq<Event>): Node {
    if events == [] then n else Handle(HandleAll(n, events[..|events| - 1]), events[|events| - 1])
  }

  lemma HandleOne(n: Node, events: seq<Event>, e: Event)
    ensures HandleAll(n, events + [e]) == Handle(HandleAll(n, events), e)
  {
    assert (events + [e])[..|events|] == events;
  }

  function IssuedIn(events: seq<Event>): seq<Edit> {
    if events == [] then []
    else
      var past := IssuedIn(events[..|events| - 1]);
      match events[|events| - 1]
      case Issued(edit) => past + [edit]
      case _ => past
  }

  predicate InitializedIn(events: seq<Event>) {
    exists e <- events :: e.GetSuccess? || e.NotFound?
  }

  function Fresh(data: NodeData): Node {
    Node(data, false, [], [])
  }

  /**
   In every run, nothing is sent to the replicator before initialisation ends, and from then on exactly
   the issued edits, in the order they were issued, each once.
   */
  lemma {:induction false} EditsSentInIssueOrder(data: NodeData, events: seq<Event>)
    ensures var n := HandleAll(Fresh(data), events);
            && (n.initialized <==> InitializedIn(events))
            && n.sent == (if InitializedIn(events) then IssuedIn(events) else [])
            && n.stash == (if InitializedIn(events) then [] else IssuedIn(events))
  {
    if events != [] {
      var past, last := events[..|events| - 1], events[|events| - 1];
      EditsSentInIssueOrder(data, past);
      assert events == past + [last];
      assert InitializedIn(events) <==> InitializedIn(past) || last.GetSuccess? || last.NotFound?;
    }
  }

  // ---- The actor ----

  /** A message sent to every reference of a table. */
  datatype Outgoing =
    | ListUpdates(recipients: map<int, ActorRef>, rows: seq<Row>)
    | ValueUpdate(recipients: map<int, ActorRef>, value: Val)

  /** The rows go to every listener; an empty report is not sent. */
  function WithRows(outbox: seq<Outgoing>, rids: map<int, ActorRef>, rows: seq<Row>): seq<Outgoing> {
    if rows == [] then outbox else outbox + [ListUpdates(rids, rows)]
  }

  /** A changed value goes to every subscriber; a removed one is sent as the empty string. */
  function WithValueUpdate(outbox: seq<Outgoing>, sids: map<int, ActorRef>, before: Option<Val>,
                           after: Option<Val>): seq<Outgoing> {
    if before == after then outbox
    else outbox + [ValueUpdate(sids, if after.Some? then after.value else Str(""))]
  }

  /** What the outbox becomes when a state is taken over. */
  function OutboxAfter(outbox: seq<Outgoing>, rids: map<int, ActorRef>, sids: map<int, ActorRef>, report: seq<Row>,
                       before: NodeData, after: NodeData): seq<Outgoing>
  {
    WithValueUpdate(WithRows(outbox, rids, report), sids, before.value, after.value)
  }

  method CollectReport<V>(diff: DiffSet<string, V>, render: V -> Val) returns (rows: seq<Row>)
    ensures RowSet(rows) == ReportOf(diff, render)
  {
    var created := UpsertRows(diff.created, render);
    var updated := UpsertRows(diff.updated, render);
    rows := created + updated;
    var rest := diff.deleted;
    while rest != {}
      invariant rest <= diff.deleted
      invariant RowSet(rows) == ReportOf(diff.(deleted := diff.deleted - rest), render)
    {
      var name := Pick(rest);
      rest := rest - {name};
      rows := rows + [Remove(name)];
      assert diff.deleted - rest == (diff.deleted - (rest + {name})) + {name};
    }
    assert diff.deleted - rest == diff.deleted;
  }

  method UpsertRows<V>(m: map<string, V>, render: V -> Val) returns (rows: seq<Row>)
    ensures RowSet(rows) == set k | k in m :: Upsert(k, render(m[k]))
  {
    rows := [];
    var rest, done := m.Keys, {};
    while rest != {}
      invariant done + rest == m.Keys
      invariant RowSet(rows) == UpsertsOf(m, done, render)
      decreases rest
    {
      var name := Pick(rest);
      UpsertsStep(m, done, name, render);
      RowSetAppend(rows, Upsert(name, render(m[name])));
      rest, done := rest - {name}, done + {name};
      rows := rows + [Upsert(name, render(m[name]))];
    }
  }

  function UpsertsOf<V>(m: map<string, V>, keys: set<string>, render: V -> Val): set<Row> {
    set k | k in keys && k in m :: Upsert(k, render(m[k]))
  }

  lemma UpsertsStep<V>(m: map<string, V>, keys: set<string>, name: string, render: V -> Val)
    requires name in m
    ensures UpsertsOf(m, keys + {name}, render) == UpsertsOf(m, keys, render) + {Upsert(name, render(m[name]))}
  {}

  function DeletedChildren(state: NodeState): set<string> {
    set name | name in state.children && state.children[name].value.None?
  }

  /** The diff does to data, tables and children what the simple form says. */
  lemma UpdateByDiff(address: string, data: NodeData, state: NodeState)
    ensures var diff, after := CollectDiff(state, data), Overwrite(data, state);
            && NewDataFromDiff(data, diff) == after
            && LocalOnly(address, FoldDiff(LocalOnly(address, data.subscriptions), diff.subscriptionsDiff))
               == LocalOnly(address, after.subscriptions)
            && LocalOnly(address, FoldDiff(LocalOnly(address, data.listSubscriptions), diff.listSubscriptionsDiff))
               == LocalOnly(address, after.listSubscriptions)
            && diff.childrenDiff.deleted == DeletedChildren(state)
            && diff.valueDiff == if data.value == after.value then None else Some(after.value)
  {
    LocalTableFollows(address, Values(state.subscriptions), data.subscriptions);
    LocalTableFollows(address, Values(state.listSubscriptions), data.listSubscriptions);
    FoldOfDiffOverwrites(Values(state.subscriptions), data.subscriptions);
    FoldOfDiffOverwrites(Values(state.listSubscriptions), data.listSubscriptions);
    DiffRefinesOverwrite(data, state);
  }

  /**
   The rows are exactly those of the diff; with names apart they take the view of the data to that of the data
   after the state is taken over.
   */
  ghost predicate Reports(report: seq<Row>, state: NodeState, data: NodeData) {
    && RowSet(report) == Report(CollectDiff(state, data))
    && (DataNamesApart(data) && StateNamesApart(state) ==>
          ApplyRows(Render(data), report) == Render(Overwrite(data, state)))
  }

  lemma ReportsDiff(report: seq<Row>, state: NodeState, data: NodeData)
    requires RowSet(report) == Report(CollectDiff(state, data))
    ensures Reports(report, state, data)
  {
    if DataNamesApart(data) && StateNamesApart(state) {
      ReportLockstep(data, state, report);
    }
  }

  method UpdatesReport(diff: DataDiff) returns (rows: seq<Row>)
    ensures RowSet(rows) == Report(diff)
  {
    var configs := CollectReport(diff.configsDiff, RenderValue);
    var attributes := CollectReport(diff.attributesDiff, RenderValue);
    var childRows := CollectReport(diff.childrenDiff, RenderChild);
    rows := configs + attributes + childRows;
  }

  /** Collects the diff once, and folds it into the data and into the filtered tables. */
  method FoldUpdate(address: string, data: NodeData, sids: map<int, ActorRef>, rids: map<int, ActorRef>,
                    state: NodeState)
    returns (report: seq<Row>, newSids: map<int, ActorRef>, newRids: map<int, ActorRef>, deleted: set<string>,
            after: NodeData)
    requires sids == LocalOnly(address, data.subscriptions) && rids == LocalOnly(address, data.listSubscriptions)
    ensures after == Overwrite(data, state)
    ensures newSids == LocalOnly(address, after.subscriptions) && newRids == LocalOnly(address, after.listSubscriptions)
    ensures deleted == DeletedChildren(state)
    ensures Reports(report, state, data)
  {
    var diff := CollectDiff(state, data);
    UpdateByDiff(address, data, state);
    report := UpdatesReport(diff);
    ReportsDiff(report, state, data);
    deleted := diff.childrenDiff.deleted;
    newSids := LocalOnly(address, FoldDiff(sids, diff.subscriptionsDiff));
    newRids := LocalOnly(address, FoldDiff(rids, diff.listSubscriptionsDiff));
    after := NewDataFromDiff(data, diff);
  }

  class DistributedDSANode {
    const address: string
    ghost const initial: NodeData
    var data: NodeData
    var sids: map<int, ActorRef>
    var rids: map<int, ActorRef>
    var children: map<string, ActorRef>
    var stateInitialized: bool
    var stash: seq<Edit>
    var toReplicator: seq<Edit>
    var outbox: seq<Outgoing>
    ghost var history: seq<Event>

    /** The actor's fields in the simple form. */
    function View(): Node
      reads this
    {
      Node(data, stateInitialized, stash, toReplicator)
    }

    /** The subscriber tables are the local parts of the full ones, and the fields follow the history. */
    ghost predicate Valid()
      reads this
    {
      && sids == LocalOnly(address, data.subscriptions)
      && rids == LocalOnly(address, data.listSubscriptions)
      && View() == HandleAll(Fresh(initial), history)
    }

    constructor (description: Description, value: Val, name: string, address: string)
      ensures Valid() && history == [] && outbox == [] && data == InitialData(description, value, name)
    {
      this.address := address;
      initial := InitialData(description, value, name);
      data := InitialData(description, value, name);
      sids, rids, children := map[], map[], map[];
      stateInitialized := false;
      stash, toReplicator, outbox := [], [], [];
      history := [];
    }

    method EditProperty(edit: Edit)
      requires Valid()
      modifies this
      ensures Valid() && history == old(history) + [Issued(edit)]
      ensures outbox == old(outbox) && children == old(children)
    {
      if stateInitialized {
        toReplicator := toReplicator + [edit];
      } else {
        stash := stash + [edit];
      }
      HandleOne(Fresh(initial), history, Issued(edit));
      history := history + [Issued(edit)];
    }

    /** The child's node is known here at once; its description goes through the replicator like every edit. */
    method AddChild(name: string, node: ActorRef, description: Description, now: nat)
      requires Valid()
      modifies this
      ensures Valid() && history == old(history) + [Issued(Edit(PutsOf(Mutation.AddChild(name, description)), now))]
      ensures outbox == old(outbox) && children == old(children)[name := node]
    {
      children := children[name := node];
      EditProperty(Edit(PutsOf(Mutation.AddChild(name, description)), now));
    }

    /**
     Takes over a replicated state: the data is overwritten, the tables stay the local parts of the full
     ones, and the listeners left in the table get rows that take the old view to the new one.
     */
    method UpdateLocalState(state: NodeState) returns (report: seq<Row>)
      requires sids == LocalOnly(address, data.subscriptions) && rids == LocalOnly(address, data.listSubscriptions)
      modifies this`data, this`sids, this`rids, this`children, this`outbox
      ensures data == Overwrite(old(data), state)
      ensures sids == LocalOnly(address, data.subscriptions) && rids == LocalOnly(address, data.listSubscriptions)
      ensures children == old(children) - DeletedChildren(state)
      ensures Reports(report, state, old(data))
      ensures outbox == OutboxAfter(old(outbox), rids, sids, report, old(data), data)
    {
      var localSids, localRids, deleted, after;
      report, localSids, localRids, deleted, after := FoldUpdate(address, data, sids, rids, state);
      children := children - deleted;
      sids := localSids;
      rids := localRids;
      if report != [] {
        NotifyListActors(report);
      }
      if after.value != data.value {
        NotifySubscribeActors(if after.value.Some? then after.value.value else Str(""));
      }
      data := after;
    }

    method NotifyListActors(rows: seq<Row>)
      modifies this`outbox
      ensures outbox == old(outbox) + [ListUpdates(rids, rows)]
    {
      outbox := outbox + [ListUpdates(rids, rows)];
    }

    method NotifySubscribeActors(value: Val)
      modifies this`outbox
      ensures outbox == old(outbox) + [ValueUpdate(sids, value)]
    {
      outbox := outbox + [ValueUpdate(sids, value)];
    }

    method FlushStash()
      modifies this`toReplicator, this`stash, this`stateInitialized
      ensures toReplicator == old(toReplicator) + old(stash) && stash == [] && stateInitialized
    {
      for i := 0 to |stash|
        invariant stash == old(stash) && toReplicator == old(toReplicator) + stash[..i]
      {
        toReplicator := toReplicator + [stash[i]];
      }
      stash := [];
      stateInitialized := true;
    }

    method OnGetSuccess(state: NodeState) returns (report: seq<Row>)
      requires Valid()
      modifies this
      ensures Valid() && history == old(history) + [GetSuccess(state)]
      ensures children == old(children) - DeletedChildren(state)
      ensures Reports(report, state, old(data))
      ensures outbox == OutboxAfter(old(outbox), rids, sids, report, old(data), data)
    {
      report := UpdateLocalState(state);
      FlushStash();
      HandleOne(Fresh(initial), history, GetSuccess(state));
      history := history + [GetSuccess(state)];
    }

    method OnNotFound()
      requires Valid()
      modifies this
      ensures Valid() && history == old(history) + [NotFound]
      ensures outbox == old(outbox) && data == old(data) && children == old(children)
    {
      FlushStash();
      HandleOne(Fresh(initial), history, NotFound);
      history := history + [NotFound];
    }

    method OnChanged(state: NodeState) returns (report: seq<Row>)
      requires Valid()
      modifies this
      ensures Valid() && history == old(history) + [Changed(state)]
      ensures children == old(children) - DeletedChildren(state)
      ensures Reports(report, state, old(data))
      ensures outbox == OutboxAfter(old(outbox), rids, sids, report, old(data), data)
    {
      report := UpdateLocalState(state);
      HandleOne(Fresh(initial), history, Changed(state));
      history := history + [Changed(state)];
    }
  }
}

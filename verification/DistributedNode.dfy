/**
 A replicated node: it keeps plain local data and local subscriber tables, derived from each
 replicated state it is told of by a diff and a fold, and reports the differences to its listeners.
 */
module DistributedNode {
  import opened Collections
  import opened Dsa
  import opened ReplicatedState

  datatype NodeData = NodeData(
    value: Option<Val>,
    configs: map<string, Val>,
    attributes: map<string, Val>,
    subscriptions: map<int, ActorRef>,
    listSubscriptions: map<int, ActorRef>,
    children: map<string, Description>)

  /** The data a node starts with, before it is told of any replicated state. */
  function InitialData(description: Description, value: Val, name: string): NodeData {
    NodeData(
      Some(value),
      (map k | k in description.attrAndConf && IsConfigName(k) :: description.attrAndConf[k])["$name" := Str(name)],
      map k | k in description.attrAndConf && IsAttributeName(k) :: description.attrAndConf[k],
      map[], map[], map[])
  }

  datatype DiffSet<K(==), V> = DiffSet(created: map<K, V>, updated: map<K, V>, deleted: set<K>)

  function CollectDiffSet<K, V(==)>(newValues: map<K, Option<V>>, oldValues: map<K, V>): DiffSet<K, V> {
    DiffSet(
      map k | k in newValues && newValues[k].Some? && k !in oldValues :: newValues[k].value,
      map k | k in newValues && newValues[k].Some? && k in oldValues && oldValues[k] != newValues[k].value ::
        newValues[k].value,
      set k | k in newValues && newValues[k].None?)
  }

  function FoldDiff<K, V>(initial: map<K, V>, diff: DiffSet<K, V>): map<K, V> {
    var withNew := initial + diff.created;
    var withUpdated := withNew + diff.updated;
    withUpdated - diff.deleted
  }

  datatype DataDiff = DataDiff(
    valueDiff: Option<Option<Val>>,
    configsDiff: DiffSet<string, Val>,
    attributesDiff: DiffSet<string, Val>,
    subscriptionsDiff: DiffSet<int, ActorRef>,
    listSubscriptionsDiff: DiffSet<int, ActorRef>,
    childrenDiff: DiffSet<string, Description>)

  function CollectDiff(state: NodeState, data: NodeData): DataDiff {
    DataDiff(
      if state.value.value != data.value then Some(state.value.value) else None,
      CollectDiffSet(Values(state.configs), data.configs),
      CollectDiffSet(Values(state.attributes), data.attributes),
      CollectDiffSet(Values(state.subscriptions), data.subscriptions),
      CollectDiffSet(Values(state.listSubscriptions), data.listSubscriptions),
      CollectDiffSet(Values(state.children), data.children))
  }

  function NewDataFromDiff(data: NodeData, diff: DataDiff): NodeData {
    NodeData(
      if diff.valueDiff.Some? then diff.valueDiff.value else data.value,
      FoldDiff(data.configs, diff.configsDiff),
      FoldDiff(data.attributes, diff.attributesDiff),
      FoldDiff(data.subscriptions, diff.subscriptionsDiff),
      FoldDiff(data.listSubscriptions, diff.listSubscriptionsDiff),
      FoldDiff(data.children, diff.childrenDiff))
  }

  // ---- What diff and fold amount to: overwriting ----

  /** Every key of the new values is taken over, None removing it; other keys stay. */
  function OverwriteMap<K, V>(old_: map<K, V>, new_: map<K, Option<V>>): map<K, V> {
    map k | k in old_.Keys + new_.Keys && (k in new_ ==> new_[k].Some?) ::
      if k in new_ then new_[k].value else old_[k]
  }

  function Overwrite(data: NodeData, state: NodeState): NodeData {
    NodeData(
      state.value.value,
      OverwriteMap(data.configs, Values(state.configs)),
      OverwriteMap(data.attributes, Values(state.attributes)),
      OverwriteMap(data.subscriptions, Values(state.subscriptions)),
      OverwriteMap(data.listSubscriptions, Values(state.listSubscriptions)),
      OverwriteMap(data.children, Values(state.children)))
  }

  lemma FoldOfDiffOverwrites<K, V>(newValues: map<K, Option<V>>, oldValues: map<K, V>)
    ensures FoldDiff(oldValues, CollectDiffSet(newValues, oldValues)) == OverwriteMap(oldValues, newValues)
  {
    var folded := FoldDiff(oldValues, CollectDiffSet(newValues, oldValues));
    var expected := OverwriteMap(oldValues, newValues);
    forall k ensures k in folded <==> k in expected {}
    forall k <- folded ensures folded[k] == expected[k] {}
    EqualMaps(folded, expected);
  }

  /** Applying the diff is the same as overwriting the data with the state. */
  lemma DiffRefinesOverwrite(data: NodeData, state: NodeState)
    ensures NewDataFromDiff(data, CollectDiff(state, data)) == Overwrite(data, state)
  {
    FoldOfDiffOverwrites(Values(state.configs), data.configs);
    FoldOfDiffOverwrites(Values(state.attributes), data.attributes);
    FoldOfDiffOverwrites(Values(state.subscriptions), data.subscriptions);
    FoldOfDiffOverwrites(Values(state.listSubscriptions), data.listSubscriptions);
    FoldOfDiffOverwrites(Values(state.children), data.children);
  }

  lemma OverwriteMapTwice<K, V>(m: map<K, V>, a: map<K, Option<V>>, b: map<K, Option<V>>)
    requires a.Keys <= b.Keys
    ensures OverwriteMap(OverwriteMap(m, a), b) == OverwriteMap(m, b)
  {
    var twice, once := OverwriteMap(OverwriteMap(m, a), b), OverwriteMap(m, b);
    forall k ensures k in twice <==> k in once {
      assert k in a ==> k in b;
    }
    forall k <- twice ensures twice[k] == once[k] {
      assert k in a ==> k in b;
    }
    EqualMaps(twice, once);
  }

  /** Every key of one state is a key of the other: states only grow. */
  ghost predicate Grows(a: NodeState, b: NodeState) {
    && a.configs.Keys <= b.configs.Keys
    && a.attributes.Keys <= b.attributes.Keys
    && a.subscriptions.Keys <= b.subscriptions.Keys
    && a.listSubscriptions.Keys <= b.listSubscriptions.Keys
    && a.children.Keys <= b.children.Keys
  }

  /** Along growing states the last one alone decides. */
  lemma LatestStateWins(data: NodeData, a: NodeState, b: NodeState)
    requires Grows(a, b)
    ensures Overwrite(Overwrite(data, a), b) == Overwrite(data, b)
  {
    OverwriteMapTwice(data.configs, Values(a.configs), Values(b.configs));
    OverwriteMapTwice(data.attributes, Values(a.attributes), Values(b.attributes));
    OverwriteMapTwice(data.subscriptions, Values(a.subscriptions), Values(b.subscriptions));
    OverwriteMapTwice(data.listSubscriptions, Values(a.listSubscriptions), Values(b.listSubscriptions));
    OverwriteMapTwice(data.children, Values(a.children), Values(b.children));
  }

  // ---- The subscriber tables ----

  /** The entries whose reference lives in the node's own actor system. */
  function LocalOnly(address: string, refs: map<int, ActorRef>): map<int, ActorRef> {
    map id | id in refs && refs[id].address == address :: refs[id]
  }

  /** Folding a diff into the filtered table is filtering the folded table, also when a key changes sides. */
  lemma LocalTableFollows(address: string, newValues: map<int, Option<ActorRef>>, table: map<int, ActorRef>)
    ensures var diff := CollectDiffSet(newValues, table);
            LocalOnly(address, FoldDiff(LocalOnly(address, table), diff)) == LocalOnly(address, FoldDiff(table, diff))
  {
    var diff := CollectDiffSet(newValues, table);
    var a := LocalOnly(address, FoldDiff(LocalOnly(address, table), diff));
    var b := LocalOnly(address, FoldDiff(table, diff));
    forall k ensures (k in a <==> k in b) && (k in a ==> a[k] == b[k]) {
      FoldAt(newValues, table, LocalOnly(address, table), k);
    }
    EqualMaps(a, b);
  }

  /** One diff folded into two tables: at a key of the new values both are as new, elsewhere each as before. */
  lemma FoldAt<K, V>(newValues: map<K, Option<V>>, table: map<K, V>, other: map<K, V>, k: K)
    requires forall k <- other :: k in table && other[k] == table[k]
    ensures var diff := CollectDiffSet(newValues, table);
            var a, b := FoldDiff(other, diff), FoldDiff(table, diff);
            && (k in a ==> k in b && a[k] == b[k])
            && (k in b && k !in a ==> k in table && k !in other && b[k] == table[k])
  {}

  // ---- The report ----

  function ReportOf<V>(diff: DiffSet<string, V>, render: V -> Val): set<Row> {
    (set k | k in diff.created :: Upsert(k, render(diff.created[k])))
    + (set k | k in diff.updated :: Upsert(k, render(diff.updated[k])))
    + (set k | k in diff.deleted :: Remove(k))
  }

  function RenderValue(v: Val): Val { v }

  function RenderChild(d: Description): Val { Obj(d.attrAndConf) }

  function Report(diff: DataDiff): set<Row> {
    ReportOf(diff.configsDiff, RenderValue)
    + ReportOf(diff.attributesDiff, RenderValue)
    + ReportOf(diff.childrenDiff, RenderChild)
  }

  /** A table of values: what an update of it is, to somebody who knows the old one. */
  predicate IsNews<V(==)>(newValues: map<string, Option<V>>, table: map<string, V>, name: string) {
    name in newValues && newValues[name].Some? && (name !in table || table[name] != newValues[name].value)
  }

  predicate IsGone<V>(newValues: map<string, Option<V>>, name: string) {
    name in newValues && newValues[name].None?
  }

  lemma ReportOfIff<V>(newValues: map<string, Option<V>>, table: map<string, V>, render: V -> Val, row: Row)
    ensures row in ReportOf(CollectDiffSet(newValues, table), render)
            <==> if row.Remove? then IsGone(newValues, row.name)
                 else IsNews(newValues, table, row.name) && row.value == render(newValues[row.name].value)
  {
    var diff := CollectDiffSet(newValues, table);
    ReportComplete(diff, render, row.name);
    if row.Upsert? && IsNews(newValues, table, row.name) {
      assert row.name in diff.created || row.name in diff.updated;
      var value := render(newValues[row.name].value);
      assert row.value == value ==> row == Upsert(row.name, value);
    } else if row.Remove? {
      assert row == Remove(row.name);
    }
  }

  /**
   The rows of a report: one for each value that is new or has changed, one for each child that is new or has
   changed, with all its attributes and configs, and one for every name whose value is None; no others.
   */
  lemma ReportIff(state: NodeState, data: NodeData, row: Row)
    ensures row in Report(CollectDiff(state, data)) <==>
            || (row.Remove? && (IsGone(Values(state.configs), row.name) || IsGone(Values(state.attributes), row.name)
                                || IsGone(Values(state.children), row.name)))
            || (row.Upsert? && IsNews(Values(state.configs), data.configs, row.name)
                && Some(row.value) == state.configs[row.name].value)
            || (row.Upsert? && IsNews(Values(state.attributes), data.attributes, row.name)
                && Some(row.value) == state.attributes[row.name].value)
            || (row.Upsert? && IsNews(Values(state.children), data.children, row.name)
                && row.value == Obj(state.children[row.name].value.value.attrAndConf))
  {
    var diff := CollectDiff(state, data);
    ReportOfIff(Values(state.configs), data.configs, RenderValue, row);
    ReportOfIff(Values(state.attributes), data.attributes, RenderValue, row);
    ReportOfIff(Values(state.children), data.children, RenderChild, row);
    assert row in Report(diff) <==>
        row in ReportOf(diff.configsDiff, RenderValue) || row in ReportOf(diff.attributesDiff, RenderValue)
        || row in ReportOf(diff.childrenDiff, RenderChild);
  }

  /** What a listener that knows everything about the data knows. */
  function Render(data: NodeData): ListView {
    data.configs + data.attributes + (map k | k in data.children :: RenderChild(data.children[k]))
  }

  ghost predicate NamesApart<A, B, C>(configs: map<string, A>, attributes: map<string, B>, children: map<string, C>) {
    && (forall k <- configs :: IsConfigName(k))
    && (forall k <- attributes :: IsAttributeName(k))
    && (forall k <- children :: IsChildName(k))
  }

  ghost predicate DataNamesApart(data: NodeData) {
    NamesApart(data.configs, data.attributes, data.children)
  }

  ghost predicate StateNamesApart(state: NodeState) {
    NamesApart(state.configs, state.attributes, state.children)
  }

  /** The rows of one table, as they bear on a name: they say what the folded table says, or nothing. */
  lemma ReportRow<V>(newValues: map<string, Option<V>>, table: map<string, V>, render: V -> Val, row: Row)
    requires row in ReportOf(CollectDiffSet(newValues, table), render)
    ensures row.name in newValues
    ensures newValues[row.name].Some? ==> row == Upsert(row.name, render(newValues[row.name].value))
    ensures newValues[row.name].None? ==> row == Remove(row.name)
  {}

  lemma ReportSilent<V>(newValues: map<string, Option<V>>, table: map<string, V>, render: V -> Val, name: string)
    requires forall row <- ReportOf(CollectDiffSet(newValues, table), render) :: row.name != name
    ensures name in OverwriteMap(table, newValues) <==> name in table
    ensures name in table ==> OverwriteMap(table, newValues)[name] == table[name]
  {
    ReportComplete(CollectDiffSet(newValues, table), render, name);
  }

  lemma ReportComplete<V>(diff: DiffSet<string, V>, render: V -> Val, name: string)
    ensures name in diff.created ==> Upsert(name, render(diff.created[name])) in ReportOf(diff, render)
    ensures name in diff.updated ==> Upsert(name, render(diff.updated[name])) in ReportOf(diff, render)
    ensures name in diff.deleted ==> Remove(name) in ReportOf(diff, render)
  {}

  /** With the names apart, each name is looked up in its own table. */
  lemma RenderAt(data: NodeData, name: string)
    requires DataNamesApart(data)
    ensures IsConfigName(name) ==>
              && (name in Render(data) <==> name in data.configs)
              && (name in data.configs ==> Render(data)[name] == data.configs[name])
    ensures IsAttributeName(name) ==>
              && (name in Render(data) <==> name in data.attributes)
              && (name in data.attributes ==> Render(data)[name] == data.attributes[name])
    ensures IsChildName(name) ==>
              (name in Render(data) <==> name in data.children)
              && (name in data.children ==> Render(data)[name] == RenderChild(data.children[name]))
  {}

  /** Each row is about one table, and tells what the new data says there. */
  lemma RowTellsNewData(data: NodeData, state: NodeState, row: Row)
    requires DataNamesApart(data) && StateNamesApart(state)
    requires row in Report(CollectDiff(state, data))
    ensures Tells(row, Render(Overwrite(data, state)))
  {
    var diff := CollectDiff(state, data);
    OverwriteKeepsNamesApart(data, state);
    RenderAt(Overwrite(data, state), row.name);
    if row in ReportOf(diff.configsDiff, RenderValue) {
      ReportRow(Values(state.configs), data.configs, RenderValue, row);
    } else if row in ReportOf(diff.attributesDiff, RenderValue) {
      ReportRow(Values(state.attributes), data.attributes, RenderValue, row);
    } else {
      ReportRow(Values(state.children), data.children, RenderChild, row);
    }
  }

  /** A name without a row keeps what the old data said. */
  lemma SilenceKeepsOldData(data: NodeData, state: NodeState, name: string)
    requires DataNamesApart(data) && StateNamesApart(state)
    requires forall row <- Report(CollectDiff(state, data)) :: row.name != name
    ensures var before, after := Render(data), Render(Overwrite(data, state));
            if name in before then name in after && after[name] == before[name] else name !in after
  {
    ReportSilent(Values(state.configs), data.configs, RenderValue, name);
    ReportSilent(Values(state.attributes), data.attributes, RenderValue, name);
    ReportSilent(Values(state.children), data.children, RenderChild, name);
    RenderAt(data, name);
    OverwriteKeepsNamesApart(data, state);
    RenderAt(Overwrite(data, state), name);
  }

  /** However the rows of a report are ordered, they take the view of the old data to that of the new data. */
  lemma ReportLockstep(data: NodeData, state: NodeState, rows: seq<Row>)
    requires DataNamesApart(data) && StateNamesApart(state)
    requires RowSet(rows) == Report(CollectDiff(state, data))
    ensures ApplyRows(Render(data), rows) == Render(Overwrite(data, state))
  {
    var report, after := Report(CollectDiff(state, data)), Render(Overwrite(data, state));
    forall row <- report
      ensures Tells(row, after)
    {
      RowTellsNewData(data, state, row);
    }
    forall name | forall row <- report :: row.name != name
      ensures if name in Render(data) then name in after && after[name] == Render(data)[name] else name !in after
    {
      SilenceKeepsOldData(data, state, name);
    }
    ApplyRowsAnyOrder(Render(data), rows);
    PatchedIsUnique(Render(data), report, ApplyRows(Render(data), rows), after);
  }

  /** The names stay apart as the data follows the states. */
  lemma OverwriteKeepsNamesApart(data: NodeData, state: NodeState)
    requires DataNamesApart(data) && StateNamesApart(state)
    ensures DataNamesApart(Overwrite(data, state))
  {}
}

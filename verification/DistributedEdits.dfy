/** What a mutator call comes to in a replicated node's data, and what data a new node has. */
module DistributedEdits {
  import opened Collections
  import opened Dsa
  import opened ReplicatedState
  import opened DistributedNode
  import opened DistributedNodeActor
  import opened NodesRegistry

  /** The map with the pairs added in order, under prefixed names: a later pair replaces an earlier one. */
  function WithPairs(m: map<string, Val>, prefix: char, pairs: seq<(string, Val)>): map<string, Val> {
    if pairs == [] then m
    else
      var last := pairs[|pairs| - 1];
      WithPairs(m, prefix, pairs[..|pairs| - 1])[WithPrefix(prefix, last.0) := last.1]
  }

  /** The data as the mutator means it. */
  function Edited(d: NodeData, m: Mutation): NodeData {
    match m
    case SetValue(v) => d.(value := Some(v))
    case AddConfigs(cs) => d.(configs := WithPairs(d.configs, '$', cs))
    case RemoveConfig(name) => d.(configs := d.configs - {name})
    case AddAttributes(cs) => d.(attributes := WithPairs(d.attributes, '@', cs))
    case RemoveAttribute(name) => d.(attributes := d.attributes - {name})
    case AddChild(name, description) => d.(children := d.children[name := description])
    case RemoveChild(name) => d.(children := d.children - {name})
    case Subscribe(sid, ref) => d.(subscriptions := d.subscriptions[sid := ref])
    case Unsubscribe(sid) => d.(subscriptions := d.subscriptions - {sid})
    case List(rid, ref) => d.(listSubscriptions := d.listSubscriptions[rid := ref])
    case Unlist(rid) => d.(listSubscriptions := d.listSubscriptions - {rid})
  }

  function PutIn<K, V>(m: map<K, V>, k: K, value: Option<V>): map<K, V> {
    if value.Some? then m[k := value.value] else m - {k}
  }

  /** Writing a key of the replicated map, and overwriting the data by it, is changing the data's map. */
  lemma PutOverwrites<K, V>(old_: map<K, V>, m: LwwMap<K, Option<V>>, k: K, value: Option<V>, writer: nat, now: nat)
    ensures OverwriteMap(old_, Values(PutMap(m, k, value, writer, now)))
            == PutIn(OverwriteMap(old_, Values(m)), k, value)
  {
    var a := OverwriteMap(old_, Values(PutMap(m, k, value, writer, now)));
    var b := PutIn(OverwriteMap(old_, Values(m)), k, value);
    forall x ensures (x in a <==> x in b) && (x in a ==> a[x] == b[x]) {}
    EqualMaps(a, b);
  }

  lemma ConfigReaches(data: NodeData, s: NodeState, k: string, value: Option<Val>, writer: nat, now: nat)
    ensures var d := Overwrite(data, s);
            Overwrite(data, ApplyPut(s, PutConfig(k, value), writer, now)) == d.(configs := PutIn(d.configs, k, value))
  {
    PutOverwrites(data.configs, s.configs, k, value, writer, now);
  }

  lemma AttributeReaches(data: NodeData, s: NodeState, k: string, value: Option<Val>, writer: nat, now: nat)
    ensures var d := Overwrite(data, s);
            Overwrite(data, ApplyPut(s, PutAttribute(k, value), writer, now))
            == d.(attributes := PutIn(d.attributes, k, value))
  {
    PutOverwrites(data.attributes, s.attributes, k, value, writer, now);
  }

  lemma PutsOfOne(s: NodeState, p: Put, writer: nat, now: nat)
    ensures ApplyPuts(s, [p], writer, now) == ApplyPut(s, p, writer, now)
  {
    assert [p][..0] == [];
  }

  lemma {:induction false} ConfigsReach(data: NodeData, s: NodeState, cs: seq<(string, Val)>, writer: nat, now: nat)
    ensures Overwrite(data, ApplyPuts(s, PutsOf(AddConfigs(cs)), writer, now))
            == Edited(Overwrite(data, s), AddConfigs(cs))
  {
    if cs != [] {
      var front, last, puts := cs[..|cs| - 1], cs[|cs| - 1], PutsOf(AddConfigs(cs));
      ConfigsReach(data, s, front, writer, now);
      assert puts[..|puts| - 1] == PutsOf(AddConfigs(front));
      ConfigReaches(data, ApplyPuts(s, PutsOf(AddConfigs(front)), writer, now), WithPrefix('$', last.0), Some(last.1),
                    writer, now);
    }
  }

  lemma {:induction false} AttributesReach(data: NodeData, s: NodeState, cs: seq<(string, Val)>, writer: nat, now: nat)
    ensures Overwrite(data, ApplyPuts(s, PutsOf(AddAttributes(cs)), writer, now))
            == Edited(Overwrite(data, s), AddAttributes(cs))
  {
    if cs != [] {
      var front, last, puts := cs[..|cs| - 1], cs[|cs| - 1], PutsOf(AddAttributes(cs));
      AttributesReach(data, s, front, writer, now);
      assert puts[..|puts| - 1] == PutsOf(AddAttributes(front));
      AttributeReaches(data, ApplyPuts(s, PutsOf(AddAttributes(front)), writer, now), WithPrefix('@', last.0),
                       Some(last.1), writer, now);
    }
  }

  lemma OneReaches(data: NodeData, s: NodeState, m: Mutation, writer: nat, now: nat)
    requires |PutsOf(m)| == 1 && !m.AddConfigs? && !m.AddAttributes?
    ensures Overwrite(data, ApplyPut(s, PutsOf(m)[0], writer, now)) == Edited(Overwrite(data, s), m)
  {
    match m
    case SetValue(_) =>
    case RemoveConfig(name) => ConfigReaches(data, s, name, None, writer, now);
    case RemoveAttribute(name) => AttributeReaches(data, s, name, None, writer, now);
    case AddChild(name, d) => PutOverwrites(data.children, s.children, name, Some(d), writer, now);
    case RemoveChild(name) => PutOverwrites(data.children, s.children, name, None, writer, now);
    case Subscribe(sid, ref) => PutOverwrites(data.subscriptions, s.subscriptions, sid, Some(ref), writer, now);
    case Unsubscribe(sid) => PutOverwrites(data.subscriptions, s.subscriptions, sid, None, writer, now);
    case List(rid, ref) => PutOverwrites(data.listSubscriptions, s.listSubscriptions, rid, Some(ref), writer, now);
    case Unlist(rid) => PutOverwrites(data.listSubscriptions, s.listSubscriptions, rid, None, writer, now);
  }

  /** The data overwritten by a state with the edit applied is the data overwritten by the state, edited as meant. */
  lemma EditReachesData(data: NodeData, s: NodeState, m: Mutation, writer: nat, now: nat)
    ensures Overwrite(data, ApplyPuts(s, PutsOf(m), writer, now)) == Edited(Overwrite(data, s), m)
  {
    match m
    case AddConfigs(cs) => ConfigsReach(data, s, cs, writer, now);
    case AddAttributes(cs) => AttributesReach(data, s, cs, writer, now);
    case _ =>
      PutsOfOne(s, PutsOf(m)[0], writer, now);
      OneReaches(data, s, m, writer, now);
  }

  // ---- New nodes ----

  /** A new node has its name, and the configs and attributes of its description, sorted out by their prefix. */
  lemma InitialDataMeaning(description: Description, value: Val, name: string)
    ensures var d, given := InitialData(description, value, name), description.attrAndConf;
            && d.value == Some(value)
            && (forall k :: k in d.configs <==> k == "$name" || (k in given && |k| > 0 && k[0] == '$'))
            && (forall k <- d.configs :: d.configs[k] == if k == "$name" then Str(name) else given[k])
            && (forall k :: k in d.attributes <==> k in given && |k| > 0 && k[0] == '@')
            && (forall k <- d.attributes :: d.attributes[k] == given[k])
            && d.subscriptions == map[] && d.listSubscriptions == map[] && d.children == map[]
  {}

  /** An ancestor that is created only because a descendant needs it is an empty node of profile "node". */
  lemma DefaultNode(path: string, name: string)
    ensures var description := DefaultDescription(path);
            var d := InitialData(description, description.value, name);
            && description.path == path && d.value == Some(Str("")) && d.attributes == map[]
            && d.configs == map["$is" := Str("node"), "$name" := Str(name)]
  {}
}

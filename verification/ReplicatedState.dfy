/**
 The replicated state of a distributed node: one last-writer-wins register and five
 last-writer-wins maps, in which a deletion is the value None. Keys are never removed.
 */
module ReplicatedState {
  import opened Collections
  import opened Dsa

  /** A register value with the time and the cluster node of its write. */
  datatype Entry<+V> = Entry(time: nat, writer: nat, value: V)

  /** a is the later write: by time, and on equal times by the lower node address. */
  predicate Newer<V>(a: Entry<V>, b: Entry<V>) {
    a.time > b.time || (a.time == b.time && a.writer < b.writer)
  }

  function MergeEntry<V>(a: Entry<V>, b: Entry<V>): Entry<V> {
    if Newer(b, a) then b else a
  }

  type LwwMap<K(==), +V> = map<K, Entry<V>>

  function MergeMap<K, V>(a: LwwMap<K, V>, b: LwwMap<K, V>): (m: LwwMap<K, V>)
    ensures m.Keys == a.Keys + b.Keys
  {
    map k | k in a.Keys + b.Keys ::
      if k !in b then a[k] else if k !in a then b[k] else MergeEntry(a[k], b[k])
  }

  /** Writes a key: the clock passes both the wall clock and the time of the entry it replaces. */
  function PutMap<K, V>(m: LwwMap<K, V>, k: K, value: V, writer: nat, now: nat): LwwMap<K, V> {
    m[k := Stamped(if k in m then m[k].time else 0, value, writer, now)]
  }

  function Stamped<V>(replaced: nat, value: V, writer: nat, now: nat): Entry<V> {
    Entry(if now > replaced then now else replaced + 1, writer, value)
  }

  /** The values of a map without their stamps. */
  function Values<K, V>(m: LwwMap<K, V>): map<K, V> {
    map k | k in m :: m[k].value
  }

  datatype NodeState = NodeState(
    value: Entry<Option<Val>>,
    configs: LwwMap<string, Option<Val>>,
    attributes: LwwMap<string, Option<Val>>,
    subscriptions: LwwMap<int, Option<ActorRef>>,
    listSubscriptions: LwwMap<int, Option<ActorRef>>,
    children: LwwMap<string, Option<Description>>)

  function Merge(a: NodeState, b: NodeState): NodeState {
    NodeState(
      MergeEntry(a.value, b.value),
      MergeMap(a.configs, b.configs),
      MergeMap(a.attributes, b.attributes),
      MergeMap(a.subscriptions, b.subscriptions),
      MergeMap(a.listSubscriptions, b.listSubscriptions),
      MergeMap(a.children, b.children))
  }

  /** The state an update starts from when its replica has none: a None value stamped when the edit is issued. */
  function Empty(writer: nat, now: nat): NodeState {
    NodeState(Stamped(0, None, writer, now), map[], map[], map[], map[], map[])
  }

  /** One write of an edit; a removal writes None. */
  datatype Put =
    | PutValue(value: Option<Val>)
    | PutConfig(name: string, value: Option<Val>)
    | PutAttribute(name: string, value: Option<Val>)
    | PutSubscription(id: int, ref: Option<ActorRef>)
    | PutListener(id: int, ref: Option<ActorRef>)
    | PutChild(name: string, description: Option<Description>)

  /** An edit as it is sent to the replicator: its writes, and the time at which it was issued. */
  datatype Edit = Edit(puts: seq<Put>, issuedAt: nat)

  function ApplyPut(s: NodeState, p: Put, writer: nat, now: nat): NodeState {
    match p
    case PutValue(v) => s.(value := Stamped(s.value.time, v, writer, now))
    case PutConfig(k, v) => s.(configs := PutMap(s.configs, k, v, writer, now))
    case PutAttribute(k, v) => s.(attributes := PutMap(s.attributes, k, v, writer, now))
    case PutSubscription(k, v) => s.(subscriptions := PutMap(s.subscriptions, k, v, writer, now))
    case PutListener(k, v) => s.(listSubscriptions := PutMap(s.listSubscriptions, k, v, writer, now))
    case PutChild(k, v) => s.(children := PutMap(s.children, k, v, writer, now))
  }

  function ApplyPuts(s: NodeState, puts: seq<Put>, writer: nat, now: nat): NodeState {
    if puts == [] then s
    else ApplyPut(ApplyPuts(s, puts[..|puts| - 1], writer, now), puts[|puts| - 1], writer, now)
  }

  // ---- The six components as one table of slots ----

  datatype Slot = ValueSlot | ConfigSlot(name: string) | AttributeSlot(name: string)
                | SubscriptionSlot(id: int) | ListenerSlot(id: int) | ChildSlot(name: string)

  datatype Content =
    | OfVal(val: Option<Val>)
    | OfRef(ref: Option<ActorRef>)
    | OfDescription(description: Option<Description>)

  function Lift<V>(e: Entry<V>, f: V -> Content): Entry<Content> {
    Entry(e.time, e.writer, f(e.value))
  }

  predicate HasSlot(s: NodeState, slot: Slot) {
    match slot
    case ValueSlot => true
    case ConfigSlot(k) => k in s.configs
    case AttributeSlot(k) => k in s.attributes
    case SubscriptionSlot(k) => k in s.subscriptions
    case ListenerSlot(k) => k in s.listSubscriptions
    case ChildSlot(k) => k in s.children
  }

  function EntryAt(s: NodeState, slot: Slot): Entry<Content>
    requires HasSlot(s, slot)
  {
    match slot
    case ValueSlot => Lift(s.value, v => OfVal(v))
    case ConfigSlot(k) => Lift(s.configs[k], v => OfVal(v))
    case AttributeSlot(k) => Lift(s.attributes[k], v => OfVal(v))
    case SubscriptionSlot(k) => Lift(s.subscriptions[k], v => OfRef(v))
    case ListenerSlot(k) => Lift(s.listSubscriptions[k], v => OfRef(v))
    case ChildSlot(k) => Lift(s.children[k], v => OfDescription(v))
  }

  function SlotOf(p: Put): Slot {
    match p
    case PutValue(_) => ValueSlot
    case PutConfig(k, _) => ConfigSlot(k)
    case PutAttribute(k, _) => AttributeSlot(k)
    case PutSubscription(k, _) => SubscriptionSlot(k)
    case PutListener(k, _) => ListenerSlot(k)
    case PutChild(k, _) => ChildSlot(k)
  }

  function ContentOf(p: Put): Content {
    match p
    case PutValue(v) => OfVal(v)
    case PutConfig(_, v) => OfVal(v)
    case PutAttribute(_, v) => OfVal(v)
    case PutSubscription(_, v) => OfRef(v)
    case PutListener(_, v) => OfRef(v)
    case PutChild(_, v) => OfDescription(v)
  }

  lemma PutAt(s: NodeState, p: Put, writer: nat, now: nat)
    ensures var t := ApplyPut(s, p, writer, now);
            && (forall slot :: HasSlot(t, slot) <==> slot == SlotOf(p) || HasSlot(s, slot))
            && (forall slot | slot != SlotOf(p) && HasSlot(s, slot) :: EntryAt(t, slot) == EntryAt(s, slot))
            && EntryAt(t, SlotOf(p)) ==
               Stamped(if HasSlot(s, SlotOf(p)) then EntryAt(s, SlotOf(p)).time else 0, ContentOf(p), writer, now)
  {}

  lemma MergeAt(a: NodeState, b: NodeState, slot: Slot)
    ensures HasSlot(Merge(a, b), slot) <==> HasSlot(a, slot) || HasSlot(b, slot)
    ensures HasSlot(Merge(a, b), slot) ==>
              EntryAt(Merge(a, b), slot) ==
              if !HasSlot(b, slot) then EntryAt(a, slot) else if !HasSlot(a, slot) then EntryAt(b, slot)
              else MergeEntry(EntryAt(a, slot), EntryAt(b, slot))
  {}

  lemma EqualMaps<K, V>(a: map<K, V>, b: map<K, V>)
    requires forall k :: k in a <==> k in b
    requires forall k <- a :: a[k] == b[k]
    ensures a == b
  {}

  /** A state is determined by its slots. */
  lemma SlotsDetermineState(a: NodeState, b: NodeState)
    requires forall slot :: HasSlot(a, slot) <==> HasSlot(b, slot)
    requires forall slot | HasSlot(a, slot) :: EntryAt(a, slot) == EntryAt(b, slot)
    ensures a == b
  {
    assert EntryAt(a, ValueSlot) == EntryAt(b, ValueSlot);
    forall k ensures k in a.configs <==> k in b.configs {
      assert HasSlot(a, ConfigSlot(k)) <==> HasSlot(b, ConfigSlot(k));
    }
    forall k ensures k in a.attributes <==> k in b.attributes {
      assert HasSlot(a, AttributeSlot(k)) <==> HasSlot(b, AttributeSlot(k));
    }
    forall k ensures k in a.subscriptions <==> k in b.subscriptions {
      assert HasSlot(a, SubscriptionSlot(k)) <==> HasSlot(b, SubscriptionSlot(k));
    }
    forall k ensures k in a.listSubscriptions <==> k in b.listSubscriptions {
      assert HasSlot(a, ListenerSlot(k)) <==> HasSlot(b, ListenerSlot(k));
    }
    forall k ensures k in a.children <==> k in b.children {
      assert HasSlot(a, ChildSlot(k)) <==> HasSlot(b, ChildSlot(k));
    }
    forall k <- a.configs ensures a.configs[k] == b.configs[k] {
      assert EntryAt(a, ConfigSlot(k)) == EntryAt(b, ConfigSlot(k));
    }
    forall k <- a.attributes ensures a.attributes[k] == b.attributes[k] {
      assert EntryAt(a, AttributeSlot(k)) == EntryAt(b, AttributeSlot(k));
    }
    forall k <- a.subscriptions ensures a.subscriptions[k] == b.subscriptions[k] {
      assert EntryAt(a, SubscriptionSlot(k)) == EntryAt(b, SubscriptionSlot(k));
    }
    forall k <- a.listSubscriptions ensures a.listSubscriptions[k] == b.listSubscriptions[k] {
      assert EntryAt(a, ListenerSlot(k)) == EntryAt(b, ListenerSlot(k));
    }
    forall k <- a.children ensures a.children[k] == b.children[k] {
      assert EntryAt(a, ChildSlot(k)) == EntryAt(b, ChildSlot(k));
    }
    EqualMaps(a.configs, b.configs);
    EqualMaps(a.attributes, b.attributes);
    EqualMaps(a.subscriptions, b.subscriptions);
    EqualMaps(a.listSubscriptions, b.listSubscriptions);
    EqualMaps(a.children, b.children);
  }

  // ---- What a state absorbed ----

  datatype Write = Write(slot: Slot, entry: Entry<Content>)

  /** s is the outcome of the writes: each slot written holds its newest write, and no other slot exists. */
  ghost predicate Absorbed(s: NodeState, writes: set<Write>) {
    && (forall slot | HasSlot(s, slot) :: Write(slot, EntryAt(s, slot)) in writes)
    && (forall w <- writes ::
          HasSlot(s, w.slot) && (EntryAt(s, w.slot) == w.entry || Newer(EntryAt(s, w.slot), w.entry)))
  }

  predicate SameStamp(v: Write, w: Write) {
    v.slot == w.slot && v.entry.time == w.entry.time && v.entry.writer == w.entry.writer
  }

  /** A write is identified by its slot, time and writer. */
  ghost predicate Coherent(writes: set<Write>) {
    forall v <- writes, w <- writes :: SameStamp(v, w) ==> v == w
  }

  /** The same writes give the same state, in whatever order and however often they arrived. */
  lemma SameWritesSameState(a: NodeState, b: NodeState, writes: set<Write>)
    requires Absorbed(a, writes) && Absorbed(b, writes)
    ensures a == b
  {
    forall slot ensures HasSlot(a, slot) <==> HasSlot(b, slot) {
      assert HasSlot(a, slot) ==> Write(slot, EntryAt(a, slot)) in writes;
      assert HasSlot(b, slot) ==> Write(slot, EntryAt(b, slot)) in writes;
    }
    forall slot | HasSlot(a, slot) ensures EntryAt(a, slot) == EntryAt(b, slot) {
      assert Write(slot, EntryAt(a, slot)) in writes && Write(slot, EntryAt(b, slot)) in writes;
    }
    SlotsDetermineState(a, b);
  }

  /** Merging absorbs the writes of both sides. */
  lemma MergeAbsorbs(a: NodeState, va: set<Write>, b: NodeState, vb: set<Write>)
    requires Absorbed(a, va) && Absorbed(b, vb) && Coherent(va + vb)
    ensures Absorbed(Merge(a, b), va + vb)
  {
    var m := Merge(a, b);
    forall slot | HasSlot(m, slot) ensures Write(slot, EntryAt(m, slot)) in va + vb {
      MergeAt(a, b, slot);
      assert HasSlot(a, slot) ==> Write(slot, EntryAt(a, slot)) in va;
      assert HasSlot(b, slot) ==> Write(slot, EntryAt(b, slot)) in vb;
    }
    forall w <- va + vb
      ensures HasSlot(m, w.slot) && (EntryAt(m, w.slot) == w.entry || Newer(EntryAt(m, w.slot), w.entry))
    {
      MergeAt(a, b, w.slot);
      assert HasSlot(a, w.slot) ==> Write(w.slot, EntryAt(a, w.slot)) in va + vb;
      assert HasSlot(b, w.slot) ==> Write(w.slot, EntryAt(b, w.slot)) in va + vb;
    }
  }

  /** A local write is newer than what it replaces, and is absorbed. */
  lemma PutAbsorbs(s: NodeState, writes: set<Write>, p: Put, writer: nat, now: nat)
    requires Absorbed(s, writes)
    ensures var t := ApplyPut(s, p, writer, now);
            && HasSlot(t, SlotOf(p))
            && Absorbed(t, writes + {Write(SlotOf(p), EntryAt(t, SlotOf(p)))})
            && (forall w <- writes :: w.slot == SlotOf(p) ==> w.entry.time < EntryAt(t, SlotOf(p)).time)
            && EntryAt(t, SlotOf(p)).writer == writer
  {
    PutAt(s, p, writer, now);
    var t, slot := ApplyPut(s, p, writer, now), SlotOf(p);
    var w' := Write(slot, EntryAt(t, slot));
    forall w <- writes ensures w.slot == slot ==> w.entry.time < w'.entry.time {
      assert HasSlot(s, w.slot) && (EntryAt(s, w.slot) == w.entry || Newer(EntryAt(s, w.slot), w.entry));
    }
    forall k | HasSlot(t, k) ensures Write(k, EntryAt(t, k)) in writes + {w'} {
      if k != slot {
        assert HasSlot(s, k);
      }
    }
  }

  lemma EmptyAbsorbs(writer: nat, now: nat)
    ensures HasSlot(Empty(writer, now), ValueSlot)
    ensures Absorbed(Empty(writer, now), {Write(ValueSlot, EntryAt(Empty(writer, now), ValueSlot))})
    ensures EntryAt(Empty(writer, now), ValueSlot).writer == writer
  {}

  /** A larger set of writes gives a state with at least the keys of the smaller one. */
  lemma MoreWritesMoreSlots(a: NodeState, va: set<Write>, b: NodeState, vb: set<Write>)
    requires Absorbed(a, va) && Absorbed(b, vb) && va <= vb
    ensures forall slot | HasSlot(a, slot) :: HasSlot(b, slot)
  {
    forall slot | HasSlot(a, slot) ensures HasSlot(b, slot) {
      assert Write(slot, EntryAt(a, slot)) in vb;
    }
  }

  // ---- The value that an edit of another property erases ----

  lemma {:induction false} PutsKeepValue(s: NodeState, puts: seq<Put>, writer: nat, now: nat)
    requires forall p <- puts :: !p.PutValue?
    ensures ApplyPuts(s, puts, writer, now).value == s.value
  {
    if puts != [] {
      PutsKeepValue(s, puts[..|puts| - 1], writer, now);
      assert puts[|puts| - 1] in puts;
    }
  }

  /**
   A replica that has no state yet starts its first edit from Empty, whose None value is stamped like a write.
   Whatever else the edit writes: merged with a state whose value was set, that value survives if and only if
   its stamp is the newer one, or it was None anyway.
   */
  lemma FreshReplicaErasesValue(a: NodeState, puts: seq<Put>, writer: nat, issuedAt: nat, now: nat)
    requires (forall p <- puts :: !p.PutValue?) && a.value.writer != writer
    ensures var b := ApplyPuts(Empty(writer, issuedAt), puts, writer, now);
            Merge(a, b).value.value == a.value.value
            <==> a.value.value == None || Newer(a.value, Empty(writer, issuedAt).value)
  {
    PutsKeepValue(Empty(writer, issuedAt), puts, writer, now);
  }
}

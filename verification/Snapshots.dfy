/**
 The snapshot protocol of a link: snapshots of the cached layer states are saved asynchronously, and each
 success deletes the journal up to it and the snapshots well before it.
 */
module Snapshots {
  import opened Collections
  import opened RequesterTables
  import opened DurableState

  /** The composite snapshot; a layer that was never cached is missing (null) in it. */
  datatype Content = Content(base: Option<BaseState>, tables: Option<Tables>)

  datatype Metadata = Metadata(seqNr: nat, timestamp: nat)

  datatype Command = DeleteMessages(toSeqNr: nat) | DeleteSnapshots(maxSeqNr: int, maxTimestamp: nat)

  /** What a success reply makes the link ask for. */
  function CommandsAfter(keep: int, interval: int, m: Metadata): set<Command> {
    {DeleteMessages(m.seqNr), DeleteSnapshots(m.seqNr - keep * interval, m.timestamp)}
  }

  /** A snapshot is taken only at positive multiples of the interval, and never when it is not positive. */
  predicate Due(interval: int, lastSeqNr: nat) {
    interval > 0 && lastSeqNr != 0 && lastSeqNr % interval == 0
  }

  // ---- The link's side ----

  datatype Effect = Save(seqNr: nat, content: Content) | Ask(commands: set<Command>)

  class DSLinkStateSnapshotter {
    const keep: int
    const interval: int
    var baseState: Option<BaseState>
    var requesterState: Option<Tables>
    var effects: seq<Effect>

    constructor (keep: int, interval: int)
      ensures this.keep == keep && this.interval == interval
      ensures baseState == None && requesterState == None && effects == []
    {
      this.keep, this.interval := keep, interval;
      baseState, requesterState, effects := None, None, [];
    }

    function CachedContent(): Content
      reads this
    {
      Content(baseState, requesterState)
    }

    method SaveBase(state: BaseState, lastSeqNr: nat)
      modifies this
      ensures baseState == (if interval > 0 then Some(state) else old(baseState))
              && requesterState == old(requesterState)
      ensures effects == (if Due(interval, lastSeqNr)
                          then old(effects) + [Save(lastSeqNr, Content(baseState, requesterState))] else old(effects))
    {
      if interval > 0 {
        baseState := Some(state);
        TryToSaveSnapshot(lastSeqNr);
      }
    }

    method SaveRequester(tables: Tables, lastSeqNr: nat)
      modifies this
      ensures requesterState == (if interval > 0 then Some(tables) else old(requesterState))
              && baseState == old(baseState)
      ensures effects == (if Due(interval, lastSeqNr)
                          then old(effects) + [Save(lastSeqNr, Content(baseState, requesterState))] else old(effects))
    {
      if interval > 0 {
        requesterState := Some(tables);
        TryToSaveSnapshot(lastSeqNr);
      }
    }

    method TryToSaveSnapshot(lastSeqNr: nat)
      requires interval > 0
      modifies this`effects
      ensures effects == (if Due(interval, lastSeqNr)
                          then old(effects) + [Save(lastSeqNr, Content(baseState, requesterState))] else old(effects))
    {
      if lastSeqNr != 0 && lastSeqNr % interval == 0 {
        effects := effects + [Save(lastSeqNr, Content(baseState, requesterState))];
      }
    }

    method OnSaveSuccess(m: Metadata)
      modifies this`effects
      ensures effects == old(effects) + [Ask(CommandsAfter(keep, interval, m))]
    {
      effects := effects + [Ask({DeleteMessages(m.seqNr), DeleteSnapshots(m.seqNr - keep * interval, m.timestamp)})];
    }
  }

  // ---- The store's side: everything asked for may happen late, in any order, repeatedly, or never ----

  datatype Store = Store(
    events: seq<LinkEvent>,               // every event ever persisted; number k is events[k - 1]
    journal: map<nat, LinkEvent>,         // those still stored
    saving: set<(Metadata, Content)>,     // snapshots asked to be saved
    saved: set<Metadata>,                 // every snapshot ever saved
    snapshots: map<Metadata, Content>,    // those still stored
    commands: set<Command>)               // deletions asked for

  const NEW_STORE := Store([], map[], {}, {}, map[], {})

  datatype Action =
    | Persist(event: LinkEvent)
    | RequestSave(metadata: Metadata, content: Content)
    | CompleteSave(metadata: Metadata, content: Content)
    | ReceiveSuccess(metadata: Metadata)
    | Execute(command: Command)

  function ExecuteCommand(s: Store, c: Command): Store {
    match c
    case DeleteMessages(n) => s.(journal := map k | k in s.journal && k > n :: s.journal[k])
    case DeleteSnapshots(n, ts) =>
      s.(snapshots := map m | m in s.snapshots && !(m.seqNr <= n && m.timestamp <= ts) :: s.snapshots[m])
  }

  /** Failed saves and deletions, and replies lost in a restart, are actions that never come. */
  function Step(keep: int, interval: int, s: Store, a: Action): Store {
    match a
    case Persist(e) => s.(events := s.events + [e], journal := s.journal[|s.events| + 1 := e])
    case RequestSave(m, c) =>
      if Due(interval, m.seqNr) && m.seqNr <= |s.events| then s.(saving := s.saving + {(m, c)}) else s
    case CompleteSave(m, c) =>
      if (m, c) in s.saving then s.(saved := s.saved + {m}, snapshots := s.snapshots[m := c]) else s
    case ReceiveSuccess(m) =>
      if m in s.saved then s.(commands := s.commands + CommandsAfter(keep, interval, m)) else s
    case Execute(c) => if c in s.commands then ExecuteCommand(s, c) else s
  }

  function Run(keep: int, interval: int, actions: seq<Action>): Store {
    if actions == [] then NEW_STORE
    else Step(keep, interval, Run(keep, interval, actions[..|actions| - 1]), actions[|actions| - 1])
  }

  /** No snapshot was saved with a higher number. */
  ghost predicate IsNewest(s: Store, m: Metadata) {
    m in s.saved && forall o <- s.saved :: o.seqNr <= m.seqNr
  }

  ghost predicate NewerThanSaved(s: Store, k: nat) {
    forall m <- s.saved :: m.seqNr < k
  }

  /** The newest snapshot ever saved is still stored, and so is every event after it. */
  ghost predicate Recoverable(s: Store) {
    && (forall m :: IsNewest(s, m) ==> m in s.snapshots)
    && (forall k: nat :: 1 <= k <= |s.events| && NewerThanSaved(s, k) ==> k in s.journal)
  }

  /** The command spares the snapshot and the events after it. */
  predicate Spares(c: Command, m: Metadata) {
    match c
    case DeleteMessages(n) => n <= m.seqNr
    case DeleteSnapshots(n, _) => n < m.seqNr
  }

  ghost predicate SparesSome(c: Command, saved: set<Metadata>) {
    exists m <- saved :: Spares(c, m)
  }

  ghost predicate StoreInv(s: Store) {
    && Recoverable(s)
    && (forall k <- s.journal :: 1 <= k <= |s.events| && s.journal[k] == s.events[k - 1])
    && (forall p <- s.saving :: 1 <= p.0.seqNr <= |s.events|)
    && (forall m <- s.saved :: 1 <= m.seqNr <= |s.events|)
    && s.snapshots.Keys <= s.saved
    && (forall c <- s.commands :: SparesSome(c, s.saved))
  }

  lemma CompleteSaveKeepsInv(s: Store, m: Metadata, c: Content)
    requires StoreInv(s) && (m, c) in s.saving
    ensures StoreInv(s.(saved := s.saved + {m}, snapshots := s.snapshots[m := c]))
  {
    var t := s.(saved := s.saved + {m}, snapshots := s.snapshots[m := c]);
    forall o | IsNewest(t, o) ensures o in t.snapshots {
      if o != m {
        assert IsNewest(s, o);
      }
    }
    forall k: nat | 1 <= k <= |t.events| && NewerThanSaved(t, k) ensures k in t.journal {
      assert NewerThanSaved(s, k);
    }
    forall c <- t.commands ensures SparesSome(c, t.saved) {
      assert SparesSome(c, s.saved);
    }
  }

  lemma CommandsSpare(keep: int, interval: int, m: Metadata, c: Command)
    requires keep >= 1 && interval >= 1 && c in CommandsAfter(keep, interval, m)
    ensures Spares(c, m)
  {
    assert keep * interval >= 1;
  }

  lemma ExecuteKeepsInv(s: Store, c: Command)
    requires StoreInv(s) && c in s.commands
    ensures StoreInv(ExecuteCommand(s, c))
  {
    var t := ExecuteCommand(s, c);
    assert SparesSome(c, s.saved);
    var spared :| spared in s.saved && Spares(c, spared);
    forall m | IsNewest(t, m) ensures m in t.snapshots {
      assert IsNewest(s, m);
      assert spared.seqNr <= m.seqNr;
    }
    forall k: nat | 1 <= k <= |t.events| && NewerThanSaved(t, k) ensures k in t.journal {
      assert NewerThanSaved(s, k);
      assert spared.seqNr < k;
    }
  }

  lemma PersistKeepsInv(s: Store, e: LinkEvent)
    requires StoreInv(s)
    ensures StoreInv(s.(events := s.events + [e], journal := s.journal[|s.events| + 1 := e]))
  {
    var t := s.(events := s.events + [e], journal := s.journal[|s.events| + 1 := e]);
    forall m | IsNewest(t, m) ensures m in t.snapshots {
      assert IsNewest(s, m);
    }
    forall k: nat | 1 <= k <= |t.events| && NewerThanSaved(t, k) ensures k in t.journal {
      assert NewerThanSaved(s, k);
    }
  }

  lemma SameFiles(s: Store, t: Store)
    requires StoreInv(s) && t == s.(saving := t.saving, commands := t.commands)
    requires forall p <- t.saving :: 1 <= p.0.seqNr <= |s.events|
    requires forall c <- t.commands :: SparesSome(c, s.saved)
    ensures StoreInv(t)
  {
    forall m | IsNewest(t, m) ensures m in t.snapshots {
      assert IsNewest(s, m);
    }
    forall k: nat | 1 <= k <= |t.events| && NewerThanSaved(t, k) ensures k in t.journal {
      assert NewerThanSaved(s, k);
    }
  }

  lemma StepKeepsInv(keep: int, interval: int, s: Store, a: Action)
    requires keep >= 1 && interval >= 1 && StoreInv(s)
    ensures StoreInv(Step(keep, interval, s, a))
  {
    match a
    case Persist(e) => PersistKeepsInv(s, e);
    case RequestSave(m, c) => SameFiles(s, Step(keep, interval, s, a));
    case CompleteSave(m, c) =>
      if (m, c) in s.saving {
        CompleteSaveKeepsInv(s, m, c);
      }
    case ReceiveSuccess(m) =>
      if m in s.saved {
        forall c <- CommandsAfter(keep, interval, m) ensures SparesSome(c, s.saved) {
          CommandsSpare(keep, interval, m, c);
        }
        SameFiles(s, Step(keep, interval, s, a));
      }
    case Execute(c) =>
      if c in s.commands {
        ExecuteKeepsInv(s, c);
      }
  }

  /**
   In every interleaving of persists, saves that succeed late or never, and the deletions they trigger, the
   newest snapshot ever saved stays stored, and every event after it stays in the journal.
   */
  lemma {:induction false} SnapshotsAndJournalSafe(keep: int, interval: int, actions: seq<Action>)
    requires keep >= 1 && interval >= 1
    ensures StoreInv(Run(keep, interval, actions))
  {
    if actions != [] {
      SnapshotsAndJournalSafe(keep, interval, actions[..|actions| - 1]);
      StepKeepsInv(keep, interval, Run(keep, interval, actions[..|actions| - 1]), actions[|actions| - 1]);
    }
  }

  // ---- Recovery ----

  /** Recovering from a snapshot leaves the layers that are missing in it as they start. */
  function Restore(c: Content): Durable {
    Durable(if c.base.Some? then c.base.value else NO_BASE, if c.tables.Some? then c.tables.value else NO_TABLES)
  }

  /** The snapshot recovery offers: one of the highest number among those stored. */
  ghost predicate IsLatest(s: Store, m: Metadata) {
    m in s.snapshots && forall o <- s.snapshots :: o.seqNr <= m.seqNr
  }

  /** The events recovery replays: those stored after a sequence number, in order. */
  function Suffix(s: Store, from: nat): (r: seq<LinkEvent>)
    requires from <= |s.events|
    requires forall k: nat :: from < k <= |s.events| ==> k in s.journal
  {
    seq(|s.events| - from, i requires 0 <= i < |s.events| - from => s.journal[from + 1 + i])
  }

  /** Whichever latest snapshot recovery picks, its number is the newest ever saved and the suffix is complete. */
  lemma LatestIsNewest(s: Store, m: Metadata)
    requires StoreInv(s) && IsLatest(s, m)
    ensures IsNewest(s, m) && 1 <= m.seqNr <= |s.events|
    ensures forall k: nat :: m.seqNr < k <= |s.events| ==> k in s.journal
    ensures Suffix(s, m.seqNr) == s.events[m.seqNr..]
  {
    SomeNewest(s.saved, m);
    var top: Metadata :| top in s.saved && forall o <- s.saved :: o.seqNr <= top.seqNr;
    assert IsNewest(s, top);
    forall k: nat | m.seqNr < k <= |s.events| ensures k in s.journal {
      assert NewerThanSaved(s, k);
    }
  }

  lemma {:induction false} SomeNewest(saved: set<Metadata>, member: Metadata)
    requires member in saved
    ensures exists top <- saved :: forall o <- saved :: o.seqNr <= top.seqNr
    decreases saved
  {
    var rest := saved - {member};
    if forall o <- rest :: o.seqNr <= member.seqNr {
      assert member in saved;
    } else {
      var other :| other in rest && other.seqNr > member.seqNr;
      SomeNewest(rest, other);
      var top :| top in rest && forall o <- rest :: o.seqNr <= top.seqNr;
      assert forall o <- saved :: o == member || o in rest;
      assert top in saved && forall o <- saved :: o.seqNr <= top.seqNr;
    }
  }

  /** Without any saved snapshot the whole journal is there. */
  lemma NoSnapshotFullJournal(s: Store)
    requires StoreInv(s) && s.saved == {}
    ensures forall k: nat :: 0 < k <= |s.events| ==> k in s.journal
    ensures Suffix(s, 0) == s.events
  {
    forall k: nat | 0 < k <= |s.events| ensures k in s.journal {
      assert NewerThanSaved(s, k);
    }
  }

  /**
   In every run, recovery from the latest snapshot and the journal after it gives the state of the full
   replay if and only if the snapshot agrees, on every cell that no later event writes, with the state at its
   sequence number.
   */
  lemma RecoveryIsExact(keep: int, interval: int, actions: seq<Action>, m: Metadata)
    requires keep >= 1 && interval >= 1
    requires IsLatest(Run(keep, interval, actions), m)
    ensures var s := Run(keep, interval, actions);
            && m.seqNr <= |s.events|
            && (forall k: nat :: m.seqNr < k <= |s.events| ==> k in s.journal)
            && (ReplayLink(Restore(s.snapshots[m]), Suffix(s, m.seqNr)) == ReplayLink(NOTHING, s.events)
                <==> forall c :: WrittenBy(s.events[m.seqNr..], c)
                                 || Same(Restore(s.snapshots[m]), ReplayLink(NOTHING, s.events[..m.seqNr]), c))
  {
    SnapshotsAndJournalSafe(keep, interval, actions);
    var s := Run(keep, interval, actions);
    LatestIsNewest(s, m);
    SuffixReplayIff(s.events, m.seqNr, Restore(s.snapshots[m]));
  }

  /** Replaying a suffix of the events from some state ends like the full replay exactly when the cells agree. */
  lemma SuffixReplayIff(events: seq<LinkEvent>, n: nat, d: Durable)
    requires n <= |events|
    ensures ReplayLink(d, events[n..]) == ReplayLink(NOTHING, events)
            <==> forall c :: WrittenBy(events[n..], c) || Same(d, ReplayLink(NOTHING, events[..n]), c)
  {
    ReplayLinkConcat(NOTHING, events[..n], events[n..]);
    assert events[..n] + events[n..] == events;
    ReplayAgreement(d, ReplayLink(NOTHING, events[..n]), events[n..]);
  }
}

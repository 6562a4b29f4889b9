/**
 Runs of a link with its store: commands persist events, handlers apply and cache them and save snapshots, saves
 and deletions happen late, and restarts recover from what the store still has.
 */
module LinkRuns {
  import opened Collections
  import opened RequesterTables
  import opened DurableState
  import opened Snapshots
  import opened SnapshotContent

  // ---- Recovering from the cache of one incarnation ----

  /**
   What the cache of an incarnation, which recovered this state and handled these events, must not have missed,
   unless the events after it write it again.
   */
  ghost predicate CacheSuffices(recovered: Durable, handled: seq<LinkEvent>, rest: seq<LinkEvent>) {
    && (HasBaseEvent(handled) || recovered.base == NO_BASE || WrittenBy(rest, BaseCell))
    && (HasTableEvent(handled)
        || ((forall rid <- recovered.tables.byRid :: WrittenBy(rest, RidCell(rid)))
            && (forall sid <- recovered.tables.bySid :: WrittenBy(rest, SidCell(sid)))))
    && (LastRidCurrent(recovered.tables.lastRid, handled) || WrittenBy(rest, LastRidCell))
  }

  ghost predicate CellSuffices(recovered: Durable, handled: seq<LinkEvent>, rest: seq<LinkEvent>, c: Cell) {
    var i := HandleEvents(Restarted(recovered), handled);
    WrittenBy(rest, c) || Same(Restore(i.cache), i.live, c)
  }

  lemma BaseSuffices(recovered: Durable, handled: seq<LinkEvent>, rest: seq<LinkEvent>)
    ensures CellSuffices(recovered, handled, rest, BaseCell)
            <==> HasBaseEvent(handled) || recovered.base == NO_BASE || WrittenBy(rest, BaseCell)
    ensures CellSuffices(recovered, handled, rest, LastRidCell)
            <==> LastRidCurrent(recovered.tables.lastRid, handled) || WrittenBy(rest, LastRidCell)
  {
    CacheAfter(recovered, handled);
    LastRidIsCurrentIff(recovered, handled);
  }

  lemma TablesSuffice(recovered: Durable, handled: seq<LinkEvent>, rest: seq<LinkEvent>, id: int)
    ensures CellSuffices(recovered, handled, rest, RidCell(id))
            <==> HasTableEvent(handled) || id !in recovered.tables.byRid || WrittenBy(rest, RidCell(id))
    ensures CellSuffices(recovered, handled, rest, SidCell(id))
            <==> HasTableEvent(handled) || id !in recovered.tables.bySid || WrittenBy(rest, SidCell(id))
  {
    CacheAfter(recovered, handled);
  }

  lemma AllCellsSuffice(recovered: Durable, handled: seq<LinkEvent>, rest: seq<LinkEvent>)
    ensures (forall c :: CellSuffices(recovered, handled, rest, c)) <==> CacheSuffices(recovered, handled, rest)
  {
    BaseSuffices(recovered, handled, rest);
    forall id: int
      ensures CellSuffices(recovered, handled, rest, RidCell(id))
              <==> HasTableEvent(handled) || id !in recovered.tables.byRid || WrittenBy(rest, RidCell(id))
      ensures CellSuffices(recovered, handled, rest, SidCell(id))
              <==> HasTableEvent(handled) || id !in recovered.tables.bySid || WrittenBy(rest, SidCell(id))
    {
      TablesSuffice(recovered, handled, rest, id);
    }
    if CacheSuffices(recovered, handled, rest) {
      forall c ensures CellSuffices(recovered, handled, rest, c) {
        match c
        case BaseCell =>
        case RidCell(id) =>
        case SidCell(id) =>
        case LastRidCell =>
      }
    }
  }

  /**
   A snapshot taken by an incarnation, with the events after it, recovers what the incarnation's own state and
   those events come to, if and only if its cache suffices.
   */
  lemma RecoveryFromCacheIff(recovered: Durable, handled: seq<LinkEvent>, rest: seq<LinkEvent>)
    ensures ReplayLink(Restore(HandleEvents(Restarted(recovered), handled).cache), rest)
            == ReplayLink(ReplayLink(recovered, handled), rest)
            <==> CacheSuffices(recovered, handled, rest)
  {
    var i := HandleEvents(Restarted(recovered), handled);
    CacheAfter(recovered, handled);
    ReplayAgreement(Restore(i.cache), i.live, rest);
    AllCellsSuffice(recovered, handled, rest);
    assert forall c ::
        CellSuffices(recovered, handled, rest, c) <==> WrittenBy(rest, c) || Same(Restore(i.cache), i.live, c);
  }

  /** In the first incarnation nothing but lastRid can be missing. */
  lemma FirstCacheSuffices(handled: seq<LinkEvent>, rest: seq<LinkEvent>)
    ensures CacheSuffices(NOTHING, handled, rest) <==> LastRidCurrent(0, handled) || WrittenBy(rest, LastRidCell)
  {}

  // ---- A link with its store ----

  /**
   The store; how many events had been persisted at the last restart, and how many have been handled; and what
   that restart recovered.
   */
  datatype World = World(store: Store, from: nat, handled: nat, recovered: Durable)

  const NEW_WORLD := World(NEW_STORE, 0, 0, NOTHING)

  function Current(w: World): Incarnation
    requires w.from <= w.handled <= |w.store.events|
  {
    HandleEvents(Restarted(w.recovered), w.store.events[w.from..w.handled])
  }

  /** The events stored with numbers above one and up to another, in order. */
  function Stored(s: Store, low: nat, high: nat): seq<LinkEvent>
    decreases high
  {
    if high <= low then []
    else
      var past := Stored(s, low, high - 1);
      if high in s.journal then past + [s.journal[high]] else past
  }

  /** A restart is offered a latest snapshot, or none if none is stored. */
  ghost predicate Offers(s: Store, m: Option<Metadata>) {
    if m.Some? then IsLatest(s, m.value) else s.snapshots == map[]
  }

  function RecoverFrom(s: Store, m: Option<Metadata>): Durable {
    if m.Some? && m.value in s.snapshots
    then ReplayLink(Restore(s.snapshots[m.value]), Stored(s, m.value.seqNr, |s.events|))
    else ReplayLink(NOTHING, Stored(s, 0, |s.events|))
  }

  /**
   A command persists its events together; their handlers run before the next command. A handler that caches a
   layer saves a snapshot, under its event's number or one that was persisted with it further ahead. The tables in
   it are the live ones: they may be read when the save finishes, as of some event handled until then.
   */
  datatype WorldAction =
    | Command(events: seq<LinkEvent>)
    | HandleNext(ahead: nat, timestamp: nat)
    | Background(action: Action)
    | FinishSave(metadata: Metadata, content: Content, savedAt: nat, readAt: nat)
    | Restart(offered: Option<Metadata>)

  function PersistAll(keep: int, interval: int, s: Store, events: seq<LinkEvent>): Store {
    if events == [] then s
    else
      var past := PersistAll(keep, interval, s, events[..|events| - 1]);
      Snapshots.Step(keep, interval, past, Persist(events[|events| - 1]))
  }

  predicate Saves(e: LinkEvent) {
    e.BaseEvent? || CachesTables(e)
  }

  function HandleOne(keep: int, interval: int, w: World, ahead: nat, timestamp: nat): World
    requires w.from <= w.handled < |w.store.events|
  {
    var next := w.(handled := w.handled + 1);
    var m := Metadata(next.handled + ahead, timestamp);
    if Saves(w.store.events[w.handled])
    then next.(store := Snapshots.Step(keep, interval, w.store, RequestSave(m, Current(next).cache)))
    else next
  }

  /** The tables of what was cached when some event was handled, read when some later one was. */
  function ReadLate(w: World, m: Metadata, c: Content, savedAt: nat, readAt: nat): Content
    requires w.from <= w.handled <= |w.store.events|
  {
    if c.tables.Some? && w.from < savedAt <= readAt <= w.handled && savedAt <= m.seqNr
       && c == HandleEvents(Restarted(w.recovered), w.store.events[w.from..savedAt]).cache then
      var live := ReplayLink(w.recovered, w.store.events[w.from..readAt]);
      c.(tables := Some(live.tables.(lastRid := c.tables.value.lastRid)))
    else c
  }

  function Finish(keep: int, interval: int, s: Store, m: Metadata, c: Content): Store {
    Snapshots.Step(keep, interval, Snapshots.Step(keep, interval, s, RequestSave(m, c)), CompleteSave(m, c))
  }

  ghost function WorldStep(keep: int, interval: int, w: World, a: WorldAction): World
    requires w.from <= w.handled <= |w.store.events|
  {
    match a
    case Command(events) =>
      if w.handled < |w.store.events| then w else w.(store := PersistAll(keep, interval, w.store, events))
    case HandleNext(ahead, timestamp) =>
      if w.handled < |w.store.events| then HandleOne(keep, interval, w, ahead, timestamp) else w
    case Background(action) =>
      if action.Persist? || action.RequestSave? then w
      else w.(store := Snapshots.Step(keep, interval, w.store, action))
    case FinishSave(m, c, savedAt, readAt) =>
      if (m, c) in w.store.saving
      then w.(store := Finish(keep, interval, w.store, m, ReadLate(w, m, c, savedAt, readAt)))
      else w
    case Restart(m) =>
      if Offers(w.store, m)
      then World(w.store, |w.store.events|, |w.store.events|, RecoverFrom(w.store, m))
      else w
  }

  ghost predicate WorldInv(w: World) {
    StoreInv(w.store) && w.from <= w.handled <= |w.store.events|
  }

  lemma {:induction false} PersistAllKeepsInv(keep: int, interval: int, s: Store, events: seq<LinkEvent>)
    requires keep >= 1 && interval >= 1 && StoreInv(s)
    ensures var t := PersistAll(keep, interval, s, events);
            && StoreInv(t) && t.events == s.events + events && t.saving == s.saving && t.snapshots == s.snapshots
  {
    if events != [] {
      var front, last := events[..|events| - 1], events[|events| - 1];
      PersistAllKeepsInv(keep, interval, s, front);
      Snapshots.StepKeepsInv(keep, interval, PersistAll(keep, interval, s, front), Persist(last));
      assert s.events + front + [last] == s.events + events;
    }
  }

  lemma FinishKeepsInv(keep: int, interval: int, s: Store, m: Metadata, c: Content)
    requires keep >= 1 && interval >= 1 && StoreInv(s)
    ensures StoreInv(Finish(keep, interval, s, m, c)) && Finish(keep, interval, s, m, c).events == s.events
  {
    BackgroundKeepsInv(keep, interval, s, RequestSave(m, c));
    BackgroundKeepsInv(keep, interval, Snapshots.Step(keep, interval, s, RequestSave(m, c)), CompleteSave(m, c));
  }

  /** What an action does to a store whose events stay. */
  lemma BackgroundKeepsInv(keep: int, interval: int, s: Store, action: Action)
    requires keep >= 1 && interval >= 1 && StoreInv(s) && !action.Persist?
    ensures StoreInv(Snapshots.Step(keep, interval, s, action))
    ensures Snapshots.Step(keep, interval, s, action).events == s.events
  {
    Snapshots.StepKeepsInv(keep, interval, s, action);
  }

  lemma HandlingStep(keep: int, interval: int, w: World, ahead: nat, timestamp: nat)
    requires w.from <= w.handled < |w.store.events|
    ensures var next := WorldStep(keep, interval, w, HandleNext(ahead, timestamp));
            var m, c := Metadata(w.handled + 1 + ahead, timestamp), Current(w.(handled := w.handled + 1)).cache;
            && next == World(next.store, w.from, w.handled + 1, w.recovered)
            && (next.store == w.store || next.store == Snapshots.Step(keep, interval, w.store, RequestSave(m, c)))
  {}

  lemma HandlingKeepsInv(keep: int, interval: int, w: World, ahead: nat, timestamp: nat)
    requires keep >= 1 && interval >= 1 && WorldInv(w)
    ensures WorldInv(WorldStep(keep, interval, w, HandleNext(ahead, timestamp)))
    ensures WorldStep(keep, interval, w, HandleNext(ahead, timestamp)).store.events == w.store.events
  {
    if w.handled < |w.store.events| {
      var m, c := Metadata(w.handled + 1 + ahead, timestamp), Current(w.(handled := w.handled + 1)).cache;
      BackgroundKeepsInv(keep, interval, w.store, RequestSave(m, c));
      HandlingStep(keep, interval, w, ahead, timestamp);
    }
  }

  lemma WorldStepKeepsInv(keep: int, interval: int, w: World, a: WorldAction)
    requires keep >= 1 && interval >= 1 && WorldInv(w)
    ensures WorldInv(WorldStep(keep, interval, w, a))
  {
    match a
    case Command(events) => PersistAllKeepsInv(keep, interval, w.store, events);
    case HandleNext(ahead, timestamp) => HandlingKeepsInv(keep, interval, w, ahead, timestamp);
    case Background(action) =>
      if !action.Persist? {
        BackgroundKeepsInv(keep, interval, w.store, action);
      }
    case FinishSave(m, c, savedAt, readAt) =>
      FinishKeepsInv(keep, interval, w.store, m, ReadLate(w, m, c, savedAt, readAt));
    case Restart(m) =>
  }

  ghost function RunWorld(keep: int, interval: int, actions: seq<WorldAction>): (w: World)
    requires keep >= 1 && interval >= 1
    ensures WorldInv(w)
  {
    if actions == [] then NEW_WORLD
    else
      var past := RunWorld(keep, interval, actions[..|actions| - 1]);
      WorldStepKeepsInv(keep, interval, past, actions[|actions| - 1]);
      WorldStep(keep, interval, past, actions[|actions| - 1])
  }

  // ---- What a restart recovers ----

  lemma {:induction false} StoredIsSuffix(s: Store, low: nat, high: nat)
    requires low <= high <= |s.events|
    requires forall k: nat :: low < k <= high ==> k in s.journal && s.journal[k] == s.events[k - 1]
    ensures Stored(s, low, high) == s.events[low..high]
    decreases high
  {
    if high > low {
      StoredIsSuffix(s, low, high - 1);
      assert s.events[low..high] == s.events[low..high - 1] + [s.events[high - 1]];
    }
  }

  lemma RestartReplays(s: Store, m: Option<Metadata>)
    requires StoreInv(s) && Offers(s, m)
    ensures m.Some? ==> m.value in s.snapshots && m.value.seqNr <= |s.events|
                        && RecoverFrom(s, m) == ReplayLink(Restore(s.snapshots[m.value]), s.events[m.value.seqNr..])
    ensures m.None? ==> RecoverFrom(s, m) == ReplayLink(NOTHING, s.events)
  {
    if m.Some? {
      LatestIsNewest(s, m.value);
      StoredIsSuffix(s, m.value.seqNr, |s.events|);
      assert s.events[m.value.seqNr..|s.events|] == s.events[m.value.seqNr..];
    } else {
      NothingSaved(s);
      NoSnapshotFullJournal(s);
      StoredIsSuffix(s, 0, |s.events|);
      assert s.events[0..|s.events|] == s.events;
    }
  }

  lemma NothingSaved(s: Store)
    requires StoreInv(s) && s.snapshots == map[]
    ensures s.saved == {}
  {
    if m :| m in s.saved {
      SomeNewest(s.saved, m);
      var top: Metadata :| top in s.saved && forall o <- s.saved :: o.seqNr <= top.seqNr;
      assert IsNewest(s, top);
      assert false;
    }
  }

  /** What a handler has cached after these events, when the last restart was exact. */
  function CacheOf(events: seq<LinkEvent>, restart: nat, handled: nat): Content
    requires restart <= handled <= |events|
  {
    HandleEvents(Restarted(ReplayLink(NOTHING, events[..restart])), events[restart..handled]).cache
  }

  /** What its snapshot holds, when the tables were read as late as this, or with the rest. */
  function LateCache(events: seq<LinkEvent>, restart: nat, handled: nat, readAt: nat): Content
    requires restart <= handled <= |events| && readAt <= |events|
  {
    var c := CacheOf(events, restart, handled);
    if c.tables.None? || readAt < handled then c
    else c.(tables := Some(ReplayLink(NOTHING, events[..readAt]).tables.(lastRid := c.tables.value.lastRid)))
  }

  /** No handler of these events saves. */
  ghost predicate Silent(events: seq<LinkEvent>) {
    forall e <- events :: !Saves(e)
  }

  /**
   Which runs are meant: all of one incarnation, and all with snapshots from the last handler that saves among
   those up to the number they are saved under.
   */
  datatype Kind = Kind(oneIncarnation: bool, lastHandlers: bool)

  ghost predicate Origin(events: seq<LinkEvent>, kind: Kind, n: nat, c: Content, restart: nat, handled: nat,
                         readAt: nat) {
    && restart < handled <= n <= |events| && readAt <= |events|
    && c == LateCache(events, restart, handled, readAt)
    && (kind.oneIncarnation ==> restart == 0)
    && (kind.lastHandlers ==> Silent(events[handled..n]))
  }

  ghost predicate HasOrigin(events: seq<LinkEvent>, kind: Kind, n: nat, c: Content) {
    exists restart: nat, handled: nat, readAt: nat :: Origin(events, kind, n, c, restart, handled, readAt)
  }

  ghost predicate AllHaveOrigin(s: Store, kind: Kind) {
    && (forall p <- s.saving :: HasOrigin(s.events, kind, p.0.seqNr, p.1))
    && (forall m <- s.snapshots :: HasOrigin(s.events, kind, m.seqNr, s.snapshots[m]))
  }

  /** The link's state is that of the full replay, and every snapshot was the cache of an incarnation. */
  ghost predicate CleanInv(w: World, kind: Kind) {
    && WorldInv(w)
    && w.recovered == ReplayLink(NOTHING, w.store.events[..w.from])
    && (kind.oneIncarnation ==> w.from == 0)
    && AllHaveOrigin(w.store, kind)
  }

  /** Every restart recovers the state of the full replay. */
  ghost predicate CleanAction(w: World, a: WorldAction, kind: Kind) {
    match a
    case HandleNext(ahead, _) =>
      var handled := w.handled + 1;
      kind.lastHandlers && handled + ahead <= |w.store.events| ==> Silent(w.store.events[handled..handled + ahead])
    case FinishSave(m, _, savedAt, _) =>
      kind.lastHandlers && savedAt <= m.seqNr <= |w.store.events| ==> Silent(w.store.events[savedAt..m.seqNr])
    case Restart(m) =>
      !kind.oneIncarnation && (Offers(w.store, m) ==> RecoverFrom(w.store, m) == ReplayLink(NOTHING, w.store.events))
    case _ => true
  }

  ghost predicate CleanRun(keep: int, interval: int, actions: seq<WorldAction>, kind: Kind)
    requires keep >= 1 && interval >= 1
  {
    actions != [] ==>
      var past := actions[..|actions| - 1];
      CleanRun(keep, interval, past, kind) && CleanAction(RunWorld(keep, interval, past), actions[|actions| - 1], kind)
  }

  lemma OriginGrows(events: seq<LinkEvent>, more: seq<LinkEvent>, kind: Kind, n: nat, c: Content)
    requires HasOrigin(events, kind, n, c) && events <= more
    ensures HasOrigin(more, kind, n, c)
  {
    var restart: nat, handled: nat, readAt: nat :| Origin(events, kind, n, c, restart, handled, readAt);
    assert more[..restart] == events[..restart] && more[restart..handled] == events[restart..handled];
    assert more[..readAt] == events[..readAt] && more[handled..n] == events[handled..n];
    assert Origin(more, kind, n, c, restart, handled, readAt);
  }

  lemma StoreKeepsOrigins(s: Store, t: Store, kind: Kind)
    requires AllHaveOrigin(s, kind) && s.events <= t.events
    requires forall p <- t.saving :: p in s.saving || HasOrigin(t.events, kind, p.0.seqNr, p.1)
    requires forall m <- t.snapshots ::
               (m in s.snapshots && t.snapshots[m] == s.snapshots[m]) || (m, t.snapshots[m]) in s.saving
    ensures AllHaveOrigin(t, kind)
  {
    forall p <- t.saving ensures HasOrigin(t.events, kind, p.0.seqNr, p.1) {
      if p in s.saving {
        OriginGrows(s.events, t.events, kind, p.0.seqNr, p.1);
      }
    }
    forall m <- t.snapshots ensures HasOrigin(t.events, kind, m.seqNr, t.snapshots[m]) {
      if (m, t.snapshots[m]) in s.saving {
        assert HasOrigin(s.events, kind, (m, t.snapshots[m]).0.seqNr, (m, t.snapshots[m]).1);
      }
      OriginGrows(s.events, t.events, kind, m.seqNr, t.snapshots[m]);
    }
  }

  lemma CommandIsClean(keep: int, interval: int, w: World, events: seq<LinkEvent>, kind: Kind)
    requires keep >= 1 && interval >= 1 && CleanInv(w, kind)
    ensures CleanInv(WorldStep(keep, interval, w, Command(events)), kind)
  {
    if w.handled == |w.store.events| {
      PersistAllKeepsInv(keep, interval, w.store, events);
      var t := PersistAll(keep, interval, w.store, events);
      StoreKeepsOrigins(w.store, t, kind);
      assert t.events[..w.from] == w.store.events[..w.from];
    }
  }

  lemma HandlingIsClean(keep: int, interval: int, w: World, ahead: nat, timestamp: nat, kind: Kind)
    requires keep >= 1 && interval >= 1 && CleanInv(w, kind) && CleanAction(w, HandleNext(ahead, timestamp), kind)
    ensures CleanInv(WorldStep(keep, interval, w, HandleNext(ahead, timestamp)), kind)
  {
    if w.handled < |w.store.events| {
      HandlingKeepsInv(keep, interval, w, ahead, timestamp);
      HandlingOrigins(keep, interval, w, ahead, timestamp, kind);
      StillClean(w, WorldStep(keep, interval, w, HandleNext(ahead, timestamp)), kind);
    }
  }

  lemma HandlingOrigins(keep: int, interval: int, w: World, ahead: nat, timestamp: nat, kind: Kind)
    requires w.from <= w.handled < |w.store.events| && w.recovered == ReplayLink(NOTHING, w.store.events[..w.from])
    requires (kind.oneIncarnation ==> w.from == 0) && AllHaveOrigin(w.store, kind)
    requires CleanAction(w, HandleNext(ahead, timestamp), kind)
    ensures var next := WorldStep(keep, interval, w, HandleNext(ahead, timestamp));
            next.from == w.from && next.recovered == w.recovered && AllHaveOrigin(next.store, kind)
  {
    var handled := w.handled + 1;
    HandlingAsks(keep, interval, w, ahead, timestamp);
    OwnOrigin(w.store.events, kind, w.from, handled, handled + ahead);
    AskedOrNot(keep, interval, w.store, WorldStep(keep, interval, w, HandleNext(ahead, timestamp)).store,
               Metadata(handled + ahead, timestamp), CacheOf(w.store.events, w.from, handled), kind);
  }

  lemma AskedOrNot(keep: int, interval: int, s: Store, t: Store, m: Metadata, c: Content, kind: Kind)
    requires AllHaveOrigin(s, kind) && (m.seqNr <= |s.events| ==> HasOrigin(s.events, kind, m.seqNr, c))
    requires t == s || t == Snapshots.Step(keep, interval, s, RequestSave(m, c))
    ensures AllHaveOrigin(t, kind)
  {
    AskKeepsOrigins(keep, interval, s, m, c, kind);
  }

  lemma StillClean(w: World, w': World, kind: Kind)
    requires CleanInv(w, kind) && WorldInv(w') && w'.store.events == w.store.events
    requires w'.from == w.from && w'.recovered == w.recovered && AllHaveOrigin(w'.store, kind)
    ensures CleanInv(w', kind)
  {}

  lemma OwnOrigin(events: seq<LinkEvent>, kind: Kind, restart: nat, handled: nat, n: nat)
    requires restart < handled <= n && handled <= |events| && (kind.oneIncarnation ==> restart == 0)
    requires kind.lastHandlers && n <= |events| ==> Silent(events[handled..n])
    ensures n <= |events| ==> HasOrigin(events, kind, n, CacheOf(events, restart, handled))
  {
    assert n <= |events| ==> Origin(events, kind, n, CacheOf(events, restart, handled), restart, handled, 0);
  }

  lemma HandlingAsks(keep: int, interval: int, w: World, ahead: nat, timestamp: nat)
    requires w.from <= w.handled < |w.store.events|
    requires w.recovered == ReplayLink(NOTHING, w.store.events[..w.from])
    ensures var next, handled := WorldStep(keep, interval, w, HandleNext(ahead, timestamp)), w.handled + 1;
            var m, c := Metadata(handled + ahead, timestamp), CacheOf(w.store.events, w.from, handled);
            && next == World(next.store, w.from, handled, w.recovered)
            && (next.store == w.store || next.store == Snapshots.Step(keep, interval, w.store, RequestSave(m, c)))
  {
    HandlingStep(keep, interval, w, ahead, timestamp);
  }

  lemma AskKeepsOrigins(keep: int, interval: int, s: Store, m: Metadata, c: Content, kind: Kind)
    requires AllHaveOrigin(s, kind) && (m.seqNr <= |s.events| ==> HasOrigin(s.events, kind, m.seqNr, c))
    ensures var t := Snapshots.Step(keep, interval, s, RequestSave(m, c));
            AllHaveOrigin(t, kind) && t.events == s.events
  {
    StoreKeepsOrigins(s, Snapshots.Step(keep, interval, s, RequestSave(m, c)), kind);
  }

  lemma CompleteKeepsOrigins(keep: int, interval: int, s: Store, m: Metadata, c: Content, kind: Kind)
    requires AllHaveOrigin(s, kind)
    ensures var t := Snapshots.Step(keep, interval, s, CompleteSave(m, c));
            AllHaveOrigin(t, kind) && t.events == s.events
  {
    StoreKeepsOrigins(s, Snapshots.Step(keep, interval, s, CompleteSave(m, c)), kind);
  }

  lemma BackgroundIsClean(keep: int, interval: int, w: World, action: Action, kind: Kind)
    requires keep >= 1 && interval >= 1 && CleanInv(w, kind)
    ensures CleanInv(WorldStep(keep, interval, w, Background(action)), kind)
  {
    WorldStepKeepsInv(keep, interval, w, Background(action));
    var next := WorldStep(keep, interval, w, Background(action));
    StoreKeepsOrigins(w.store, next.store, kind);
  }

  lemma LateHasOrigin(w: World, kind: Kind, m: Metadata, c: Content, savedAt: nat, readAt: nat)
    requires CleanInv(w, kind) && (m, c) in w.store.saving && CleanAction(w, FinishSave(m, c, savedAt, readAt), kind)
    ensures HasOrigin(w.store.events, kind, m.seqNr, ReadLate(w, m, c, savedAt, readAt))
  {
    var events := w.store.events;
    assert HasOrigin(events, kind, (m, c).0.seqNr, (m, c).1);
    var late := ReadLate(w, m, c, savedAt, readAt);
    if late != c {
      TwoParts(events, w.from, readAt);
      assert Origin(events, kind, m.seqNr, late, w.from, savedAt, readAt);
    }
  }

  lemma FinishIsClean(keep: int, interval: int, w: World, m: Metadata, c: Content, savedAt: nat, readAt: nat,
                      kind: Kind)
    requires keep >= 1 && interval >= 1 && CleanInv(w, kind) && CleanAction(w, FinishSave(m, c, savedAt, readAt), kind)
    ensures CleanInv(WorldStep(keep, interval, w, FinishSave(m, c, savedAt, readAt)), kind)
  {
    WorldStepKeepsInv(keep, interval, w, FinishSave(m, c, savedAt, readAt));
    if (m, c) in w.store.saving {
      LateHasOrigin(w, kind, m, c, savedAt, readAt);
      FinishKeepsOrigins(keep, interval, w.store, m, ReadLate(w, m, c, savedAt, readAt), kind);
    }
  }

  lemma FinishKeepsOrigins(keep: int, interval: int, s: Store, m: Metadata, c: Content, kind: Kind)
    requires AllHaveOrigin(s, kind) && HasOrigin(s.events, kind, m.seqNr, c)
    ensures AllHaveOrigin(Finish(keep, interval, s, m, c), kind)
    ensures Finish(keep, interval, s, m, c).events == s.events
  {
    AskKeepsOrigins(keep, interval, s, m, c, kind);
    CompleteKeepsOrigins(keep, interval, Snapshots.Step(keep, interval, s, RequestSave(m, c)), m, c, kind);
  }

  lemma {:induction false} CleanRunKeepsInv(keep: int, interval: int, actions: seq<WorldAction>, kind: Kind)
    requires keep >= 1 && interval >= 1 && CleanRun(keep, interval, actions, kind)
    ensures CleanInv(RunWorld(keep, interval, actions), kind)
  {
    if actions == [] {
      assert NEW_STORE.events[..0] == [];
    } else {
      var past := actions[..|actions| - 1];
      CleanRunKeepsInv(keep, interval, past, kind);
      StepIsClean(keep, interval, RunWorld(keep, interval, past), actions[|actions| - 1], kind);
    }
  }

  lemma StepIsClean(keep: int, interval: int, w: World, a: WorldAction, kind: Kind)
    requires keep >= 1 && interval >= 1 && CleanInv(w, kind) && CleanAction(w, a, kind)
    ensures CleanInv(WorldStep(keep, interval, w, a), kind)
  {
    match a
    case Command(events) => CommandIsClean(keep, interval, w, events, kind);
    case HandleNext(ahead, timestamp) => HandlingIsClean(keep, interval, w, ahead, timestamp, kind);
    case Background(action) => BackgroundIsClean(keep, interval, w, action, kind);
    case FinishSave(m, c, savedAt, readAt) => FinishIsClean(keep, interval, w, m, c, savedAt, readAt, kind);
    case Restart(m) => assert w.store.events[..|w.store.events|] == w.store.events;
  }

  // ---- The results ----

  /** As long as every restart was exact, the state of the link is that of replaying all events it has handled. */
  lemma LiveIsFullReplay(keep: int, interval: int, actions: seq<WorldAction>, kind: Kind)
    requires keep >= 1 && interval >= 1 && CleanRun(keep, interval, actions, kind)
    ensures var w := RunWorld(keep, interval, actions);
            Current(w).live == ReplayLink(NOTHING, w.store.events[..w.handled])
  {
    CleanRunKeepsInv(keep, interval, actions, kind);
    var w := RunWorld(keep, interval, actions);
    var handled := w.store.events[w.from..w.handled];
    CacheAfter(w.recovered, handled);
    TwoParts(w.store.events, w.from, w.handled);
  }

  lemma TwoParts(events: seq<LinkEvent>, a: nat, b: nat)
    requires a <= b <= |events|
    ensures ReplayLink(ReplayLink(NOTHING, events[..a]), events[a..b]) == ReplayLink(NOTHING, events[..b])
  {
    ReplayLinkConcat(NOTHING, events[..a], events[a..b]);
    assert events[..a] + events[a..b] == events[..b];
  }
}

/** What the cached layer states put into a snapshot, and when that is the state at its sequence number. */
module SnapshotContent {
  import opened Collections
  import opened RequesterTables
  import opened DurableState
  import opened Snapshots

  /** One incarnation of a link: its live state, and the layer states cached by its persist handlers. */
  datatype Incarnation = Incarnation(live: Durable, cache: Content)

  /** A new incarnation has recovered its state, but its caches are empty. */
  function Restarted(recovered: Durable): Incarnation {
    Incarnation(recovered, Content(None, None))
  }

  /** The handler of LastRidSet is the only one that saves nothing. */
  predicate CachesTables(e: LinkEvent) {
    e.RequesterEvent? && !e.event.LastRidSet?
  }

  function HandleEvent(i: Incarnation, e: LinkEvent): Incarnation {
    var live := ApplyLink(i.live, e);
    Incarnation(live,
                if e.BaseEvent? then i.cache.(base := Some(live.base))
                else if CachesTables(e) then i.cache.(tables := Some(live.tables))
                else i.cache)
  }

  /** The handler of an event hands the layer it changed to the snapshotter, which caches it and saves when due. */
  method CacheEvent(link: DSLinkStateSnapshotter, ghost i: Incarnation, e: LinkEvent, live: Durable, lastSeqNr: nat)
    requires link.interval > 0 && link.CachedContent() == i.cache && live == ApplyLink(i.live, e)
    modifies link
    ensures link.CachedContent() == HandleEvent(i, e).cache
    ensures link.effects
            == if (e.BaseEvent? || CachesTables(e)) && Due(link.interval, lastSeqNr)
               then old(link.effects) + [Save(lastSeqNr, HandleEvent(i, e).cache)] else old(link.effects)
  {
    match e
    case BaseEvent(_) => link.SaveBase(live.base, lastSeqNr);
    case RequesterEvent(LastRidSet(_)) =>
    case RequesterEvent(_) => link.SaveRequester(live.tables, lastSeqNr);
  }

  function HandleEvents(i: Incarnation, events: seq<LinkEvent>): Incarnation {
    if events == [] then i else HandleEvent(HandleEvents(i, events[..|events| - 1]), events[|events| - 1])
  }

  lemma HandleStep(i: Incarnation, events: seq<LinkEvent>, e: LinkEvent)
    ensures HandleEvents(i, events + [e]) == HandleEvent(HandleEvents(i, events), e)
  {
    assert (events + [e])[..|events|] == events;
  }

  predicate HasBaseEvent(events: seq<LinkEvent>) {
    exists e <- events :: e.BaseEvent?
  }

  predicate HasTableEvent(events: seq<LinkEvent>) {
    exists e <- events :: CachesTables(e)
  }

  /** The rid of the last LastRidSet event, or the one before the events. */
  function LastRidOf(start: int, events: seq<LinkEvent>): int {
    if events == [] then start
    else
      var last := events[|events| - 1];
      if last.RequesterEvent? && last.event.LastRidSet? then last.event.rid
      else LastRidOf(start, events[..|events| - 1])
  }

  /** The events up to the last one whose handler caches the tables. */
  function UpToTables(events: seq<LinkEvent>): seq<LinkEvent> {
    if events == [] || CachesTables(events[|events| - 1]) then events
    else UpToTables(events[..|events| - 1])
  }

  lemma {:induction false} UpToTablesMeaning(events: seq<LinkEvent>)
    ensures var upTo := UpToTables(events);
            && upTo <= events
            && (upTo != [] ==> CachesTables(upTo[|upTo| - 1]))
            && forall k :: |upTo| <= k < |events| ==> !CachesTables(events[k])
  {
    if events != [] {
      UpToTablesMeaning(events[..|events| - 1]);
    }
  }

  lemma {:induction false} LiveLastRid(d: Durable, events: seq<LinkEvent>)
    ensures ReplayLink(d, events).tables.lastRid == LastRidOf(d.tables.lastRid, events)
  {
    if events != [] {
      LiveLastRid(d, events[..|events| - 1]);
    }
  }

  /**
   The caches are empty, or hold the live base state and the live tables; only lastRid is that of the last
   event that cached the tables.
   */
  lemma {:induction false} CacheAfter(recovered: Durable, events: seq<LinkEvent>)
    ensures var i := HandleEvents(Restarted(recovered), events);
            && i.live == ReplayLink(recovered, events)
            && (if HasBaseEvent(events) then i.cache.base == Some(i.live.base)
                else i.cache.base == None && i.live.base == recovered.base)
            && (if HasTableEvent(events)
                then i.cache.tables
                     == Some(i.live.tables.(lastRid := LastRidOf(recovered.tables.lastRid, UpToTables(events))))
                else i.cache.tables == None && i.live.tables.(lastRid := 0) == recovered.tables.(lastRid := 0))
  {
    if events != [] {
      var front, last := events[..|events| - 1], events[|events| - 1];
      CacheAfter(recovered, front);
      assert events == front + [last];
      assert HasBaseEvent(events) <==> HasBaseEvent(front) || last.BaseEvent?;
      assert HasTableEvent(events) <==> HasTableEvent(front) || CachesTables(last);
      LiveLastRid(recovered, events);
    }
  }

  /** The snapshot holds the state of this moment, leaving lastRid aside. */
  ghost predicate FreshExceptLastRid(i: Incarnation) {
    forall c: Cell :: !c.LastRidCell? ==> Same(Restore(i.cache), i.live, c)
  }

  /**
   A snapshot holds the base state and both tables of its moment if and only if each layer was cached since
   the last restart, or has nothing to remember.
   */
  lemma SnapshotIsFresh(recovered: Durable, events: seq<LinkEvent>)
    ensures FreshExceptLastRid(HandleEvents(Restarted(recovered), events))
            <==> (HasBaseEvent(events) || recovered.base == NO_BASE)
                 && (HasTableEvent(events) || (recovered.tables.byRid == map[] && recovered.tables.bySid == map[]))
  {
    CacheAfter(recovered, events);
    var i := HandleEvents(Restarted(recovered), events);
    var restored := Restore(i.cache);
    if FreshExceptLastRid(i) {
      assert Same(restored, i.live, BaseCell);
      if !HasTableEvent(events) {
        forall rid ensures rid !in recovered.tables.byRid { assert Same(restored, i.live, RidCell(rid)); }
        forall sid ensures sid !in recovered.tables.bySid { assert Same(restored, i.live, SidCell(sid)); }
      }
    }
  }

  /** The cached lastRid is the live one exactly when no LastRidSet has changed it since the tables were cached. */
  predicate LastRidCurrent(start: int, events: seq<LinkEvent>) {
    LastRidOf(start, events) == if HasTableEvent(events) then LastRidOf(start, UpToTables(events)) else 0
  }

  lemma LastRidIsCurrentIff(recovered: Durable, events: seq<LinkEvent>)
    ensures var i := HandleEvents(Restarted(recovered), events);
            Same(Restore(i.cache), i.live, LastRidCell) <==> LastRidCurrent(recovered.tables.lastRid, events)
  {
    CacheAfter(recovered, events);
    LiveLastRid(recovered, events);
  }

  /** So a snapshot is the state of its moment if and only if it is fresh and its lastRid is current. */
  lemma SnapshotIsExact(recovered: Durable, events: seq<LinkEvent>)
    ensures var i := HandleEvents(Restarted(recovered), events);
            Restore(i.cache) == i.live
            <==> (HasBaseEvent(events) || recovered.base == NO_BASE)
                 && (HasTableEvent(events) || (recovered.tables.byRid == map[] && recovered.tables.bySid == map[]))
                 && LastRidCurrent(recovered.tables.lastRid, events)
  {
    var i := HandleEvents(Restarted(recovered), events);
    SnapshotIsFresh(recovered, events);
    LastRidIsCurrentIff(recovered, events);
    if FreshExceptLastRid(i) && Same(Restore(i.cache), i.live, LastRidCell) {
      SameEverywhere(Restore(i.cache), i.live);
    }
  }

  /** A snapshot saved by the handler of a table event has the live lastRid. */
  lemma TableHandlerHasLastRid(recovered: Durable, events: seq<LinkEvent>, e: LinkEvent)
    requires CachesTables(e)
    ensures var i := HandleEvents(Restarted(recovered), events + [e]); Same(Restore(i.cache), i.live, LastRidCell)
  {
    HandleStep(Restarted(recovered), events, e);
  }

  /**
   After a request message, which persists LastRidSet behind its targets, what the last target's handler saved has
   the live lastRid if and only if the message's RID is the one that was set before.
   */
  lemma RequestMessageLastRid(start: int, front: seq<LinkEvent>, target: LinkEvent, rid: int)
    requires CachesTables(target)
    ensures LastRidCurrent(start, front + [target] + [RequesterEvent(LastRidSet(rid))])
            <==> rid == LastRidOf(start, front)
  {
    var targets, events := front + [target], front + [target] + [RequesterEvent(LastRidSet(rid))];
    assert target in events && HasTableEvent(events);
    assert events[..|events| - 1] == targets && targets[..|targets| - 1] == front;
    assert UpToTables(events) == UpToTables(targets) == targets;
  }

  /** One saved by the handler of a base event has it if and only if it was current before. */
  lemma BaseHandlerKeepsLastRid(recovered: Durable, events: seq<LinkEvent>, state: BaseState)
    ensures var i := HandleEvents(Restarted(recovered), events + [BaseEvent(state)]);
            Same(Restore(i.cache), i.live, LastRidCell) <==> LastRidCurrent(recovered.tables.lastRid, events)
  {
    HandleStep(Restarted(recovered), events, BaseEvent(state));
    LastRidIsCurrentIff(recovered, events);
  }

  /** A disconnection right after a request message: its snapshot has the lastRid from before the message. */
  lemma LastRidIsStale(recovered: Durable, rid: int, target: string, base: BaseState)
    requires recovered.tables.lastRid != rid
    ensures var events := [RequesterEvent(RidTarget(rid, target)), RequesterEvent(LastRidSet(rid)), BaseEvent(base)];
            var i := HandleEvents(Restarted(recovered), events);
            && i.live.tables.lastRid == rid
            && Restore(i.cache).tables.lastRid == recovered.tables.lastRid
            && FreshExceptLastRid(i)
  {
    var a, b, c := RequesterEvent(RidTarget(rid, target)), RequesterEvent(LastRidSet(rid)), BaseEvent(base);
    var events := [a, b, c];
    HandleStep(Restarted(recovered), [], a);
    HandleStep(Restarted(recovered), [a], b);
    HandleStep(Restarted(recovered), [a, b], c);
    assert [] + [a] == [a] && [a] + [b] == [a, b] && [a, b] + [c] == events;
    assert c in events && a in events;
    SnapshotIsFresh(recovered, events);
  }

  // ---- The number of snapshots to keep must be positive ----

  lemma {:induction false} OnlyPersists(keep: int, interval: int, n: nat, e: LinkEvent)
    ensures var s := Run(keep, interval, seq(n, i => Persist(e)));
            |s.events| == n && s.saving == {} && s.saved == {} && s.snapshots == map[] && s.commands == {}
  {
    var actions := seq(n, i => Persist(e));
    if n > 0 {
      OnlyPersists(keep, interval, n - 1, e);
      assert actions[..|actions| - 1] == seq(n - 1, i => Persist(e));
    }
  }

  lemma RunStep(keep: int, interval: int, actions: seq<Action>, a: Action)
    ensures Run(keep, interval, actions + [a]) == Step(keep, interval, Run(keep, interval, actions), a)
  {
    assert (actions + [a])[..|actions|] == actions;
  }

  /** With keep at most 0 a success deletes the very snapshot it reports. */
  lemma NewestSnapshotDeleted(keep: int, interval: int) returns (actions: seq<Action>)
    requires keep <= 0 && interval >= 1
    ensures !Recoverable(Run(keep, interval, actions))
  {
    var e, m, c := BaseEvent(NO_BASE), Metadata(interval, 0), Content(None, None);
    assert interval % interval == 0;
    assert m.seqNr - keep * interval >= m.seqNr by { assert keep * interval <= 0; }
    var command := DeleteSnapshots(m.seqNr - keep * interval, 0);
    var s0 := seq(interval, i => Persist(e));
    OnlyPersists(keep, interval, interval, e);
    RunStep(keep, interval, s0, RequestSave(m, c));
    var s1 := s0 + [RequestSave(m, c)];
    RunStep(keep, interval, s1, CompleteSave(m, c));
    var s2 := s1 + [CompleteSave(m, c)];
    RunStep(keep, interval, s2, ReceiveSuccess(m));
    var s3 := s2 + [ReceiveSuccess(m)];
    RunStep(keep, interval, s3, Execute(command));
    actions := s3 + [Execute(command)];
    var end := Run(keep, interval, actions);
    assert end.saved == {m} && m !in end.snapshots;
    assert IsNewest(end, m);
  }

  /** Snapshots and journal are safe in every run if and only if at least one snapshot is kept. */
  lemma SafeExactlyWhenKeeping(keep: int, interval: int)
    requires interval >= 1
    ensures (forall actions :: Recoverable(Run(keep, interval, actions))) <==> keep >= 1
  {
    if keep >= 1 {
      forall actions ensures Recoverable(Run(keep, interval, actions)) {
        SnapshotsAndJournalSafe(keep, interval, actions);
      }
    } else {
      var actions := NewestSnapshotDeleted(keep, interval);
      assert !Recoverable(Run(keep, interval, actions));
    }
  }
}

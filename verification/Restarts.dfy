/** What restarts of a link recover, from the snapshots that its handlers saved. */
module Restarts {
  import opened Collections
  import opened RequesterTables
  import opened DurableState
  import opened Snapshots
  import opened SnapshotContent
  import opened LinkRuns

  /** Whatever happened before, a restart without a snapshot is exact. */
  lemma RestartWithoutSnapshotIsExact(keep: int, interval: int, actions: seq<WorldAction>)
    requires keep >= 1 && interval >= 1 && RunWorld(keep, interval, actions).store.snapshots == map[]
    ensures var s := RunWorld(keep, interval, actions).store; RecoverFrom(s, None) == ReplayLink(NOTHING, s.events)
  {
    RestartReplays(RunWorld(keep, interval, actions).store, None);
  }

  /** And one from a snapshot is exact if and only if no cell is wrong in it that no later event writes. */
  lemma RestartIsExactIff(keep: int, interval: int, actions: seq<WorldAction>, m: Metadata)
    requires keep >= 1 && interval >= 1 && IsLatest(RunWorld(keep, interval, actions).store, m)
    ensures var s := RunWorld(keep, interval, actions).store;
            && m.seqNr <= |s.events|
            && (RecoverFrom(s, Some(m)) == ReplayLink(NOTHING, s.events)
                <==> forall c :: WrittenBy(s.events[m.seqNr..], c)
                                 || Same(Restore(s.snapshots[m]), ReplayLink(NOTHING, s.events[..m.seqNr]), c))
  {
    var s := RunWorld(keep, interval, actions).store;
    RestartReplays(s, Some(m));
    SuffixReplayIff(s.events, m.seqNr, Restore(s.snapshots[m]));
  }

  // ---- Snapshots of any handler ----

  /**
   A snapshot is good enough to recover from, when the link was in this state as it was taken, if it holds these
   parts of it, but for those that the events after its number write; and if it already holds what the events
   write that were persisted before its number but handled after it was taken.
   */
  ghost predicate SuffixSuffices(snapshot: Durable, taken: Durable, skipped: seq<LinkEvent>, rest: seq<LinkEvent>) {
    forall c :: WrittenBy(rest, c)
                || if WrittenBy(skipped, c) then Same(ReplayLink(snapshot, skipped), snapshot, c)
                   else Same(snapshot, taken, c)
  }

  lemma SkippedCell(snapshot: Durable, taken: Durable, skipped: seq<LinkEvent>, c: Cell)
    ensures Same(snapshot, ReplayLink(taken, skipped), c)
            <==> if WrittenBy(skipped, c) then Same(ReplayLink(snapshot, skipped), snapshot, c)
                 else Same(snapshot, taken, c)
  {
    if WrittenBy(skipped, c) {
      ReplaySame(snapshot, taken, skipped, c);
    } else {
      UntouchedCells(taken, skipped, c);
    }
  }

  lemma RecoveryPastSkippedIff(snapshot: Durable, taken: Durable, skipped: seq<LinkEvent>, rest: seq<LinkEvent>)
    ensures ReplayLink(snapshot, rest) == ReplayLink(ReplayLink(taken, skipped), rest)
            <==> SuffixSuffices(snapshot, taken, skipped, rest)
  {
    ReplayAgreement(snapshot, ReplayLink(taken, skipped), rest);
    forall c ensures Same(snapshot, ReplayLink(taken, skipped), c)
                     <==> if WrittenBy(skipped, c) then Same(ReplayLink(snapshot, skipped), snapshot, c)
                          else Same(snapshot, taken, c) {
      SkippedCell(snapshot, taken, skipped, c);
    }
  }

  /** The cache has this part of the state, or there was nothing of it to cache. */
  predicate HasCached(recovered: Durable, handled: seq<LinkEvent>, c: Cell) {
    match c
    case BaseCell => HasBaseEvent(handled) || recovered.base == NO_BASE
    case RidCell(rid) => HasTableEvent(handled) || rid !in recovered.tables.byRid
    case SidCell(sid) => HasTableEvent(handled) || sid !in recovered.tables.bySid
    case LastRidCell => LastRidCurrent(recovered.tables.lastRid, handled)
  }

  lemma HasCachedIff(recovered: Durable, handled: seq<LinkEvent>, c: Cell)
    ensures var i := HandleEvents(Restarted(recovered), handled);
            HasCached(recovered, handled, c) <==> Same(Restore(i.cache), i.live, c)
  {
    CacheAfter(recovered, handled);
    LastRidIsCurrentIff(recovered, handled);
  }

  /**
   For a snapshot of an incarnation with the tables as they were: exactly what it must have cached, and what the
   events that its number skips must not change.
   */
  lemma RecoveryPastNumberIff(recovered: Durable, handled: seq<LinkEvent>, skipped: seq<LinkEvent>,
                              rest: seq<LinkEvent>)
    ensures var snapshot := Restore(HandleEvents(Restarted(recovered), handled).cache);
            ReplayLink(snapshot, rest) == ReplayLink(ReplayLink(ReplayLink(recovered, handled), skipped), rest)
            <==> forall c :: WrittenBy(rest, c)
                             || if WrittenBy(skipped, c) then Same(ReplayLink(snapshot, skipped), snapshot, c)
                                else HasCached(recovered, handled, c)
  {
    var i := HandleEvents(Restarted(recovered), handled);
    CacheAfter(recovered, handled);
    RecoveryPastSkippedIff(Restore(i.cache), i.live, skipped, rest);
    forall c ensures HasCached(recovered, handled, c) <==> Same(Restore(i.cache), i.live, c) {
      HasCachedIff(recovered, handled, c);
    }
  }

  /**
   As long as restarts were exact, the next one is exact if and only if its snapshot suffices: some handler had
   cached it, or its tables were read later, and the number it is saved under may skip events.
   */
  lemma NextRestartPastNumberIff(keep: int, interval: int, actions: seq<WorldAction>, kind: Kind, m: Metadata)
    returns (restart: nat, handled: nat, readAt: nat)
    requires keep >= 1 && interval >= 1 && CleanRun(keep, interval, actions, kind)
    requires IsLatest(RunWorld(keep, interval, actions).store, m)
    ensures var s := RunWorld(keep, interval, actions).store;
            && restart < handled <= m.seqNr <= |s.events| && readAt <= |s.events|
            && (kind.oneIncarnation ==> restart == 0) && (kind.lastHandlers ==> Silent(s.events[handled..m.seqNr]))
            && s.snapshots[m] == LateCache(s.events, restart, handled, readAt)
            && (RecoverFrom(s, Some(m)) == ReplayLink(NOTHING, s.events)
                <==> SuffixSuffices(Restore(s.snapshots[m]), ReplayLink(NOTHING, s.events[..handled]),
                                    s.events[handled..m.seqNr], s.events[m.seqNr..]))
  {
    CleanRunKeepsInv(keep, interval, actions, kind);
    var s := RunWorld(keep, interval, actions).store;
    var r: nat, h: nat, late: nat :| Origin(s.events, kind, m.seqNr, s.snapshots[m], r, h, late);
    restart, handled, readAt := r, h, late;
    RestartReplays(s, Some(m));
    RecoveryPastSkippedIff(Restore(s.snapshots[m]), ReplayLink(NOTHING, s.events[..h]),
                           s.events[h..m.seqNr], s.events[m.seqNr..]);
    TwoParts(s.events, h, m.seqNr);
    AllParts(s.events, m.seqNr);
  }

  lemma AllParts(events: seq<LinkEvent>, n: nat)
    requires n <= |events|
    ensures ReplayLink(ReplayLink(NOTHING, events[..n]), events[n..]) == ReplayLink(NOTHING, events)
  {
    TwoParts(events, n, |events|);
    assert events[n..|events|] == events[n..] && events[..|events|] == events;
  }

  // ---- Snapshots of the last handler that saves ----

  /** Events whose handlers do not save change nothing but lastRid. */
  lemma {:induction false} SilentKeepsState(d: Durable, events: seq<LinkEvent>)
    requires Silent(events)
    ensures var after := ReplayLink(d, events);
            after.base == d.base && after.tables == d.tables.(lastRid := after.tables.lastRid)
  {
    if events != [] {
      SilentKeepsState(d, events[..|events| - 1]);
      assert events[|events| - 1] in events;
    }
  }

  lemma {:induction false} SilentKeepsCache(i: Incarnation, events: seq<LinkEvent>)
    requires Silent(events)
    ensures HandleEvents(i, events).cache == i.cache
  {
    if events != [] {
      SilentKeepsCache(i, events[..|events| - 1]);
      assert events[|events| - 1] in events;
    }
  }

  lemma {:induction false} HandleConcat(i: Incarnation, a: seq<LinkEvent>, b: seq<LinkEvent>)
    ensures HandleEvents(i, a + b) == HandleEvents(HandleEvents(i, a), b)
  {
    if b == [] {
      assert a + b == a;
    } else {
      assert (a + b)[..|a + b| - 1] == a + b[..|b| - 1];
      HandleConcat(i, a, b[..|b| - 1]);
    }
  }

  lemma SameCache(events: seq<LinkEvent>, restart: nat, handled: nat, n: nat)
    requires restart <= handled <= n <= |events| && Silent(events[handled..n])
    ensures CacheOf(events, restart, n) == CacheOf(events, restart, handled)
  {
    var i := Restarted(ReplayLink(NOTHING, events[..restart]));
    HandleConcat(i, events[restart..handled], events[handled..n]);
    assert events[restart..handled] + events[handled..n] == events[restart..n];
    SilentKeepsCache(HandleEvents(i, events[restart..handled]), events[handled..n]);
  }

  lemma SameLateCache(events: seq<LinkEvent>, restart: nat, handled: nat, n: nat, readAt: nat)
    requires restart <= handled <= n <= |events| && readAt <= |events| && Silent(events[handled..n])
    ensures LateCache(events, restart, n, readAt) == LateCache(events, restart, handled, readAt)
  {
    SameCache(events, restart, handled, n);
    if CacheOf(events, restart, handled).tables.Some? && handled <= readAt < n {
      assert forall e <- events[handled..readAt] :: e in events[handled..n];
      SilentKeepsState(ReplayLink(NOTHING, events[..handled]), events[handled..readAt]);
      TwoParts(events, handled, readAt);
      TwoParts(events, restart, handled);
      CacheAfter(ReplayLink(NOTHING, events[..restart]), events[restart..handled]);
    }
  }

  /**
   When snapshots are saved by the last handler that saves before their number, as every snapshot of a command
   with one such event is, and restarts were exact so far, the next one is exact if and only if the cache of the
   incarnation that took the snapshot sufficed.
   */
  lemma NextRestartIsExactIff(keep: int, interval: int, actions: seq<WorldAction>, kind: Kind, m: Metadata)
    returns (restart: nat, readAt: nat)
    requires keep >= 1 && interval >= 1 && kind.lastHandlers && CleanRun(keep, interval, actions, kind)
    requires IsLatest(RunWorld(keep, interval, actions).store, m)
    ensures var s := RunWorld(keep, interval, actions).store;
            && restart <= m.seqNr <= |s.events| && readAt <= |s.events| && (kind.oneIncarnation ==> restart == 0)
            && s.snapshots[m] == LateCache(s.events, restart, m.seqNr, readAt)
            && (RecoverFrom(s, Some(m)) == ReplayLink(NOTHING, s.events)
                <==> CacheSuffices(ReplayLink(NOTHING, s.events[..restart]),
                                   s.events[restart..m.seqNr], s.events[m.seqNr..]))
  {
    var handled;
    restart, handled, readAt := NextRestartPastNumberIff(keep, interval, actions, kind, m);
    var s := RunWorld(keep, interval, actions).store;
    SameLateCache(s.events, restart, handled, m.seqNr, readAt);
    RestartReplays(s, Some(m));
    RecoveryFromLateCache(s.events, restart, m.seqNr, readAt);
    RecoveryFromOwnCacheIff(s.events, restart, m.seqNr);
  }

  lemma RecoveryFromOwnCacheIff(events: seq<LinkEvent>, restart: nat, n: nat)
    requires restart <= n <= |events|
    ensures ReplayLink(Restore(CacheOf(events, restart, n)), events[n..]) == ReplayLink(NOTHING, events)
            <==> CacheSuffices(ReplayLink(NOTHING, events[..restart]), events[restart..n], events[n..])
  {
    RecoveryFromCacheIff(ReplayLink(NOTHING, events[..restart]), events[restart..n], events[n..]);
    TwoParts(events, restart, n);
    AllParts(events, n);
  }

  /** Tables that were read late make no difference to a recovery. */
  lemma RecoveryFromLateCache(events: seq<LinkEvent>, restart: nat, n: nat, readAt: nat)
    requires restart <= n <= |events| && readAt <= |events|
    ensures ReplayLink(Restore(LateCache(events, restart, n, readAt)), events[n..])
            == ReplayLink(Restore(CacheOf(events, restart, n)), events[n..])
  {
    if CacheOf(events, restart, n).tables.Some? && n <= readAt {
      LateCellsRewritten(events, restart, n, readAt);
      LateSnapshotHarmless(Restore(LateCache(events, restart, n, readAt)), Restore(CacheOf(events, restart, n)),
                           events[n..readAt], events[readAt..]);
      assert events[n..readAt] + events[readAt..] == events[n..];
    }
  }

  lemma LateCellsRewritten(events: seq<LinkEvent>, restart: nat, n: nat, readAt: nat)
    requires restart <= n <= readAt <= |events| && CacheOf(events, restart, n).tables.Some?
    ensures forall c :: Same(Restore(LateCache(events, restart, n, readAt)), Restore(CacheOf(events, restart, n)), c)
                        || WrittenBy(events[n..readAt], c)
  {
    var now, late := ReplayLink(NOTHING, events[..n]), ReplayLink(NOTHING, events[..readAt]);
    CacheAfter(ReplayLink(NOTHING, events[..restart]), events[restart..n]);
    TwoParts(events, restart, n);
    TwoParts(events, n, readAt);
    forall c ensures Same(Restore(LateCache(events, restart, n, readAt)), Restore(CacheOf(events, restart, n)), c)
                     || WrittenBy(events[n..readAt], c) {
      if !WrittenBy(events[n..readAt], c) {
        UntouchedCells(now, events[n..readAt], c);
      }
    }
  }

  /** Then the first restart of a link loses at most lastRid, and exactly when its snapshot had an older one. */
  lemma FirstRestartIsExactIff(keep: int, interval: int, actions: seq<WorldAction>, m: Metadata)
    requires keep >= 1 && interval >= 1 && CleanRun(keep, interval, actions, Kind(true, true))
    requires IsLatest(RunWorld(keep, interval, actions).store, m)
    ensures var s := RunWorld(keep, interval, actions).store;
            && m.seqNr <= |s.events|
            && (RecoverFrom(s, Some(m)) == ReplayLink(NOTHING, s.events)
                <==> LastRidCurrent(0, s.events[..m.seqNr]) || WrittenBy(s.events[m.seqNr..], LastRidCell))
  {
    var restart, readAt := NextRestartIsExactIff(keep, interval, actions, Kind(true, true), m);
    var s := RunWorld(keep, interval, actions).store;
    assert s.events[..0] == [] && s.events[0..m.seqNr] == s.events[..m.seqNr];
    FirstCacheSuffices(s.events[..m.seqNr], s.events[m.seqNr..]);
  }
}

/**
 Runs that lose state without any earlier restart: all handlers of a command save under the number of its last
 event, so that a snapshot of the first one, if those of the others are never finished, skips what they handled.
 */
module SkippedEvents {
  import opened Collections
  import opened RequesterTables
  import opened DurableState
  import opened Snapshots
  import opened SnapshotContent
  import opened LinkRuns
  import opened LostEndpoint

  const FILL := RequesterEvent(RemoveRid(0))

  lemma {:induction false} NoRestartsClean(keep: int, interval: int, actions: seq<WorldAction>)
    requires keep >= 1 && interval >= 1 && NoRestarts(actions)
    ensures CleanRun(keep, interval, actions, Kind(true, false))
  {
    if actions != [] {
      NoRestartsClean(keep, interval, actions[..|actions| - 1]);
      assert actions[|actions| - 1] in actions;
    }
  }

  lemma Filled(keep: int, interval: int, n: nat) returns (actions: seq<WorldAction>)
    requires keep >= 1 && interval >= 1
    ensures Handled(NEW_WORLD, RunWorld(keep, interval, actions), Copies(FILL, n)) && NoRestarts(actions)
  {
    actions := [];
    if n > 0 {
      actions := HandledMany(keep, interval, [], FILL, n);
    }
  }

  lemma CommandPersists(keep: int, interval: int, w: World, batch: seq<LinkEvent>)
    requires keep >= 1 && interval >= 1 && WorldInv(w) && w.handled == |w.store.events|
    ensures var w' := WorldStep(keep, interval, w, Command(batch));
            && w' == w.(store := w'.store)
            && w'.store.events == w.store.events + batch && w'.store.snapshots == w.store.snapshots
  {
    PersistAllKeepsInv(keep, interval, w.store, batch);
  }

  lemma FirstHandlerSaves(keep: int, interval: int, w: World, ahead: nat)
    requires keep >= 1 && interval >= 1 && WorldInv(w) && w.handled + 1 + ahead == |w.store.events|
    requires Saves(w.store.events[w.handled]) && Due(interval, |w.store.events|)
    ensures var w' := WorldStep(keep, interval, w, HandleNext(ahead, 0));
            && w' == w.(store := w'.store, handled := w.handled + 1)
            && w'.store.events == w.store.events && w'.store.snapshots == w.store.snapshots
            && (Metadata(|w.store.events|, 0), Current(w.(handled := w.handled + 1)).cache) in w'.store.saving
  {}

  lemma SaveFinishes(keep: int, interval: int, actions: seq<WorldAction>, m: Metadata, c: Content)
    requires keep >= 1 && interval >= 1 && (m, c) in RunWorld(keep, interval, actions).store.saving
    ensures var w, w' := RunWorld(keep, interval, actions),
                         RunWorld(keep, interval, actions + [Background(CompleteSave(m, c))]);
            && w' == w.(store := w'.store)
            && w'.store.events == w.store.events && w'.store.snapshots == w.store.snapshots[m := c]
  {
    NextInBackground(keep, interval, actions, CompleteSave(m, c));
  }

  /** The remaining handlers run, and ask for snapshots that are never finished. */
  lemma {:induction false} OthersHandled(keep: int, interval: int, actions: seq<WorldAction>)
    returns (more: seq<WorldAction>)
    requires keep >= 1 && interval >= 1 && NoRestarts(actions)
    ensures var w, w' := RunWorld(keep, interval, actions), RunWorld(keep, interval, more);
            && w'.store.events == w.store.events && w'.store.snapshots == w.store.snapshots
            && w'.handled == |w'.store.events|
    ensures NoRestarts(more)
    decreases |RunWorld(keep, interval, actions).store.events| - RunWorld(keep, interval, actions).handled
  {
    var w := RunWorld(keep, interval, actions);
    more := actions;
    if w.handled < |w.store.events| {
      var next := HandleNext(|w.store.events| - w.handled - 1, 1);
      NextWorld(keep, interval, actions, next);
      more := OthersHandled(keep, interval, actions + [next]);
    }
  }

  /**
   A command's first handler saves under the number of its last event; the save finishes, and the others run. The
   snapshot is the only one, and recovery comes to what the first handler had cached.
   */
  lemma OnlyFirstSaved(keep: int, interval: int, n: nat, batch: seq<LinkEvent>)
    returns (actions: seq<WorldAction>, m: Metadata)
    requires keep >= 1 && interval >= 1 && batch != [] && Saves(batch[0]) && Due(interval, n + |batch|)
    ensures var w := RunWorld(keep, interval, actions);
            && w.store.events == Copies(FILL, n) + batch && w.handled == |w.store.events|
            && IsLatest(w.store, m) && m.seqNr == |w.store.events|
            && RecoverFrom(w.store, Some(m))
               == Restore(HandleEvents(Restarted(NOTHING), Copies(FILL, n) + [batch[0]]).cache)
    ensures CleanRun(keep, interval, actions, Kind(true, false))
  {
    var c;
    actions, m, c := FirstSaved(keep, interval, n, batch);
    actions := OthersHandled(keep, interval, actions);
    NoRestartsClean(keep, interval, actions);
    var s := RunWorld(keep, interval, actions).store;
    RestartReplays(s, Some(m));
    assert s.events[m.seqNr..] == [];
  }

  lemma Commanded(keep: int, interval: int, n: nat, batch: seq<LinkEvent>) returns (actions: seq<WorldAction>)
    requires keep >= 1 && interval >= 1
    ensures var w := RunWorld(keep, interval, actions);
            && w == World(w.store, 0, n, NOTHING)
            && w.store.events == Copies(FILL, n) + batch && w.store.snapshots == map[]
    ensures NoRestarts(actions)
  {
    actions := Filled(keep, interval, n);
    assert [] + Copies(FILL, n) == Copies(FILL, n);
    CommandPersists(keep, interval, RunWorld(keep, interval, actions), batch);
    NextWorld(keep, interval, actions, Command(batch));
    actions := actions + [Command(batch)];
  }

  lemma FirstCache(w: World, e: LinkEvent)
    requires w.recovered == NOTHING && w.from == 0 && w.handled < |w.store.events| && w.store.events[w.handled] == e
    ensures Current(w.(handled := w.handled + 1)).cache
            == HandleEvents(Restarted(NOTHING), w.store.events[..w.handled] + [e]).cache
  {
    assert w.store.events[0..w.handled + 1] == w.store.events[..w.handled] + [e];
  }

  /** The first handler of the command asks for a snapshot under the number of its last event. */
  lemma FirstAsks(keep: int, interval: int, actions: seq<WorldAction>, n: nat, batch: seq<LinkEvent>)
    requires keep >= 1 && interval >= 1 && batch != [] && Saves(batch[0]) && Due(interval, n + |batch|)
    requires var w := RunWorld(keep, interval, actions);
             w == World(w.store, 0, n, NOTHING) && w.store.events == Copies(FILL, n) + batch
    ensures var s, s' := RunWorld(keep, interval, actions).store,
                         RunWorld(keep, interval, actions + [HandleNext(|batch| - 1, 0)]).store;
            && s'.events == s.events && s'.snapshots == s.snapshots
            && (Metadata(n + |batch|, 0), HandleEvents(Restarted(NOTHING), Copies(FILL, n) + [batch[0]]).cache)
               in s'.saving
  {
    var w := RunWorld(keep, interval, actions);
    assert w.store.events[..n] == Copies(FILL, n) && w.store.events[n] == batch[0];
    FirstCache(w, batch[0]);
    FirstHandlerSaves(keep, interval, w, |batch| - 1);
    NextWorld(keep, interval, actions, HandleNext(|batch| - 1, 0));
  }

  lemma FirstSaved(keep: int, interval: int, n: nat, batch: seq<LinkEvent>)
    returns (actions: seq<WorldAction>, m: Metadata, c: Content)
    requires keep >= 1 && interval >= 1 && batch != [] && Saves(batch[0]) && Due(interval, n + |batch|)
    ensures var s := RunWorld(keep, interval, actions).store;
            && s.events == Copies(FILL, n) + batch && s.snapshots == map[m := c] && m.seqNr == |s.events|
    ensures c == HandleEvents(Restarted(NOTHING), Copies(FILL, n) + [batch[0]]).cache && NoRestarts(actions)
  {
    actions := Commanded(keep, interval, n, batch);
    FirstAsks(keep, interval, actions, n, batch);
    actions := actions + [HandleNext(|batch| - 1, 0)];
    m, c := Metadata(n + |batch|, 0), HandleEvents(Restarted(NOTHING), Copies(FILL, n) + [batch[0]]).cache;
    SaveFinishes(keep, interval, actions, m, c);
    actions := actions + [Background(CompleteSave(m, c))];
  }

  // ---- What is lost ----

  lemma {:induction false} FillLeavesNothing(n: nat)
    ensures ReplayLink(NOTHING, Copies(FILL, n)) == NOTHING
  {
    if n > 0 {
      FillLeavesNothing(n - 1);
    }
  }

  lemma ReplayAfterFill(n: nat, events: seq<LinkEvent>)
    ensures ReplayLink(NOTHING, Copies(FILL, n) + events) == ReplayLink(NOTHING, events)
  {
    FillLeavesNothing(n);
    ReplayLinkConcat(NOTHING, Copies(FILL, n), events);
  }

  lemma ReplayOneMore(d: Durable, events: seq<LinkEvent>, e: LinkEvent)
    ensures ReplayLink(d, events + [e]) == ApplyLink(ReplayLink(d, events), e)
  {
    assert (events + [e])[..|events|] == events;
  }

  lemma MultipleDue(interval: int, k: nat)
    requires interval >= 1 && 1 <= k <= 3
    ensures Due(interval, k * interval)
  {
    assert (interval + interval) % interval == 0 && (interval + interval + interval) % interval == 0;
    assert 2 * interval == interval + interval && 3 * interval == interval + interval + interval;
  }

  /** A request message with two targets, of which the second is lost in the first restart. */
  lemma TargetLost(keep: int, interval: int, rid: int, target: string, other: int, target': string)
    returns (actions: seq<WorldAction>, m: Metadata)
    requires keep >= 1 && interval >= 1 && rid != other
    ensures var s := RunWorld(keep, interval, actions).store;
            && CleanRun(keep, interval, actions, Kind(true, false)) && IsLatest(s, m)
            && other in ReplayLink(NOTHING, s.events).tables.byRid
            && other !in RecoverFrom(s, Some(m)).tables.byRid
  {
    var e1, e2 := RequesterEvent(RidTarget(rid, target)), RequesterEvent(RidTarget(other, target'));
    var e3 := RequesterEvent(LastRidSet(other));
    var n := 3 * interval - 3;
    MultipleDue(interval, 3);
    actions, m := OnlyFirstSaved(keep, interval, n, [e1, e2, e3]);
    ReplayAfterFill(n, [e1, e2, e3]);
    SecondTargetLive(e1, e2, e3);
    FirstTargetCached(n, e1);
  }

  lemma SecondTargetLive(e1: LinkEvent, e2: LinkEvent, e3: LinkEvent)
    requires e2.RequesterEvent? && e2.event.RidTarget? && e3.RequesterEvent? && e3.event.LastRidSet?
    ensures e2.event.rid in ReplayLink(NOTHING, [e1, e2, e3]).tables.byRid
  {
    assert [e1, e2, e3] == [e1, e2] + [e3] && [e1, e2] == [e1] + [e2];
    ReplayOneMore(NOTHING, [e1], e2);
    ReplayOneMore(NOTHING, [e1, e2], e3);
  }

  lemma FirstTargetCached(n: nat, e: LinkEvent)
    requires e.RequesterEvent? && e.event.RidTarget?
    ensures Restore(HandleEvents(Restarted(NOTHING), Copies(FILL, n) + [e]).cache).tables.byRid
            == map[e.event.rid := e.event.target]
  {
    CacheAfter(NOTHING, Copies(FILL, n) + [e]);
    assert e in Copies(FILL, n) + [e];
    ReplayAfterFill(n, [e]);
    assert [e] == [] + [e];
    ReplayOneMore(NOTHING, [], e);
  }

  /** A connection that displaces another, of which the first restart recovers the disconnection only. */
  lemma DisplacingEndpointLost(keep: int, interval: int, gone: BaseState, state: BaseState)
    returns (actions: seq<WorldAction>, m: Metadata)
    requires keep >= 1 && interval >= 1 && gone.endpoint.None? && state.endpoint.Some?
    ensures var s := RunWorld(keep, interval, actions).store;
            && CleanRun(keep, interval, actions, Kind(true, false)) && IsLatest(s, m)
            && ReplayLink(NOTHING, s.events).base == state
            && RecoverFrom(s, Some(m)).base == gone
  {
    var e1, e2, n := BaseEvent(gone), BaseEvent(state), 2 * interval - 2;
    MultipleDue(interval, 2);
    actions, m := OnlyFirstSaved(keep, interval, n, [e1, e2]);
    ReplayAfterFill(n, [e1, e2]);
    assert [e1, e2] == [e1] + [e2];
    ReplayOneMore(NOTHING, [e1], e2);
    CacheAfter(NOTHING, Copies(FILL, n) + [e1]);
    assert e1 in Copies(FILL, n) + [e1];
    ReplayOneMore(NOTHING, Copies(FILL, n), e1);
  }
}

/** How a link and its store lose the endpoint for good, whatever the number of snapshots and the interval are. */
module LostEndpoint {
  import opened Collections
  import opened RequesterTables
  import opened DurableState
  import opened Snapshots
  import opened SnapshotContent
  import opened LinkRuns

  lemma NextWorld(keep: int, interval: int, actions: seq<WorldAction>, a: WorldAction)
    requires keep >= 1 && interval >= 1
    ensures RunWorld(keep, interval, actions + [a]) == WorldStep(keep, interval, RunWorld(keep, interval, actions), a)
  {
    assert (actions + [a])[..|actions|] == actions;
  }

  lemma PersistOne(keep: int, interval: int, s: Store, e: LinkEvent)
    ensures PersistAll(keep, interval, s, [e]) == Snapshots.Step(keep, interval, s, Persist(e))
  {
    assert [e][..0] == [];
  }

  lemma CommandOfOne(keep: int, interval: int, w: World, e: LinkEvent)
    requires WorldInv(w) && w.handled == |w.store.events|
    ensures WorldStep(keep, interval, w, Command([e]))
            == w.(store := Snapshots.Step(keep, interval, w.store, Persist(e)))
  {
    PersistOne(keep, interval, w.store, e);
  }

  /** Between the worlds these events were persisted and handled, and nothing was saved. */
  ghost predicate Handled(w: World, w': World, events: seq<LinkEvent>) {
    && w.handled == |w.store.events| && w'.handled == |w'.store.events|
    && w'.store.events == w.store.events + events && w'.store.snapshots == w.store.snapshots
    && w'.from == w.from && w'.recovered == w.recovered
  }

  ghost predicate NoRestarts(actions: seq<WorldAction>) {
    forall a <- actions :: !a.Restart?
  }

  /** If a snapshot was due at the last event, its handler has asked for it. */
  ghost predicate AskedIfDue(interval: int, w: World)
    requires w.from <= w.handled <= |w.store.events|
  {
    Due(interval, w.handled) ==> (Metadata(w.handled, 0), Current(w).cache) in w.store.saving
  }

  lemma HandlesLast(keep: int, interval: int, w: World, e: LinkEvent)
    requires WorldInv(w) && w.handled == |w.store.events| && Saves(e)
    ensures var w1 := w.(store := Snapshots.Step(keep, interval, w.store, Persist(e)));
            && w1.from <= w1.handled <= |w1.store.events|
            && var w2 := WorldStep(keep, interval, w1, HandleNext(0, 0));
               w2.from <= w2.handled <= |w2.store.events| && Handled(w, w2, [e]) && AskedIfDue(interval, w2)
  {}

  /** One more event is persisted and handled; its handler asks for a snapshot when one is due. */
  lemma HandledOne(keep: int, interval: int, actions: seq<WorldAction>, e: LinkEvent) returns (more: seq<WorldAction>)
    requires keep >= 1 && interval >= 1 && Saves(e)
    requires RunWorld(keep, interval, actions).handled == |RunWorld(keep, interval, actions).store.events|
    ensures Handled(RunWorld(keep, interval, actions), RunWorld(keep, interval, more), [e])
    ensures AskedIfDue(interval, RunWorld(keep, interval, more))
    ensures NoRestarts(actions) ==> NoRestarts(more)
  {
    var w := RunWorld(keep, interval, actions);
    CommandOfOne(keep, interval, w, e);
    NextWorld(keep, interval, actions, Command([e]));
    HandlesLast(keep, interval, w, e);
    more := actions + [Command([e])];
    NextWorld(keep, interval, more, HandleNext(0, 0));
    more := more + [HandleNext(0, 0)];
  }

  function Copies(e: LinkEvent, n: nat): (r: seq<LinkEvent>)
    ensures |r| == n && forall x <- r :: x == e
  {
    if n == 0 then [] else Copies(e, n - 1) + [e]
  }

  lemma HandledBoth(a: World, b: World, c: World, more: seq<LinkEvent>, e: LinkEvent)
    requires Handled(a, b, more) && Handled(b, c, [e])
    ensures Handled(a, c, more + [e])
  {
    assert a.store.events + more + [e] == a.store.events + (more + [e]);
  }

  lemma {:induction false} HandledMany(keep: int, interval: int, actions: seq<WorldAction>, e: LinkEvent, n: nat)
    returns (more: seq<WorldAction>)
    requires keep >= 1 && interval >= 1 && Saves(e) && n >= 1
    requires RunWorld(keep, interval, actions).handled == |RunWorld(keep, interval, actions).store.events|
    ensures Handled(RunWorld(keep, interval, actions), RunWorld(keep, interval, more), Copies(e, n))
    ensures AskedIfDue(interval, RunWorld(keep, interval, more))
    ensures NoRestarts(actions) ==> NoRestarts(more)
    decreases n
  {
    if n == 1 {
      more := HandledOne(keep, interval, actions, e);
      assert Copies(e, 1) == [] + [e] == [e];
    } else {
      var front := HandledMany(keep, interval, actions, e, n - 1);
      more := HandledOne(keep, interval, front, e);
      HandledBoth(RunWorld(keep, interval, actions), RunWorld(keep, interval, front), RunWorld(keep, interval, more),
                  Copies(e, n - 1), e);
    }
  }

  lemma RestartStep(keep: int, interval: int, w: World, m: Option<Metadata>)
    requires WorldInv(w) && Offers(w.store, m)
    ensures WorldStep(keep, interval, w, Restart(m))
            == World(w.store, |w.store.events|, |w.store.events|, RecoverFrom(w.store, m))
  {}

  lemma RestartsFromJournal(keep: int, interval: int, actions: seq<WorldAction>)
    requires keep >= 1 && interval >= 1 && RunWorld(keep, interval, actions).store.snapshots == map[]
    ensures var s := RunWorld(keep, interval, actions).store;
            RunWorld(keep, interval, actions + [Restart(None)])
            == World(s, |s.events|, |s.events|, ReplayLink(NOTHING, s.events))
  {
    NextWorld(keep, interval, actions, Restart(None));
    RestartStep(keep, interval, RunWorld(keep, interval, actions), None);
    RestartReplays(RunWorld(keep, interval, actions).store, None);
  }

  lemma RestartsFrom(keep: int, interval: int, actions: seq<WorldAction>, m: Metadata)
    requires keep >= 1 && interval >= 1 && IsLatest(RunWorld(keep, interval, actions).store, m)
    ensures var s := RunWorld(keep, interval, actions).store;
            && m.seqNr <= |s.events|
            && RunWorld(keep, interval, actions + [Restart(Some(m))])
               == World(s, |s.events|, |s.events|, ReplayLink(Restore(s.snapshots[m]), s.events[m.seqNr..]))
  {
    NextWorld(keep, interval, actions, Restart(Some(m)));
    RestartStep(keep, interval, RunWorld(keep, interval, actions), Some(m));
    RestartReplays(RunWorld(keep, interval, actions).store, Some(m));
  }

  /** A link whose endpoint connected, restarted with nothing but its journal. */
  lemma ConnectedThenRestarted(keep: int, interval: int, state: BaseState) returns (actions: seq<WorldAction>)
    requires keep >= 1 && interval >= 1
    ensures var w := RunWorld(keep, interval, actions);
            && w.store.events == [BaseEvent(state)] && w.store.snapshots == map[] && w.from == w.handled == 1
  {
    actions := HandledOne(keep, interval, [], BaseEvent(state));
    assert [] + [BaseEvent(state)] == [BaseEvent(state)];
    RestartsFromJournal(keep, interval, actions);
    actions := actions + [Restart(None)];
  }

  lemma TwoIntervalsDue(interval: int)
    requires interval >= 1
    ensures Due(interval, 2 * interval)
  {
    assert 2 * interval == interval + interval;
    assert (interval + interval) % interval == 0;
  }

  lemma NextInBackground(keep: int, interval: int, actions: seq<WorldAction>, a: Action)
    requires keep >= 1 && interval >= 1 && !a.Persist? && !a.RequestSave?
    ensures var w := RunWorld(keep, interval, actions);
            RunWorld(keep, interval, actions + [Background(a)])
            == w.(store := Snapshots.Step(keep, interval, w.store, a))
  {
    NextWorld(keep, interval, actions, Background(a));
  }

  lemma SavedAloneInStore(keep: int, interval: int, s: Store, m: Metadata, c: Content)
    requires StoreInv(s) && s.snapshots == map[] && (m, c) in s.saving && m.seqNr == |s.events|
    ensures var s1 := Snapshots.Step(keep, interval, s, CompleteSave(m, c));
            var s2 := Snapshots.Step(keep, interval, s1, ReceiveSuccess(m));
            var s3 := Snapshots.Step(keep, interval, s2, Execute(DeleteMessages(m.seqNr)));
            s3.events == s.events && s3.snapshots == map[m := c] && s3.journal == map[]
  {
    var s1 := Snapshots.Step(keep, interval, s, CompleteSave(m, c));
    var s2 := Snapshots.Step(keep, interval, s1, ReceiveSuccess(m));
    assert DeleteMessages(m.seqNr) in s2.commands && s2.journal == s.journal;
  }

  /** The snapshot that is due is saved, and the journal up to it deleted. */
  lemma SavedAlone(keep: int, interval: int, actions: seq<WorldAction>, m: Metadata, c: Content)
    returns (more: seq<WorldAction>)
    requires keep >= 1 && interval >= 1
    requires var s := RunWorld(keep, interval, actions).store;
             s.snapshots == map[] && (m, c) in s.saving && m.seqNr == |s.events|
    ensures var s, s' := RunWorld(keep, interval, actions).store, RunWorld(keep, interval, more).store;
            s'.events == s.events && s'.snapshots == map[m := c] && s'.journal == map[]
  {
    SavedAloneInStore(keep, interval, RunWorld(keep, interval, actions).store, m, c);
    NextInBackground(keep, interval, actions, CompleteSave(m, c));
    more := actions + [Background(CompleteSave(m, c))];
    NextInBackground(keep, interval, more, ReceiveSuccess(m));
    more := more + [Background(ReceiveSuccess(m))];
    NextInBackground(keep, interval, more, Execute(DeleteMessages(m.seqNr)));
    more := more + [Background(Execute(DeleteMessages(m.seqNr)))];
  }

  lemma {:induction false} OnlyTablesAfter(state: BaseState, e: LinkEvent, n: nat)
    requires e.RequesterEvent?
    ensures ReplayLink(NOTHING, [BaseEvent(state)] + Copies(e, n)).base == state
  {
    var events := [BaseEvent(state)] + Copies(e, n);
    if n == 0 {
      assert events[..0] == [];
    } else {
      OnlyTablesAfter(state, e, n - 1);
      assert events[..|events| - 1] == [BaseEvent(state)] + Copies(e, n - 1);
    }
  }

  /**
   An endpoint connects; the link restarts; streams are closed until a snapshot is due, before the base state
   changes again. The snapshot has no base state, and the journal up to it is deleted: the next restart recovers
   no endpoint, though the link never disconnected, and nothing stored has it any more.
   */
  lemma EndpointLost(keep: int, interval: int, state: BaseState, rid: int)
    returns (actions: seq<WorldAction>)
    requires keep >= 1 && interval >= 1 && state.endpoint.Some?
    ensures var w := RunWorld(keep, interval, actions);
            && w.store.events == [BaseEvent(state)] + Copies(RequesterEvent(RemoveRid(rid)), 2 * interval - 1)
            && ReplayLink(NOTHING, w.store.events).base == state
            && w.recovered.base == NO_BASE
            && w.store.journal == map[] && (forall m <- w.store.snapshots :: w.store.snapshots[m].base.None?)
  {
    var e := RequesterEvent(RemoveRid(rid));
    var m, c;
    TwoIntervalsDue(interval);
    actions, m, c := AskedWithoutBase(keep, interval, state, e, 2 * interval - 1);
    actions := SavedAlone(keep, interval, actions, m, c);
    RestartsFrom(keep, interval, actions, m);
    actions := actions + [Restart(Some(m))];
    OnlyTablesAfter(state, e, 2 * interval - 1);
  }

  /** After the restart a snapshot is asked for that has no base state. */
  lemma AskedWithoutBase(keep: int, interval: int, state: BaseState, e: LinkEvent, n: nat)
    returns (actions: seq<WorldAction>, m: Metadata, c: Content)
    requires keep >= 1 && interval >= 1 && Saves(e) && e.RequesterEvent? && n >= 1 && Due(interval, n + 1)
    ensures var s := RunWorld(keep, interval, actions).store;
            && s.events == [BaseEvent(state)] + Copies(e, n) && s.snapshots == map[]
            && (m, c) in s.saving && m.seqNr == |s.events| && c.base == None
  {
    actions := ConnectedThenRestarted(keep, interval, state);
    actions := HandledMany(keep, interval, actions, e, n);
    var w := RunWorld(keep, interval, actions);
    NoBaseCached(w, state, e, n);
    m, c := Metadata(w.handled, 0), Current(w).cache;
  }

  lemma NoBaseCached(w: World, state: BaseState, e: LinkEvent, n: nat)
    requires w.from == 1 <= w.handled == |w.store.events| && e.RequesterEvent?
    requires w.store.events == [BaseEvent(state)] + Copies(e, n)
    ensures Current(w).cache.base == None
  {
    assert w.store.events[1..w.handled] == Copies(e, n);
    CacheAfter(w.recovered, Copies(e, n));
  }
}

/** Which base state a restart of the connection recovers, from what the store still has. */
module ConnectionRecovery {
  import opened Collections
  import opened RequesterTables
  import opened DurableState
  import opened Snapshots
  import opened SnapshotContent
  import opened LinkRuns
  import opened Restarts
  import Connection
  import LostEndpoint

  /** The base states among the events, in order. */
  function BaseStates(events: seq<LinkEvent>): seq<BaseState> {
    if events == [] then []
    else
      var past := BaseStates(events[..|events| - 1]);
      match events[|events| - 1]
      case BaseEvent(state) => past + [state]
      case RequesterEvent(_) => past
  }

  lemma {:induction false} BaseOfReplay(d: Durable, events: seq<LinkEvent>)
    ensures ReplayLink(d, events).base == Connection.RecoveredBase(Some(d.base), BaseStates(events))
    ensures BaseStates(events) != [] <==> WrittenBy(events, BaseCell)
    ensures WrittenBy(events, BaseCell) <==> HasBaseEvent(events)
  {
    if events != [] {
      var front, last := events[..|events| - 1], events[|events| - 1];
      BaseOfReplay(d, front);
      assert events == front + [last];
      assert WrittenBy(events, BaseCell) <==> WrittenBy(front, BaseCell) || Writes(last, BaseCell);
      assert HasBaseEvent(events) <==> HasBaseEvent(front) || last.BaseEvent?;
    }
  }

  /** Replaying everything recovers the last base state ever persisted. */
  lemma FullReplayIsLastPersisted(events: seq<LinkEvent>)
    ensures ReplayLink(NOTHING, events).base == Connection.LastPersisted(BaseStates(events))
  {
    BaseOfReplay(NOTHING, events);
  }

  /** In every run a restart recovers what the snapshot's base state and the base events after it come to. */
  lemma RestartRecoversBase(keep: int, interval: int, actions: seq<WorldAction>, m: Metadata)
    requires keep >= 1 && interval >= 1 && IsLatest(RunWorld(keep, interval, actions).store, m)
    ensures var s := RunWorld(keep, interval, actions).store;
            && m.seqNr <= |s.events|
            && RecoverFrom(s, Some(m)).base
               == Connection.RecoveredBase(s.snapshots[m].base, BaseStates(s.events[m.seqNr..]))
  {
    var s := RunWorld(keep, interval, actions).store;
    RestartReplays(s, Some(m));
    BaseOfReplay(Restore(s.snapshots[m]), s.events[m.seqNr..]);
  }

  /**
   As long as restarts were exact, the next one recovers the last base state persisted if and only if one was
   persisted after the number of its snapshot, or the last one handled before it was taken, in the incarnation that
   took it, is the last one up to that number; if none was handled then none may have been persisted.
   */
  lemma NextRestartRecoversLastPastNumberIff(keep: int, interval: int, actions: seq<WorldAction>, kind: Kind,
                                             m: Metadata) returns (restart: nat, handled: nat)
    requires keep >= 1 && interval >= 1 && CleanRun(keep, interval, actions, kind)
    requires IsLatest(RunWorld(keep, interval, actions).store, m)
    ensures var s := RunWorld(keep, interval, actions).store;
            && restart < handled <= m.seqNr <= |s.events| && (kind.oneIncarnation ==> restart == 0)
            && (RecoverFrom(s, Some(m)).base == Connection.LastPersisted(BaseStates(s.events))
                <==> BaseStates(s.events[m.seqNr..]) != []
                     || Connection.LastPersisted(BaseStates(s.events[restart..handled]))
                        == Connection.LastPersisted(BaseStates(s.events[..m.seqNr])))
  {
    var readAt;
    restart, handled, readAt := NextRestartPastNumberIff(keep, interval, actions, kind, m);
    var s := RunWorld(keep, interval, actions).store;
    RestartRecoversBase(keep, interval, actions, m);
    CachedBase(s.events, restart, handled);
    ThreeStates(s.events, m.seqNr, |s.events|);
    LastOfTwo(BaseStates(s.events[restart..handled]), BaseStates(s.events[..m.seqNr]), BaseStates(s.events[m.seqNr..]));
  }

  lemma LastOfTwo(y: seq<BaseState>, x: seq<BaseState>, z: seq<BaseState>)
    ensures Connection.RecoveredBase(if y == [] then None else Some(Connection.LastPersisted(y)), z)
            == Connection.LastPersisted(x + z)
            <==> z != [] || Connection.LastPersisted(y) == Connection.LastPersisted(x)
  {
    if z == [] {
      assert x + z == x;
    }
  }

  /**
   When snapshots are saved by the last handler that saves before their number, and restarts were exact so far, the
   next one recovers the last base state persisted if and only if one was persisted since the incarnation that took
   the snapshot started, or none before.
   */
  lemma NextRestartRecoversLastIff(keep: int, interval: int, actions: seq<WorldAction>, kind: Kind, m: Metadata)
    returns (restart: nat)
    requires keep >= 1 && interval >= 1 && kind.lastHandlers && CleanRun(keep, interval, actions, kind)
    requires IsLatest(RunWorld(keep, interval, actions).store, m)
    ensures var s := RunWorld(keep, interval, actions).store;
            && restart <= m.seqNr <= |s.events| && (kind.oneIncarnation ==> restart == 0)
            && (RecoverFrom(s, Some(m)).base == Connection.LastPersisted(BaseStates(s.events))
                <==> BaseStates(s.events[restart..]) != []
                     || Connection.LastPersisted(BaseStates(s.events[..restart])) == NO_BASE)
  {
    var readAt;
    restart, readAt := NextRestartIsExactIff(keep, interval, actions, kind, m);
    var s := RunWorld(keep, interval, actions).store;
    RestartRecoversBase(keep, interval, actions, m);
    CachedBaseIff(s.events, restart, m.seqNr);
  }

  /** The base state that an incarnation has cached is the last one it handled. */
  lemma CachedBase(events: seq<LinkEvent>, restart: nat, n: nat)
    requires restart <= n <= |events|
    ensures var states := BaseStates(events[restart..n]);
            CacheOf(events, restart, n).base
            == if states == [] then None else Some(Connection.LastPersisted(states))
  {
    var recovered := ReplayLink(NOTHING, events[..restart]);
    CacheAfter(recovered, events[restart..n]);
    BaseOfReplay(recovered, events[restart..n]);
  }

  lemma LastOfThree(x: seq<BaseState>, y: seq<BaseState>, z: seq<BaseState>)
    ensures Connection.RecoveredBase(if y == [] then None else Some(Connection.LastPersisted(y)), z)
            == Connection.LastPersisted(x + (y + z))
            <==> y + z != [] || Connection.LastPersisted(x) == NO_BASE
  {
    if y + z == [] {
      assert x + (y + z) == x;
    } else {
      assert (x + (y + z))[|x + (y + z)| - 1] == (y + z)[|y + z| - 1];
    }
  }

  lemma CachedBaseIff(events: seq<LinkEvent>, restart: nat, n: nat)
    requires restart <= n <= |events|
    ensures Connection.RecoveredBase(CacheOf(events, restart, n).base, BaseStates(events[n..]))
            == Connection.LastPersisted(BaseStates(events))
            <==> BaseStates(events[restart..]) != []
                 || Connection.LastPersisted(BaseStates(events[..restart])) == NO_BASE
  {
    CachedBase(events, restart, n);
    ThreeStates(events, restart, n);
    LastOfThree(BaseStates(events[..restart]), BaseStates(events[restart..n]), BaseStates(events[n..]));
  }

  lemma ThreeStates(events: seq<LinkEvent>, a: nat, b: nat)
    requires a <= b <= |events|
    ensures BaseStates(events[a..]) == BaseStates(events[a..b]) + BaseStates(events[b..])
    ensures BaseStates(events) == BaseStates(events[..a]) + BaseStates(events[a..])
  {
    assert events[a..b] + events[b..] == events[a..] && events[..a] + events[a..] == events;
    TailStates(events[a..b], events[b..]);
    TailStates(events[..a], events[a..]);
  }

  lemma {:induction false} TailStates(a: seq<LinkEvent>, b: seq<LinkEvent>)
    ensures BaseStates(a + b) == BaseStates(a) + BaseStates(b)
  {
    if b == [] {
      assert a + b == a;
    } else {
      assert (a + b)[..|a + b| - 1] == a + b[..|b| - 1];
      TailStates(a, b[..|b| - 1]);
    }
  }

  /**
   So a restart may recover a base state that was never the last one: for any number of snapshots kept and any
   interval there is a run after which a link that watches its endpoint goes on watching it without having it.
   */
  lemma WatchesWithoutEndpoint(keep: int, interval: int, state: BaseState, rid: int)
    returns (actions: seq<WorldAction>)
    requires keep >= 1 && interval >= 1 && state.endpoint.Some?
    ensures var w := RunWorld(keep, interval, actions);
            && Connection.LastPersisted(BaseStates(w.store.events)) == state && w.recovered.base == NO_BASE
            && forall l: Connection.Link :: l.base == state && l.watched == {state.endpoint.value} ==>
                 Connection.WatchesOwn(l) && !Connection.WatchesOwn(Connection.Restart(l, w.recovered.base, true))
  {
    actions := LostEndpoint.EndpointLost(keep, interval, state, rid);
    var w := RunWorld(keep, interval, actions);
    FullReplayIsLastPersisted(w.store.events);
    forall l: Connection.Link | l.base == state && l.watched == {state.endpoint.value}
      ensures Connection.WatchesOwn(l) && !Connection.WatchesOwn(Connection.Restart(l, w.recovered.base, true))
    {
      Connection.RestartKeepsWatchesIff(l, w.recovered.base, true);
    }
  }
}

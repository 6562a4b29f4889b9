/** The connection layer of a link as an actor, with its fields and deferred persist handlers. */
module ConnectionActor {
  import opened Collections
  import opened Dsa
  import opened DurableState
  import opened Connection

  class AbstractDSLinkActor {
    var isConnected: bool
    var endpoint: Option<ActorRef>
    var connInfo: ConnectionInfo
    var lastConnected: Option<nat>
    var lastDisconnected: Option<nat>
    var watched: set<ActorRef>
    var mailbox: seq<Command>
    var stash: seq<Command>
    var journal: seq<BaseState>
    var pills: seq<ActorRef>
    var delivered: seq<(ActorRef, seq<Response>)>
    var registry: seq<bool>
    ghost var handled: seq<Command>
    ghost var actions: seq<Action>

    ghost function View(): Link
      reads this
    {
      Link(isConnected, BaseState(endpoint, connInfo, lastConnected, lastDisconnected), watched, mailbox, stash,
           journal, pills, delivered, registry, handled)
    }

    /** The fields are where the history of actions leads. */
    ghost predicate Valid()
      reads this
    {
      View() == Run(actions) && Attached(View())
    }

    constructor ()
      ensures Valid() && actions == []
    {
      isConnected, endpoint, connInfo, lastConnected, lastDisconnected := false, None, NO_BASE.connInfo, None, None;
      watched, mailbox, stash, journal, pills, delivered, registry := {}, [], [], [], [], [], [];
      handled, actions := [], [];
    }

    method Tell(c: Command)
      requires Valid()
      modifies this
      ensures Valid() && actions == old(actions) + [Arrive(c)]
    {
      mailbox := mailbox + [c];
      Record(Arrive(c));
    }

    /** Processes the oldest message of the mailbox: the behaviour's handler, then the handlers it left pending. */
    method ProcessOne(now: nat)
      requires Valid()
      modifies this
      ensures Valid() && actions == old(actions) + [Process(now)]
    {
      if mailbox != [] {
        var c := mailbox[0];
        mailbox := mailbox[1..];
        if isConnected {
          handled := handled + [c];
          ConnectedReceive(c, now);
        } else if Stashes(c) {
          stash := stash + [c];
        } else {
          handled := handled + [c];
          if c.ConnectEndpoint? {
            var p := ConnectToEndpoint(c.ref, c.ci, now);
            RunOne(View(), p);
            Handle(p);
          }
        }
      }
      Record(Process(now));
    }

    ghost method Record(a: Action)
      requires View() == Step(Run(actions), a) && Attached(Run(actions))
      modifies this`actions
      ensures Valid() && actions == old(actions) + [a]
    {
      ConnectionInvariant(actions + [a]);
      assert (actions + [a])[..|actions|] == actions;
      actions := actions + [a];
    }

    method ConnectedReceive(c: Command, now: nat)
      modifies this`isConnected, this`endpoint, this`connInfo, this`lastConnected, this`lastDisconnected, this`watched,
               this`mailbox, this`stash, this`journal, this`pills, this`delivered, this`registry
      ensures var (after, pending) := WhileConnected(old(View()), c, now); View() == RunHandlers(after, pending)
    {
      var pending: seq<Persisted> := [];
      match c {
        case DisconnectEndpoint(kill) =>
          if endpoint.Some? {
            var p := DisconnectFromEndpoint(kill, now);
            pending := [p];
          }
        case Terminated(ref) =>
          if endpoint == Some(ref) {
            var p := DisconnectFromEndpoint(false, now);
            pending := [p];
          }
        case ConnectEndpoint(ci, ref) =>
          if endpoint != Some(ref) {
            if endpoint.Some? {
              var p := DisconnectFromEndpoint(true, now);
              pending := [p];
            }
            var q := ConnectToEndpoint(ref, ci, now);
            pending := pending + [q];
          }
        case ResponseEnvelope(responses) =>
          var others := Others(responses);
          if others != [] {
            SendToEndpoint(others);
          }
        case _ =>
      }
      RunPending(pending);
    }

    /** Prepares the event of a connection; its handler runs after the command. */
    method ConnectToEndpoint(ref: ActorRef, ci: ConnectionInfo, now: nat) returns (p: Persisted)
      ensures p == ConnectEvent(View(), ci, ref, now)
    {
      p := ConnectHandler(BaseState(Some(ref), ci, Some(now), lastDisconnected), ref);
    }

    /** Unwatches the endpoint, kills it if asked to, and prepares the event of a disconnection. */
    method DisconnectFromEndpoint(kill: bool, now: nat) returns (p: Persisted)
      requires endpoint.Some?
      modifies this`watched, this`pills
      ensures p == DisconnectEvent(old(View()), now) && View() == Detach(old(View()), kill)
    {
      watched := watched - {endpoint.value};
      if kill {
        pills := pills + [endpoint.value];
      }
      p := DisconnectHandler(BaseState(None, connInfo, lastConnected, Some(now)));
    }

    method SendToEndpoint(others: seq<Response>)
      modifies this`delivered
      ensures delivered == if endpoint.Some? then old(delivered) + [(endpoint.value, others)] else old(delivered)
    {
      if endpoint.Some? {
        delivered := delivered + [(endpoint.value, others)];
      }
    }

    method RunPending(pending: seq<Persisted>)
      modifies this`isConnected, this`endpoint, this`connInfo, this`lastConnected, this`lastDisconnected, this`watched,
               this`mailbox, this`stash, this`journal, this`registry
      ensures View() == RunHandlers(old(View()), pending)
    {
      for i := 0 to |pending|
        invariant View() == RunHandlers(old(View()), pending[..i])
      {
        assert pending[..i + 1][..i] == pending[..i];
        Handle(pending[i]);
      }
      assert pending[..|pending|] == pending;
    }

    method Handle(p: Persisted)
      modifies this`isConnected, this`endpoint, this`connInfo, this`lastConnected, this`lastDisconnected, this`watched,
               this`mailbox, this`stash, this`journal, this`registry
      ensures View() == RunHandler(old(View()), p)
    {
      match p
      case ConnectHandler(state, ref) =>
        watched := watched + {ref};
        journal := journal + [state];
        UpdateState(state);
        registry := registry + [true];
        UnstashAll();
        isConnected := true;
      case DisconnectHandler(state) =>
        journal := journal + [state];
        UpdateState(state);
        registry := registry + [false];
        isConnected := false;
    }

    method UpdateState(state: BaseState)
      modifies this`endpoint, this`connInfo, this`lastConnected, this`lastDisconnected
      ensures BaseState(endpoint, connInfo, lastConnected, lastDisconnected) == state
    {
      endpoint, connInfo := state.endpoint, state.connInfo;
      lastConnected, lastDisconnected := state.lastConnected, state.lastDisconnected;
    }

    method UnstashAll()
      modifies this`mailbox, this`stash
      ensures mailbox == old(stash) + old(mailbox) && stash == []
    {
      mailbox, stash := stash + mailbox, [];
    }

    /** Fresh base fields, then those of the snapshot that is offered, if it has any, then those of the journal. */
    method ReplayBaseState(offered: Option<BaseState>, events: seq<BaseState>)
      modifies this`endpoint, this`connInfo, this`lastConnected, this`lastDisconnected
      ensures BaseState(endpoint, connInfo, lastConnected, lastDisconnected) == RecoveredBase(offered, events)
    {
      UpdateState(NO_BASE);
      if offered.Some? {
        UpdateState(offered.value);
      }
      for i := 0 to |events|
        invariant BaseState(endpoint, connInfo, lastConnected, lastDisconnected) == RecoveredBase(offered, events[..i])
      {
        UpdateState(events[i]);
      }
      assert events[..|events|] == events;
    }

    /** Recovers the base fields, sets the behaviour by them, and releases the stash. */
    method Restore(offered: Option<BaseState>, events: seq<BaseState>, keepsWatches: bool)
      modifies this`isConnected, this`endpoint, this`connInfo, this`lastConnected, this`lastDisconnected, this`watched,
               this`mailbox, this`stash
      ensures View() == Restart(old(View()), RecoveredBase(offered, events), keepsWatches)
    {
      if !keepsWatches {
        watched := {};
      }
      ReplayBaseState(offered, events);
      isConnected := endpoint.Some?;
      UnstashAll();
    }

    /** A restart, from the base state of the snapshot that is offered, if any, and the base events after it. */
    method RecoverAfterCrash(offered: Option<BaseState>, events: seq<BaseState>, keepsWatches: bool)
      requires Valid()
      modifies this
      ensures Valid() && actions == old(actions) + [Crash(RecoveredBase(offered, events), keepsWatches)]
    {
      Restore(offered, events, keepsWatches);
      Record(Crash(RecoveredBase(offered, events), keepsWatches));
    }
  }
}

/**
 The connection state machine of a link: endpoints connect, displace each other, disconnect and terminate;
 while there is none, messages are stashed; base state changes are persisted and survive restarts.
 */
module Connection {
  import opened Collections
  import opened Dsa
  import opened DurableState

  /** A response; RID 0 marks subscription notifications. */
  datatype Response = Response(rid: int, body: string)

  datatype Command =
    | ConnectEndpoint(ci: ConnectionInfo, ref: ActorRef)
    | DisconnectEndpoint(kill: bool)
    | Terminated(ref: ActorRef)
    | GetLinkInfo
    | ResponseEnvelope(responses: seq<Response>)
    | Other(body: string)

  /** The responses of an envelope that are not subscription notifications. */
  function Others(responses: seq<Response>): seq<Response> {
    if responses == [] then []
    else
      var past, last := Others(responses[..|responses| - 1]), responses[|responses| - 1];
      if last.rid == 0 then past else past + [last]
  }

  datatype Link = Link(
    connected: bool,                            // the behaviour the actor has become
    base: BaseState,
    watched: set<ActorRef>,
    mailbox: seq<Command>,
    stash: seq<Command>,
    journal: seq<BaseState>,                    // every base state ever persisted
    pills: seq<ActorRef>,                       // PoisonPills sent
    delivered: seq<(ActorRef, seq<Response>)>,  // envelopes sent to endpoints
    registry: seq<bool>,                        // connection states reported to the registry
    handled: seq<Command>)                      // commands handled for good

  const NEW_LINK := Link(false, NO_BASE, {}, [], [], [], [], [], [], [])

  // ---- Deferred persist handlers ----

  datatype Persisted = ConnectHandler(state: BaseState, ref: ActorRef) | DisconnectHandler(state: BaseState)

  function RunHandler(l: Link, p: Persisted): Link {
    match p
    case ConnectHandler(state, ref) =>
      l.(connected := true, base := state, watched := l.watched + {ref}, journal := l.journal + [state],
         registry := l.registry + [true], mailbox := l.stash + l.mailbox, stash := [])
    case DisconnectHandler(state) =>
      l.(connected := false, base := state, journal := l.journal + [state], registry := l.registry + [false])
  }

  function RunHandlers(l: Link, ps: seq<Persisted>): Link {
    if ps == [] then l else RunHandler(RunHandlers(l, ps[..|ps| - 1]), ps[|ps| - 1])
  }

  // ---- Commands: each returns the link and what it persists ----

  function ConnectEvent(l: Link, ci: ConnectionInfo, ref: ActorRef, now: nat): Persisted {
    ConnectHandler(BaseState(Some(ref), ci, Some(now), l.base.lastDisconnected), ref)
  }

  function DisconnectEvent(l: Link, now: nat): Persisted {
    DisconnectHandler(BaseState(None, l.base.connInfo, l.base.lastConnected, Some(now)))
  }

  /** Stops watching the endpoint, and kills it if asked to. */
  function Detach(l: Link, kill: bool): Link {
    match l.base.endpoint
    case None => l
    case Some(ref) => l.(watched := l.watched - {ref}, pills := if kill then l.pills + [ref] else l.pills)
  }

  function WhileConnected(l: Link, c: Command, now: nat): (Link, seq<Persisted>) {
    match c
    case DisconnectEndpoint(kill) =>
      if l.base.endpoint.Some? then (Detach(l, kill), [DisconnectEvent(l, now)]) else (l, [])
    case Terminated(ref) =>
      if l.base.endpoint == Some(ref) then (Detach(l, false), [DisconnectEvent(l, now)]) else (l, [])
    case ConnectEndpoint(ci, ref) =>
      if l.base.endpoint == Some(ref) then (l, [])
      else if l.base.endpoint.None? then (l, [ConnectEvent(l, ci, ref, now)])
      else (Detach(l, true), [DisconnectEvent(l, now), ConnectEvent(l, ci, ref, now)])
    case ResponseEnvelope(responses) =>
      var others := Others(responses);
      if others == [] || l.base.endpoint.None? then (l, [])
      else (l.(delivered := l.delivered + [(l.base.endpoint.value, others)]), [])
    case _ => (l, [])
  }

  function Stashed(l: Link, c: Command): Link {
    l.(stash := l.stash + [c])
  }

  /** True of the commands that the disconnected behaviour stashes. */
  predicate Stashes(c: Command) {
    match c
    case ConnectEndpoint(_, _) => false
    case DisconnectEndpoint(_) => false
    case GetLinkInfo => false
    case ResponseEnvelope(responses) => Others(responses) != []
    case _ => true
  }

  /** Handles the oldest message in the mailbox, and then the persist handlers it left. */
  function ProcessNext(l: Link, now: nat): Link
    requires l.mailbox != []
  {
    var c, rest := l.mailbox[0], l.(mailbox := l.mailbox[1..]);
    if l.connected then
      var (after, pending) := WhileConnected(rest.(handled := l.handled + [c]), c, now);
      RunHandlers(after, pending)
    else if Stashes(c) then Stashed(rest, c)
    else
      var taken := rest.(handled := l.handled + [c]);
      if c.ConnectEndpoint? then RunHandlers(taken, [ConnectEvent(l, c.ci, c.ref, now)]) else taken
  }

  /** What recovery from a base state, if one is offered, and these events comes to. */
  function RecoveredBase(offered: Option<BaseState>, events: seq<BaseState>): BaseState {
    if events != [] then events[|events| - 1] else if offered.Some? then offered.value else NO_BASE
  }

  /** The latest base state ever persisted. */
  function LastPersisted(journal: seq<BaseState>): BaseState {
    RecoveredBase(None, journal)
  }

  /**
   A restart recovers some base state, not always the latest one, and releases the stash; the watches may or may
   not survive it.
   */
  function Restart(l: Link, recovered: BaseState, keepsWatches: bool): Link {
    l.(base := recovered, connected := recovered.endpoint.Some?, mailbox := l.stash + l.mailbox, stash := [],
       watched := if keepsWatches then l.watched else {})
  }

  datatype Action = Arrive(command: Command) | Process(now: nat) | Crash(recovered: BaseState, keepsWatches: bool)

  function Step(l: Link, a: Action): Link {
    match a
    case Arrive(c) => l.(mailbox := l.mailbox + [c])
    case Process(now) => if l.mailbox == [] then l else ProcessNext(l, now)
    case Crash(recovered, keepsWatches) => Restart(l, recovered, keepsWatches)
  }

  function Run(actions: seq<Action>): Link {
    if actions == [] then NEW_LINK else Step(Run(actions[..|actions| - 1]), actions[|actions| - 1])
  }

  // ---- The connection invariant ----

  predicate Attached(l: Link) {
    (l.connected <==> l.base.endpoint.Some?) && (l.connected ==> l.stash == [])
  }

  /** The link watches at most its endpoint. */
  predicate WatchesOwn(l: Link) {
    forall ref <- l.watched :: l.base.endpoint == Some(ref)
  }

  lemma RunOne(l: Link, p: Persisted)
    ensures RunHandlers(l, [p]) == RunHandler(l, p)
  {
    assert [p][..0] == [];
  }

  lemma RunTwo(l: Link, p: Persisted, q: Persisted)
    ensures RunHandlers(l, [p, q]) == RunHandler(RunHandler(l, p), q)
  {
    assert [p, q][..1] == [p];
    RunOne(l, p);
  }

  lemma ProcessKeepsAttached(l: Link, now: nat)
    requires Attached(l) && l.mailbox != []
    ensures Attached(ProcessNext(l, now))
    ensures WatchesOwn(l) ==> WatchesOwn(ProcessNext(l, now))
    ensures l.base == LastPersisted(l.journal) ==>
              ProcessNext(l, now).base == LastPersisted(ProcessNext(l, now).journal)
  {
    var c, rest := l.mailbox[0], l.(mailbox := l.mailbox[1..]);
    if l.connected {
      var (after, pending) := WhileConnected(rest.(handled := l.handled + [c]), c, now);
      if |pending| == 1 {
        RunOne(after, pending[0]);
      } else if |pending| == 2 {
        RunTwo(after, pending[0], pending[1]);
      }
    } else if c.ConnectEndpoint? {
      RunOne(rest.(handled := l.handled + [c]), ConnectEvent(l, c.ci, c.ref, now));
    }
  }

  /**
   After every command with its handlers, and after every restart, whatever it recovers: the link behaves as
   connected if and only if it has an endpoint, and then nothing is stashed.
   */
  lemma {:induction false} ConnectionInvariant(actions: seq<Action>)
    ensures Attached(Run(actions))
  {
    if actions != [] {
      ConnectionInvariant(actions[..|actions| - 1]);
      var l, a := Run(actions[..|actions| - 1]), actions[|actions| - 1];
      if a.Process? && l.mailbox != [] {
        ProcessKeepsAttached(l, a.now);
      }
    }
  }

  /** A restart can spoil the watches in one way only: it keeps some, and recovers another endpoint or none. */
  predicate SparesWatches(l: Link, a: Action) {
    a.Crash? ==> !a.keepsWatches || l.watched == {} || a.recovered.endpoint == l.base.endpoint
  }

  lemma RestartKeepsWatchesIff(l: Link, recovered: BaseState, keepsWatches: bool)
    requires WatchesOwn(l)
    ensures WatchesOwn(Restart(l, recovered, keepsWatches)) <==> SparesWatches(l, Crash(recovered, keepsWatches))
  {
    if keepsWatches && l.watched != {} {
      var ref :| ref in l.watched;
      assert l.base.endpoint == Some(ref);
    }
  }

  ghost predicate AllSpareWatches(actions: seq<Action>) {
    actions != [] ==>
      var past := actions[..|actions| - 1];
      AllSpareWatches(past) && SparesWatches(Run(past), actions[|actions| - 1])
  }

  /** In every run whose restarts spare the watches, the link watches at most its endpoint. */
  lemma {:induction false} OnlyEndpointWatched(actions: seq<Action>)
    requires AllSpareWatches(actions)
    ensures WatchesOwn(Run(actions))
  {
    if actions != [] {
      var past, a := actions[..|actions| - 1], actions[|actions| - 1];
      OnlyEndpointWatched(past);
      ConnectionInvariant(past);
      if a.Crash? {
        RestartKeepsWatchesIff(Run(past), a.recovered, a.keepsWatches);
      } else if a.Process? && Run(past).mailbox != [] {
        ProcessKeepsAttached(Run(past), a.now);
      }
    }
  }

  ghost predicate AllRecoverLast(actions: seq<Action>) {
    actions != [] ==>
      var past, a := actions[..|actions| - 1], actions[|actions| - 1];
      AllRecoverLast(past) && (a.Crash? ==> a.recovered == LastPersisted(Run(past).journal))
  }

  /** If restarts recover the last base state persisted, it is the base state throughout, and they spare the watches. */
  lemma {:induction false} BaseIsLastPersisted(actions: seq<Action>)
    requires AllRecoverLast(actions)
    ensures Run(actions).base == LastPersisted(Run(actions).journal) && AllSpareWatches(actions)
  {
    if actions != [] {
      var past, a := actions[..|actions| - 1], actions[|actions| - 1];
      BaseIsLastPersisted(past);
      ConnectionInvariant(past);
      if a.Process? && Run(past).mailbox != [] {
        ProcessKeepsAttached(Run(past), a.now);
      }
    }
  }

  /**
   A ConnectEndpoint for another endpoint displaces the present one: exactly one PoisonPill, to the old
   endpoint; the registry hears of a disconnection and a connection; and the disconnection leaves no time
   stamp, because both events were built from the state before the command.
   */
  lemma DisplacingConnect(l: Link, now: nat)
    requires Attached(l) && l.connected && l.mailbox != []
    requires l.mailbox[0].ConnectEndpoint? && l.base.endpoint != Some(l.mailbox[0].ref)
    ensures var c, l' := l.mailbox[0], ProcessNext(l, now);
            && l'.pills == l.pills + [l.base.endpoint.value]
            && l'.base == BaseState(Some(c.ref), c.ci, Some(now), l.base.lastDisconnected)
            && l'.watched == l.watched - {l.base.endpoint.value} + {c.ref} && (WatchesOwn(l) ==> l'.watched == {c.ref})
            && l'.connected
            && l'.registry == l.registry + [false, true]
            && l'.mailbox == l.mailbox[1..] && l'.stash == []
  {
    var c := l.mailbox[0];
    var taken := l.(mailbox := l.mailbox[1..], handled := l.handled + [c]);
    RunTwo(Detach(taken, true), DisconnectEvent(taken, now), ConnectEvent(taken, c.ci, c.ref, now));
    assert [] + l.mailbox[1..] == l.mailbox[1..];
    assert l.registry + [false] + [true] == l.registry + [false, true];
  }

  /** The registry is told of a disconnection. */
  predicate ReportsDisconnection(l: Link, l': Link) {
    |l.registry| < |l'.registry| && !l'.registry[|l.registry|]
  }

  /**
   A message that reports a disconnection leaves its time in the base state if and only if it does not displace
   the endpoint, or the last disconnection had that very time.
   */
  lemma DisconnectionTimeKept(l: Link, now: nat)
    requires Attached(l) && l.mailbox != [] && ReportsDisconnection(l, ProcessNext(l, now))
    ensures l.connected
    ensures ProcessNext(l, now).base.lastDisconnected == Some(now)
            <==> !l.mailbox[0].ConnectEndpoint? || l.base.lastDisconnected == Some(now)
  {
    var c, rest := l.mailbox[0], l.(mailbox := l.mailbox[1..]);
    if l.connected {
      var (after, pending) := WhileConnected(rest.(handled := l.handled + [c]), c, now);
      if |pending| == 1 {
        RunOne(after, pending[0]);
      } else if |pending| == 2 {
        RunTwo(after, pending[0], pending[1]);
      }
    } else if c.ConnectEndpoint? {
      RunOne(rest.(handled := l.handled + [c]), ConnectEvent(l, c.ci, c.ref, now));
    }
  }

  /** No other message in the connected state sends a PoisonPill, except a DisconnectEndpoint that asks for it. */
  lemma PillsOnlyWhenAsked(l: Link, now: nat)
    requires Attached(l) && l.mailbox != []
    ensures var c, l' := l.mailbox[0], ProcessNext(l, now);
            l'.pills == if l.connected
                           && ((c.ConnectEndpoint? && l.base.endpoint != Some(c.ref))
                              || (c.DisconnectEndpoint? && c.kill))
                        then l.pills + [l.base.endpoint.value] else l.pills
  {
    var c, rest := l.mailbox[0], l.(mailbox := l.mailbox[1..]);
    if l.connected {
      var (after, pending) := WhileConnected(rest.(handled := l.handled + [c]), c, now);
      if |pending| == 1 {
        RunOne(after, pending[0]);
      } else if |pending| == 2 {
        RunTwo(after, pending[0], pending[1]);
      }
    } else if c.ConnectEndpoint? {
      RunOne(rest.(handled := l.handled + [c]), ConnectEvent(l, c.ci, c.ref, now));
    }
  }

  // ---- Nothing is lost ----

  /** The stashable commands of a sequence, in order. */
  function Kept(cs: seq<Command>): seq<Command> {
    if cs == [] then []
    else
      var past, last := Kept(cs[..|cs| - 1]), cs[|cs| - 1];
      if Stashes(last) then past + [last] else past
  }

  lemma {:induction false} KeptConcat(a: seq<Command>, b: seq<Command>)
    ensures Kept(a + b) == Kept(a) + Kept(b)
  {
    if b == [] {
      assert a + b == a;
    } else {
      assert (a + b)[..|a + b| - 1] == a + b[..|b| - 1];
      KeptConcat(a, b[..|b| - 1]);
    }
  }

  /** The responses of the envelopes among the commands, without subscription notifications. */
  function OthersOf(cs: seq<Command>): seq<Response> {
    if cs == [] then []
    else
      var past, last := OthersOf(cs[..|cs| - 1]), cs[|cs| - 1];
      if last.ResponseEnvelope? then past + Others(last.responses) else past
  }

  function Bodies(delivered: seq<(ActorRef, seq<Response>)>): seq<Response> {
    if delivered == [] then [] else Bodies(delivered[..|delivered| - 1]) + delivered[|delivered| - 1].1
  }

  function Arrived(actions: seq<Action>): seq<Command> {
    if actions == [] then []
    else
      var past := Arrived(actions[..|actions| - 1]);
      match actions[|actions| - 1]
      case Arrive(c) => past + [c]
      case _ => past
  }

  /** Every stashable command is handled, stashed or waiting, in the order of arrival. */
  ghost predicate InArrivalOrder(l: Link, arrived: seq<Command>) {
    Kept(l.handled) + Kept(l.stash) + Kept(l.mailbox) == Kept(arrived)
  }

  /** What one message does to the queues and to what was delivered. */
  lemma QueuesAfter(l: Link, now: nat)
    requires Attached(l) && l.mailbox != []
    ensures var c, l' := l.mailbox[0], ProcessNext(l, now);
            if l.connected then
              && l'.handled == l.handled + [c] && l'.stash == [] && l'.mailbox == l.mailbox[1..]
              && l'.delivered == (if c.ResponseEnvelope? && Others(c.responses) != []
                                  then l.delivered + [(l.base.endpoint.value, Others(c.responses))] else l.delivered)
            else if Stashes(c) then
              && l'.handled == l.handled && l'.stash == l.stash + [c] && l'.mailbox == l.mailbox[1..]
              && l'.delivered == l.delivered
            else
              && l'.handled == l.handled + [c] && l'.delivered == l.delivered
              && (if c.ConnectEndpoint? then l'.stash == [] && l'.mailbox == l.stash + l.mailbox[1..]
                  else l'.stash == l.stash && l'.mailbox == l.mailbox[1..])
  {
    var c, rest := l.mailbox[0], l.(mailbox := l.mailbox[1..]);
    if l.connected {
      var (after, pending) := WhileConnected(rest.(handled := l.handled + [c]), c, now);
      assert [] + l.mailbox[1..] == l.mailbox[1..];
      if |pending| == 1 {
        RunOne(after, pending[0]);
      } else if |pending| == 2 {
        RunTwo(after, pending[0], pending[1]);
      }
    } else if c.ConnectEndpoint? {
      RunOne(rest.(handled := l.handled + [c]), ConnectEvent(l, c.ci, c.ref, now));
    }
  }

  lemma KeptOne(cs: seq<Command>, c: Command)
    ensures Kept(cs + [c]) == if Stashes(c) then Kept(cs) + [c] else Kept(cs)
    ensures Kept([c] + cs) == if Stashes(c) then [c] + Kept(cs) else Kept(cs)
  {
    assert (cs + [c])[..|cs|] == cs;
    KeptConcat([c], cs);
    assert [c][..0] == [];
  }

  lemma Regroup<T>(h: seq<T>, s: seq<T>, c: T, r: seq<T>)
    ensures h + [c] + [] + r == h + [] + ([c] + r)
    ensures h + (s + [c]) + r == h + s + ([c] + r)
    ensures h + [] + (s + r) == h + s + r
    ensures h + s + (r + [c]) == h + s + r + [c]
  {}

  lemma ProcessKeepsOrder(l: Link, now: nat, arrived: seq<Command>)
    requires Attached(l) && l.mailbox != [] && InArrivalOrder(l, arrived)
    ensures InArrivalOrder(ProcessNext(l, now), arrived)
  {
    var c, rest := l.mailbox[0], l.mailbox[1..];
    QueuesAfter(l, now);
    assert l.mailbox == [c] + rest;
    KeptOne(rest, c);
    Regroup(Kept(l.handled), Kept(l.stash), c, Kept(rest));
    if l.connected {
      KeptOne(l.handled, c);
    } else if Stashes(c) {
      KeptOne(l.stash, c);
    } else {
      KeptOne(l.handled, c);
      KeptConcat(l.stash, rest);
    }
  }

  lemma CrashKeepsOrder(l: Link, recovered: BaseState, keepsWatches: bool, arrived: seq<Command>)
    requires InArrivalOrder(l, arrived)
    ensures InArrivalOrder(Restart(l, recovered, keepsWatches), arrived)
  {
    KeptConcat(l.stash, l.mailbox);
    RegroupThree(Kept(l.handled), Kept(l.stash), Kept(l.mailbox));
  }

  lemma RegroupThree<T>(h: seq<T>, s: seq<T>, r: seq<T>)
    ensures h + [] + (s + r) == h + s + r
  {}

  lemma ArrivalKeepsOrder(l: Link, c: Command, arrived: seq<Command>)
    requires InArrivalOrder(l, arrived)
    ensures InArrivalOrder(l.(mailbox := l.mailbox + [c]), arrived + [c])
  {
    KeptOne(l.mailbox, c);
    KeptOne(arrived, c);
    Regroup(Kept(l.handled), Kept(l.stash), c, Kept(l.mailbox));
  }

  /**
   In every run, with any connects, disconnects and restarts, the messages that can be stashed are handled in
   the order in which they arrived: those handled, those stashed and those waiting make up the arrivals.
   */
  lemma {:induction false} HandledInArrivalOrder(actions: seq<Action>)
    ensures InArrivalOrder(Run(actions), Arrived(actions))
  {
    if actions != [] {
      var past, a := actions[..|actions| - 1], actions[|actions| - 1];
      HandledInArrivalOrder(past);
      ConnectionInvariant(past);
      var l := Run(past);
      if a.Arrive? {
        ArrivalKeepsOrder(l, a.command, Arrived(past));
      } else if a.Crash? {
        CrashKeepsOrder(l, a.recovered, a.keepsWatches, Arrived(past));
      } else if l.mailbox != [] {
        ProcessKeepsOrder(l, a.now, Arrived(past));
      }
    }
  }

  lemma {:induction false} OthersOfConcat(a: seq<Command>, b: seq<Command>)
    ensures OthersOf(a + b) == OthersOf(a) + OthersOf(b)
  {
    if b == [] {
      assert a + b == a;
    } else {
      assert (a + b)[..|a + b| - 1] == a + b[..|b| - 1];
      OthersOfConcat(a, b[..|b| - 1]);
    }
  }

  lemma {:induction false} OthersOfKept(cs: seq<Command>)
    ensures OthersOf(Kept(cs)) == OthersOf(cs)
  {
    if cs != [] {
      var front, last := cs[..|cs| - 1], cs[|cs| - 1];
      OthersOfKept(front);
      if Stashes(last) {
        assert (Kept(front) + [last])[..|Kept(front)|] == Kept(front);
      }
    }
  }

  /** What was handled was delivered. */
  lemma {:induction false} HandledIsDelivered(actions: seq<Action>)
    ensures Bodies(Run(actions).delivered) == OthersOf(Run(actions).handled)
  {
    if actions != [] {
      var past, a := actions[..|actions| - 1], actions[|actions| - 1];
      HandledIsDelivered(past);
      ConnectionInvariant(past);
      var l := Run(past);
      if a.Process? && l.mailbox != [] {
        var c := l.mailbox[0];
        QueuesAfter(l, a.now);
        assert (l.handled + [c])[..|l.handled|] == l.handled;
        if l.connected && c.ResponseEnvelope? && Others(c.responses) != [] {
          var d := l.delivered + [(l.base.endpoint.value, Others(c.responses))];
          assert d[..|l.delivered|] == l.delivered;
        }
      }
    }
  }

  /**
   In every run, each response that is not a subscription notification was delivered to an endpoint exactly
   once, or still waits, all in the order of arrival.
   */
  lemma NothingLost(actions: seq<Action>)
    ensures var l := Run(actions);
            Bodies(l.delivered) + OthersOf(l.stash) + OthersOf(l.mailbox) == OthersOf(Arrived(actions))
  {
    var l := Run(actions);
    HandledInArrivalOrder(actions);
    HandledIsDelivered(actions);
    OthersOfConcat(Kept(l.handled) + Kept(l.stash), Kept(l.mailbox));
    OthersOfConcat(Kept(l.handled), Kept(l.stash));
    OthersOfKept(l.handled);
    OthersOfKept(l.stash);
    OthersOfKept(l.mailbox);
    OthersOfKept(Arrived(actions));
  }
}

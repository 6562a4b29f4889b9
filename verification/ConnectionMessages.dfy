/** What each message does to a connection, and all of them together, said without the state machine's functions. */
module ConnectionMessages {
  import opened Collections
  import opened Dsa
  import opened DurableState
  import opened Connection

  /** The message ends the connection: a disconnection, or the termination of the endpoint. */
  predicate Ends(l: Link, c: Command) {
    l.base.endpoint.Some? && (c.DisconnectEndpoint? || c == Terminated(l.base.endpoint.value))
  }

  /** The message connects an endpoint that is not connected. */
  predicate Attaches(l: Link, c: Command) {
    c.ConnectEndpoint? && l.base.endpoint != Some(c.ref)
  }

  /** It ends the connection: the state without an endpoint is persisted and reported, and nothing is watched for it. */
  lemma Disconnecting(l: Link, now: nat)
    requires Attached(l) && l.mailbox != [] && Ends(l, l.mailbox[0])
    ensures var l' := ProcessNext(l, now);
            && !l'.connected
            && l'.base == BaseState(None, l.base.connInfo, l.base.lastConnected, Some(now))
            && l'.watched == l.watched - {l.base.endpoint.value}
            && l'.registry == l.registry + [false] && l'.journal == l.journal + [l'.base]
  {
    var c := l.mailbox[0];
    var taken := l.(mailbox := l.mailbox[1..], handled := l.handled + [c]);
    RunOne(Detach(taken, c.DisconnectEndpoint? && c.kill), DisconnectEvent(taken, now));
  }

  /** It connects a link without an endpoint: the state with it is persisted and reported, and it is watched. */
  lemma Connecting(l: Link, now: nat)
    requires Attached(l) && !l.connected && l.mailbox != [] && Attaches(l, l.mailbox[0])
    ensures var c, l' := l.mailbox[0], ProcessNext(l, now);
            && l'.connected
            && l'.base == BaseState(Some(c.ref), c.ci, Some(now), l.base.lastDisconnected)
            && l'.watched == l.watched + {c.ref}
            && l'.registry == l.registry + [true] && l'.journal == l.journal + [l'.base]
  {
    var c := l.mailbox[0];
    RunOne(l.(mailbox := l.mailbox[1..], handled := l.handled + [c]), ConnectEvent(l, c.ci, c.ref, now));
  }

  /** It displaces the endpoint: both states are persisted, the one in between with the time of the disconnection. */
  lemma DisplacingPersists(l: Link, now: nat)
    requires Attached(l) && l.connected && l.mailbox != [] && Attaches(l, l.mailbox[0])
    ensures var between, l' := BaseState(None, l.base.connInfo, l.base.lastConnected, Some(now)), ProcessNext(l, now);
            l'.journal == l.journal + [between, l'.base]
  {
    var c := l.mailbox[0];
    var taken := l.(mailbox := l.mailbox[1..], handled := l.handled + [c]);
    RunTwo(Detach(taken, true), DisconnectEvent(taken, now), ConnectEvent(taken, c.ci, c.ref, now));
    assert l.journal + [DisconnectEvent(taken, now).state] + [ConnectEvent(taken, c.ci, c.ref, now).state]
           == l.journal + [DisconnectEvent(taken, now).state, ConnectEvent(taken, c.ci, c.ref, now).state];
  }

  /** Any other message leaves all of that alone. */
  lemma OthersChangeNothing(l: Link, now: nat)
    requires Attached(l) && l.mailbox != [] && !Ends(l, l.mailbox[0]) && !Attaches(l, l.mailbox[0])
    ensures var l' := ProcessNext(l, now);
            && l'.connected == l.connected && l'.base == l.base && l'.watched == l.watched
            && l'.registry == l.registry && l'.journal == l.journal && l'.pills == l.pills
  {}

  /**
   A link without an endpoint keeps for later what it cannot handle: terminations and messages that are not about
   the connection, and envelopes with a response that is no subscription notification; nothing else waits.
   */
  lemma WaitsIff(l: Link, now: nat)
    requires Attached(l) && !l.connected && l.mailbox != []
    ensures var c, l' := l.mailbox[0], ProcessNext(l, now);
            (l'.stash == l.stash + [c] && l'.handled == l.handled)
            <==> c.Terminated? || c.Other? || (c.ResponseEnvelope? && exists r <- c.responses :: r.rid != 0)
  {
    QueuesAfter(l, now);
    if l.mailbox[0].ResponseEnvelope? {
      OthersIff(l.mailbox[0].responses);
    }
  }

  lemma {:induction false} OthersIff(responses: seq<Response>)
    ensures Others(responses) != [] <==> exists r <- responses :: r.rid != 0
  {
    if responses != [] {
      OthersIff(responses[..|responses| - 1]);
      assert responses == responses[..|responses| - 1] + [responses[|responses| - 1]];
    }
  }

  /** The other responses of an envelope are all those with a RID that is not 0, in order. */
  lemma {:induction false} OthersInOrder(a: seq<Response>, b: seq<Response>)
    ensures Others(a + b) == Others(a) + Others(b)
    ensures |a| == 1 ==> Others(a) == if a[0].rid != 0 then a else []
  {
    if |a| == 1 {
      assert a[..0] == [] && a == [] + [a[0]];
    }
    if b == [] {
      assert a + b == a;
    } else {
      assert (a + b)[..|a + b| - 1] == a + b[..|b| - 1];
      OthersInOrder(a, b[..|b| - 1]);
    }
  }

  // ---- Whole runs ----

  /** What befell the link: a message was taken from the mailbox, or a restart recovered a base state. */
  datatype Effect = Took(command: Command, now: nat) | Recovered(base: BaseState)

  function EffectOf(l: Link, a: Action): seq<Effect> {
    match a
    case Arrive(_) => []
    case Process(now) => if l.mailbox == [] then [] else [Took(l.mailbox[0], now)]
    case Crash(recovered, _) => [Recovered(recovered)]
  }

  function Effects(actions: seq<Action>): seq<Effect> {
    if actions == [] then []
    else
      var past := actions[..|actions| - 1];
      Effects(past) + EffectOf(Run(past), actions[|actions| - 1])
  }

  /** The base state after one more effect: the latest connection, unless it has ended. */
  function BaseAfter(b: BaseState, e: Effect): BaseState {
    match e
    case Took(ConnectEndpoint(ci, ref), now) =>
      if b.endpoint == Some(ref) then b else BaseState(Some(ref), ci, Some(now), b.lastDisconnected)
    case Took(DisconnectEndpoint(_), now) =>
      if b.endpoint.Some? then BaseState(None, b.connInfo, b.lastConnected, Some(now)) else b
    case Took(Terminated(ref), now) =>
      if b.endpoint == Some(ref) then BaseState(None, b.connInfo, b.lastConnected, Some(now)) else b
    case Took(_, _) => b
    case Recovered(base) => base
  }

  function BaseOf(effects: seq<Effect>): BaseState {
    if effects == [] then NO_BASE else BaseAfter(BaseOf(effects[..|effects| - 1]), effects[|effects| - 1])
  }

  lemma BaseOfMore(effects: seq<Effect>, e: Effect)
    ensures BaseOf(effects + [e]) == BaseAfter(BaseOf(effects), e)
  {
    assert (effects + [e])[..|effects|] == effects;
  }

  lemma BaseAfterMessage(l: Link, now: nat)
    requires Attached(l) && l.mailbox != []
    ensures ProcessNext(l, now).base == BaseAfter(l.base, Took(l.mailbox[0], now))
  {
    var c := l.mailbox[0];
    if Ends(l, c) {
      Disconnecting(l, now);
    } else if !Attaches(l, c) {
      OthersChangeNothing(l, now);
    } else if l.connected {
      DisplacingConnect(l, now);
    } else {
      Connecting(l, now);
    }
  }

  /**
   In every run the link is connected, and to that endpoint, exactly if the latest connection taken says so, or the
   latest restart, and no disconnection, and no termination of that endpoint, has been taken since.
   */
  lemma {:induction false} BaseIsLatestMessage(actions: seq<Action>)
    ensures Run(actions).base == BaseOf(Effects(actions))
    ensures Run(actions).connected <==> BaseOf(Effects(actions)).endpoint.Some?
  {
    ConnectionInvariant(actions);
    if actions != [] {
      var past, a := actions[..|actions| - 1], actions[|actions| - 1];
      BaseIsLatestMessage(past);
      ConnectionInvariant(past);
      EffectOnBase(Run(past), a, Effects(past));
    }
  }

  lemma EffectOnBase(l: Link, a: Action, past: seq<Effect>)
    requires Attached(l) && l.base == BaseOf(past)
    ensures Step(l, a).base == BaseOf(past + EffectOf(l, a))
  {
    if a.Process? && l.mailbox != [] {
      BaseOfMore(past, Took(l.mailbox[0], a.now));
      BaseAfterMessage(l, a.now);
    } else if a.Crash? {
      BaseOfMore(past, Recovered(a.recovered));
    } else {
      assert past + [] == past;
    }
  }
}

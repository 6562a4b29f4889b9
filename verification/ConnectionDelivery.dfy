/** Where the messages that waited for an endpoint go once one connects, over whole runs. */
module ConnectionDelivery {
  import opened Collections
  import opened Dsa
  import opened DurableState
  import opened Connection

  /** What an endpoint is owed for these messages: each envelope's other responses, unless there are none. */
  function Owed(ref: ActorRef, cs: seq<Command>): seq<(ActorRef, seq<Response>)> {
    if cs == [] then []
    else
      var past, last := Owed(ref, cs[..|cs| - 1]), cs[|cs| - 1];
      if last.ResponseEnvelope? && Others(last.responses) != [] then past + [(ref, Others(last.responses))] else past
  }

  /** The messages up to the first one that says this endpoint has terminated. */
  function UpTo(ref: ActorRef, cs: seq<Command>): seq<Command> {
    if cs == [] then []
    else
      var front, last := cs[..|cs| - 1], cs[|cs| - 1];
      if UpTo(ref, front) == front && last != Terminated(ref) then cs else UpTo(ref, front)
  }

  ghost predicate AllStashable(cs: seq<Command>) {
    forall c <- cs :: Stashes(c)
  }

  lemma OwedOne(ref: ActorRef, cs: seq<Command>, c: Command)
    ensures Owed(ref, cs + [c]) == if c.ResponseEnvelope? && Others(c.responses) != []
                                   then Owed(ref, cs) + [(ref, Others(c.responses))] else Owed(ref, cs)
  {
    assert (cs + [c])[..|cs|] == cs;
  }

  lemma UpToOne(ref: ActorRef, cs: seq<Command>, c: Command)
    ensures UpTo(ref, cs + [c]) == if UpTo(ref, cs) == cs && c != Terminated(ref) then cs + [c] else UpTo(ref, cs)
  {
    assert (cs + [c])[..|cs|] == cs;
  }

  lemma {:induction false} UpToMeaning(ref: ActorRef, cs: seq<Command>)
    ensures UpTo(ref, cs) <= cs && Terminated(ref) !in UpTo(ref, cs)
    ensures UpTo(ref, cs) == cs <==> Terminated(ref) !in cs
    ensures UpTo(ref, cs) != cs ==> cs[|UpTo(ref, cs)|] == Terminated(ref)
  {
    if cs != [] {
      UpToMeaning(ref, cs[..|cs| - 1]);
      assert cs == cs[..|cs| - 1] + [cs[|cs| - 1]];
    }
  }

  lemma {:induction false} OwedConcat(ref: ActorRef, a: seq<Command>, b: seq<Command>)
    ensures Owed(ref, a + b) == Owed(ref, a) + Owed(ref, b)
  {
    if b == [] {
      assert a + b == a;
    } else {
      var front := b[..|b| - 1];
      OwedConcat(ref, a, front);
      OwedOne(ref, a + front, b[|b| - 1]);
      assert a + b == a + front + [b[|b| - 1]];
    }
  }

  lemma {:induction false} OwedNothing(ref: ActorRef, cs: seq<Command>)
    requires AllStashable(cs)
    ensures Owed(ref, cs) == [] <==> forall c <- cs :: !c.ResponseEnvelope?
  {
    if cs != [] {
      OwedNothing(ref, cs[..|cs| - 1]);
      assert cs == cs[..|cs| - 1] + [cs[|cs| - 1]];
    }
  }

  /** No envelope comes after a message that says this endpoint has terminated. */
  ghost predicate NothingBehindTermination(ref: ActorRef, cs: seq<Command>) {
    forall i, j :: 0 <= i < j < |cs| && cs[i] == Terminated(ref) ==> !cs[j].ResponseEnvelope?
  }

  lemma TailAfterTermination(ref: ActorRef, cs: seq<Command>, a: seq<Command>, b: seq<Command>)
    requires cs == a + b && Terminated(ref) !in a && (b != [] ==> b[0] == Terminated(ref))
    ensures NothingBehindTermination(ref, cs) <==> forall c <- b :: !c.ResponseEnvelope?
  {
    assert forall x :: 0 <= x < |a| ==> cs[x] == a[x] && a[x] != Terminated(ref);
    if NothingBehindTermination(ref, cs) {
      forall c <- b ensures !c.ResponseEnvelope? {
        var j :| 0 <= j < |b| && b[j] == c;
        assert cs[|a| + j] == c && cs[|a|] == b[0];
      }
    } else {
      var i, j :| 0 <= i < j < |cs| && cs[i] == Terminated(ref) && cs[j].ResponseEnvelope?;
      assert cs[j] == b[j - |a|];
    }
  }

  lemma OwedUpToIff(ref: ActorRef, cs: seq<Command>)
    requires AllStashable(cs)
    ensures Owed(ref, UpTo(ref, cs)) == Owed(ref, cs) <==> NothingBehindTermination(ref, cs)
  {
    UpToMeaning(ref, cs);
    var a, b := UpTo(ref, cs), cs[|UpTo(ref, cs)|..];
    assert cs == a + b;
    OwedConcat(ref, a, b);
    OwedNothing(ref, b);
    TailAfterTermination(ref, cs, a, b);
  }

  // ---- Only messages that can be stashed are stashed ----

  lemma {:induction false} StashIsStashable(actions: seq<Action>)
    ensures AllStashable(Run(actions).stash)
  {
    if actions != [] {
      var past, a := actions[..|actions| - 1], actions[|actions| - 1];
      StashIsStashable(past);
      ConnectionInvariant(past);
      if a.Process? && Run(past).mailbox != [] {
        QueuesAfter(Run(past), a.now);
      }
    }
  }

  // ---- Releasing what waits ----

  /** The endpoint that is left after these messages, for a link that had this one, or none. */
  function EndpointAfter(e: Option<ActorRef>, cs: seq<Command>): Option<ActorRef> {
    if e.Some? && UpTo(e.value, cs) == cs then e else None
  }

  /** What it is owed: the envelopes before a message that says it has terminated. */
  function OwedUntil(e: Option<ActorRef>, cs: seq<Command>): seq<(ActorRef, seq<Response>)> {
    if e.Some? then Owed(e.value, UpTo(e.value, cs)) else []
  }

  /** Those of the messages that wait again. */
  function WaitAgain(e: Option<ActorRef>, cs: seq<Command>): seq<Command> {
    if e.None? then cs
    else if UpTo(e.value, cs) == cs then []
    else
      UpToMeaning(e.value, cs);
      cs[|UpTo(e.value, cs)| + 1..]
  }

  lemma WaitOne(ref: ActorRef, cs: seq<Command>, c: Command)
    ensures WaitAgain(Some(ref), cs + [c]) == if UpTo(ref, cs) == cs then [] else WaitAgain(Some(ref), cs) + [c]
  {
    UpToMeaning(ref, cs);
    UpToOne(ref, cs, c);
    var n := |UpTo(ref, cs)|;
    if UpTo(ref, cs) != cs {
      assert n < |cs| && (cs + [c])[n + 1..] == cs[n + 1..] + [c];
    }
  }

  lemma OneMore(e: Option<ActorRef>, cs: seq<Command>, c: Command)
    ensures var left := EndpointAfter(e, cs);
            && EndpointAfter(e, cs + [c]) == (if left.Some? && c == Terminated(left.value) then None else left)
            && OwedUntil(e, cs + [c])
               == (if left.Some? && c.ResponseEnvelope? && Others(c.responses) != []
                   then OwedUntil(e, cs) + [(left.value, Others(c.responses))] else OwedUntil(e, cs))
            && WaitAgain(e, cs + [c]) == if left.Some? then [] else WaitAgain(e, cs) + [c]
  {
    if e.Some? {
      WaitOne(e.value, cs, c);
      OneMoreFor(e.value, cs, c);
    }
  }

  lemma OneMoreFor(ref: ActorRef, cs: seq<Command>, c: Command)
    ensures var goesOn := UpTo(ref, cs) == cs;
            && (UpTo(ref, cs + [c]) == cs + [c] <==> goesOn && c != Terminated(ref))
            && Owed(ref, UpTo(ref, cs + [c]))
               == if goesOn && c.ResponseEnvelope? && Others(c.responses) != []
                  then Owed(ref, UpTo(ref, cs)) + [(ref, Others(c.responses))] else Owed(ref, UpTo(ref, cs))
  {
    UpToMeaning(ref, cs);
    UpToOne(ref, cs, c);
    OwedOne(ref, cs, c);
  }

  /**
   The link had an endpoint, or none, when messages waited at the front of its queues; those in done have been
   processed since, and those in todo are next. The endpoint got what it is owed, and what waits again comes first.
   */
  ghost predicate Releasing(l: Link, e: Option<ActorRef>, before: seq<(ActorRef, seq<Response>)>, done: seq<Command>,
                            todo: seq<Command>) {
    && l.base.endpoint == EndpointAfter(e, done)
    && l.delivered == before + OwedUntil(e, done)
    && AllStashable(WaitAgain(e, done) + todo)
    && |l.stash| <= |WaitAgain(e, done)|
    && WaitAgain(e, done) + todo <= l.stash + l.mailbox
  }

  lemma ConnectStartsRelease(l: Link, now: nat)
    requires Attached(l) && !l.connected && AllStashable(l.stash) && l.mailbox != [] && l.mailbox[0].ConnectEndpoint?
    ensures Releasing(ProcessNext(l, now), Some(l.mailbox[0].ref), l.delivered, [], l.stash)
  {
    var c := l.mailbox[0];
    QueuesAfter(l, now);
    RunOne(l.(mailbox := l.mailbox[1..], handled := l.handled + [c]), ConnectEvent(l, c.ci, c.ref, now));
    assert l.delivered + [] == l.delivered && [] + l.stash == l.stash;
  }

  lemma RestartStartsRelease(l: Link, recovered: BaseState, keepsWatches: bool, waiting: seq<Command>)
    requires AllStashable(waiting) && waiting <= l.stash + l.mailbox
    ensures Releasing(Restart(l, recovered, keepsWatches), recovered.endpoint, l.delivered, [], waiting)
  {
    assert l.delivered + [] == l.delivered && [] + waiting == waiting
           && [] + (l.stash + l.mailbox) == l.stash + l.mailbox;
  }

  /** What a stashable message does to the endpoint of a connected link. */
  lemma StashableKeepsEndpoint(l: Link, now: nat)
    requires Attached(l) && l.connected && l.mailbox != [] && Stashes(l.mailbox[0])
    ensures ProcessNext(l, now).base.endpoint
            == if l.mailbox[0] == Terminated(l.base.endpoint.value) then None else l.base.endpoint
  {
    var c, rest := l.mailbox[0], l.(mailbox := l.mailbox[1..]);
    if c == Terminated(l.base.endpoint.value) {
      var taken := rest.(handled := l.handled + [c]);
      RunOne(Detach(taken, false), DisconnectEvent(taken, now));
    }
  }

  /** A waiting message is sent to the endpoint if it is an envelope, and ends the connection if it says so. */
  lemma ProcessWhileAttached(l: Link, now: nat)
    requires Attached(l) && l.connected && l.mailbox != [] && Stashes(l.mailbox[0])
    ensures var c, l' := l.mailbox[0], ProcessNext(l, now);
            && l'.delivered == (if c.ResponseEnvelope? && Others(c.responses) != []
                                then l.delivered + [(l.base.endpoint.value, Others(c.responses))] else l.delivered)
            && l'.stash == [] && l'.mailbox == l.mailbox[1..]
            && l'.base.endpoint == if c == Terminated(l.base.endpoint.value) then None else l.base.endpoint
  {
    QueuesAfter(l, now);
    StashableKeepsEndpoint(l, now);
  }

  lemma ProcessWhileDetached(l: Link, now: nat)
    requires Attached(l) && !l.connected && l.mailbox != [] && Stashes(l.mailbox[0])
    ensures var l' := ProcessNext(l, now);
            && l'.delivered == l.delivered && l'.base.endpoint == None
            && l'.stash == l.stash + [l.mailbox[0]] && l'.mailbox == l.mailbox[1..]
  {
    QueuesAfter(l, now);
  }

  lemma ProcessReleases(l: Link, now: nat, e: Option<ActorRef>, before: seq<(ActorRef, seq<Response>)>,
                        done: seq<Command>, todo: seq<Command>)
    requires Attached(l) && Releasing(l, e, before, done, todo) && todo != []
    ensures l.mailbox != [] && Releasing(ProcessNext(l, now), e, before, done + [todo[0]], todo[1..])
  {
    OneMore(e, done, todo[0]);
    var again := WaitAgain(e, done);
    NextWaits(l.stash, l.mailbox, again, todo);
    if l.connected {
      AttachedNothingAgain(e, done);
      ProcessWhileAttached(l, now);
    } else {
      ProcessWhileDetached(l, now);
    }
  }

  lemma AttachedNothingAgain(e: Option<ActorRef>, done: seq<Command>)
    requires EndpointAfter(e, done).Some?
    ensures WaitAgain(e, done) == []
  {}

  /** The next message is one of those that wait, and its moving between the queues keeps them all in front. */
  lemma NextWaits(stash: seq<Command>, mailbox: seq<Command>, again: seq<Command>, todo: seq<Command>)
    requires |stash| <= |again| && again + todo <= stash + mailbox && todo != []
    ensures mailbox != [] && mailbox[0] == (again + todo)[|stash|]
    ensures again + [todo[0]] + todo[1..] <= stash + [mailbox[0]] + mailbox[1..]
    ensures stash == [] && again == [] ==> mailbox[0] == todo[0] && [] + todo[1..] <= [] + mailbox[1..]
  {
    assert (stash + mailbox)[|stash|] == mailbox[0];
    assert again + [todo[0]] + todo[1..] == again + todo;
    assert stash + [mailbox[0]] + mailbox[1..] == stash + mailbox;
    if stash == [] && again == [] {
      assert again + todo == todo && stash + mailbox == mailbox;
    }
  }

  /** A restart recovers the endpoint that the link has, or none if it has none. */
  predicate KeepsEndpoint(l: Link, a: Action) {
    a.Crash? ==> a.recovered.endpoint == l.base.endpoint
  }

  ghost predicate AllKeepEndpoint(start: seq<Action>, later: seq<Action>) {
    later != [] ==>
      var front := later[..|later| - 1];
      AllKeepEndpoint(start, front) && KeepsEndpoint(Run(start + front), later[|later| - 1])
  }

  lemma OthersKeepReleasing(l: Link, a: Action, e: Option<ActorRef>, before: seq<(ActorRef, seq<Response>)>,
                            done: seq<Command>, todo: seq<Command>)
    requires Releasing(l, e, before, done, todo) && !a.Process? && KeepsEndpoint(l, a)
    ensures Releasing(Step(l, a), e, before, done, todo)
  {
    if a.Arrive? {
      assert l.stash + (l.mailbox + [a.command]) == l.stash + l.mailbox + [a.command];
    } else {
      assert [] + (l.stash + l.mailbox) == l.stash + l.mailbox;
    }
  }

  /** How many messages are processed in these actions. */
  function Processed(actions: seq<Action>): nat {
    if actions == [] then 0
    else Processed(actions[..|actions| - 1]) + if actions[|actions| - 1].Process? then 1 else 0
  }

  lemma RunNext(actions: seq<Action>, a: Action)
    ensures Run(actions + [a]) == Step(Run(actions), a)
  {
    assert (actions + [a])[..|actions|] == actions;
  }

  lemma {:induction false} ReleaseContinues(start: seq<Action>, later: seq<Action>, e: Option<ActorRef>,
                                            before: seq<(ActorRef, seq<Response>)>, waiting: seq<Command>)
    requires Releasing(Run(start), e, before, [], waiting) && Processed(later) <= |waiting|
    requires AllKeepEndpoint(start, later)
    ensures Releasing(Run(start + later), e, before, waiting[..Processed(later)], waiting[Processed(later)..])
  {
    if later == [] {
      assert start + later == start;
      assert waiting[..0] == [] && waiting[0..] == waiting;
    } else {
      var front, a := later[..|later| - 1], later[|later| - 1];
      ReleaseContinues(start, front, e, before, waiting);
      assert start + later == start + front + [a];
      ReleaseNext(start + front, a, e, before, waiting, Processed(front));
    }
  }

  lemma ReleaseNext(past: seq<Action>, a: Action, e: Option<ActorRef>, before: seq<(ActorRef, seq<Response>)>,
                    waiting: seq<Command>, k: nat)
    requires k + (if a.Process? then 1 else 0) <= |waiting|
    requires Releasing(Run(past), e, before, waiting[..k], waiting[k..]) && KeepsEndpoint(Run(past), a)
    ensures var k' := k + if a.Process? then 1 else 0;
            Releasing(Run(past + [a]), e, before, waiting[..k'], waiting[k'..])
  {
    ConnectionInvariant(past);
    RunNext(past, a);
    ReleaseOne(Run(past), a, e, before, waiting, k);
  }

  lemma ReleaseOne(l: Link, a: Action, e: Option<ActorRef>, before: seq<(ActorRef, seq<Response>)>,
                   waiting: seq<Command>, k: nat)
    requires k + (if a.Process? then 1 else 0) <= |waiting|
    requires Attached(l) && Releasing(l, e, before, waiting[..k], waiting[k..]) && KeepsEndpoint(l, a)
    ensures var k' := k + if a.Process? then 1 else 0;
            Releasing(Step(l, a), e, before, waiting[..k'], waiting[k'..])
  {
    if a.Process? {
      ProcessReleases(l, a.now, e, before, waiting[..k], waiting[k..]);
      assert waiting[..k + 1] == waiting[..k] + [waiting[k..][0]] && waiting[k + 1..] == waiting[k..][1..];
    } else {
      OthersKeepReleasing(l, a, e, before, waiting[..k], waiting[k..]);
    }
  }

  /** The next message is the connection of an endpoint to a link that has none. */
  predicate Connects(l: Link, ref: ActorRef) {
    !l.connected && l.mailbox != [] && l.mailbox[0].ConnectEndpoint? && l.mailbox[0].ref == ref
  }

  /** What became of the messages that waited, after k of them were processed. */
  ghost predicate Released(l: Link, l': Link, e: Option<ActorRef>, waiting: seq<Command>, k: nat)
    requires k <= |waiting|
  {
    && l'.delivered == l.delivered + OwedUntil(e, waiting[..k])
    && WaitAgain(e, waiting[..k]) + waiting[k..] <= l'.stash + l'.mailbox
  }

  /**
   In every run, whatever arrives in between: once an endpoint connects, the first k waiting messages processed
   give it, in order, exactly what it is owed for those of them that come before a message that it has terminated,
   as long as restarts in between recover the endpoint; the others still wait in order.
   */
  lemma WaitingGoToNextEndpoint(past: seq<Action>, now: nat, later: seq<Action>, ref: ActorRef)
    requires Connects(Run(past), ref) && Processed(later) <= |Run(past).stash|
    requires AllKeepEndpoint(past + [Process(now)], later)
    ensures Released(Run(past), Run(past + [Process(now)] + later), Some(ref), Run(past).stash, Processed(later))
  {
    ConnectionInvariant(past);
    StashIsStashable(past);
    RunNext(past, Process(now));
    ConnectStartsRelease(Run(past), now);
    ReleaseContinues(past + [Process(now)], later, Some(ref), Run(past).delivered, Run(past).stash);
  }

  /**
   And a restart that recovers another endpoint, or none, sends what waits there instead, or leaves it waiting:
   for any messages at the front of the queues, up to the next restart that does not keep the endpoint.
   */
  lemma WaitingGoWhereRestartRecovers(past: seq<Action>, recovered: BaseState, keepsWatches: bool, later: seq<Action>,
                                      waiting: seq<Command>)
    requires AllStashable(waiting) && waiting <= Run(past).stash + Run(past).mailbox && Processed(later) <= |waiting|
    requires AllKeepEndpoint(past + [Crash(recovered, keepsWatches)], later)
    ensures Released(Run(past), Run(past + [Crash(recovered, keepsWatches)] + later), recovered.endpoint, waiting,
                     Processed(later))
  {
    var a := Crash(recovered, keepsWatches);
    RunNext(past, a);
    RestartStartsRelease(Run(past), recovered, keepsWatches, waiting);
    ReleaseContinues(past + [a], later, recovered.endpoint, Run(past).delivered, waiting);
  }

  /** So all that waited goes to it if and only if no envelope waits behind a message that it has terminated. */
  lemma AllGoesToNextEndpointIff(past: seq<Action>, now: nat, later: seq<Action>, ref: ActorRef)
    requires Connects(Run(past), ref) && Processed(later) == |Run(past).stash|
    requires AllKeepEndpoint(past + [Process(now)], later)
    ensures var l := Run(past);
            Run(past + [Process(now)] + later).delivered == l.delivered + Owed(ref, l.stash)
            <==> NothingBehindTermination(ref, l.stash)
  {
    WaitingGoToNextEndpoint(past, now, later, ref);
    StashIsStashable(past);
    assert Run(past).stash[..|Run(past).stash|] == Run(past).stash;
    OwedUpToIff(ref, Run(past).stash);
    SameTail(Run(past).delivered, Owed(ref, UpTo(ref, Run(past).stash)), Owed(ref, Run(past).stash));
  }

  lemma SameTail<T>(a: seq<T>, b: seq<T>, c: seq<T>)
    ensures a + b == a + c <==> b == c
  {
    assert (a + b)[|a|..] == b && (a + c)[|a|..] == c;
  }

  // ---- Terminations come from watched endpoints only ----

  /** The message processed is no termination of an actor that the link does not watch. */
  predicate HeedsWatches(l: Link, a: Action) {
    a.Process? && l.mailbox != [] && l.mailbox[0].Terminated? ==> l.mailbox[0].ref in l.watched
  }

  ghost predicate AllHeedWatches(actions: seq<Action>) {
    actions != [] ==>
      var past := actions[..|actions| - 1];
      AllHeedWatches(past) && HeedsWatches(Run(past), actions[|actions| - 1])
  }

  /** Then no termination is ever stashed, unless a restart kept the watch of an endpoint it did not recover. */
  lemma {:induction false} NoTerminationStashed(actions: seq<Action>)
    requires AllHeedWatches(actions) && AllSpareWatches(actions)
    ensures forall c <- Run(actions).stash :: !c.Terminated?
  {
    if actions != [] {
      var past, a := actions[..|actions| - 1], actions[|actions| - 1];
      NoTerminationStashed(past);
      ConnectionInvariant(past);
      OnlyEndpointWatched(past);
      if a.Process? && Run(past).mailbox != [] {
        QueuesAfter(Run(past), a.now);
      }
    }
  }

  /** So the next endpoint gets all that waited, without any condition on what waited. */
  lemma NextEndpointGetsAll(past: seq<Action>, now: nat, later: seq<Action>, ref: ActorRef)
    requires AllHeedWatches(past) && AllSpareWatches(past)
    requires Connects(Run(past), ref) && Processed(later) == |Run(past).stash|
    requires AllKeepEndpoint(past + [Process(now)], later)
    ensures Run(past + [Process(now)] + later).delivered == Run(past).delivered + Owed(ref, Run(past).stash)
  {
    NoTerminationStashed(past);
    AllGoesToNextEndpointIff(past, now, later, ref);
  }

  /**
   A link loses its endpoint in a restart that keeps the watch; the endpoint terminates, and an envelope comes;
   then a connection of that endpoint, sent before it terminated, is processed. The termination ends it again,
   and the envelope is not sent.
   */
  lemma StrandedBehindTermination(ci: ConnectionInfo, ref: ActorRef, r: Response, now: nat) returns (past: seq<Action>)
    requires r.rid != 0
    ensures Connects(Run(past), ref) && Run(past).stash == [Terminated(ref), ResponseEnvelope([r])]
    ensures Run(past + [Process(now)] + [Process(now), Process(now)]).delivered == []
    ensures AllHeedWatches(past) && ref in Run(past).watched
  {
    var t, e, c := Terminated(ref), ResponseEnvelope([r]), ConnectEndpoint(ci, ref);
    assert [r][..0] == [] && Others([r]) == [] + [r];
    past := LostButWatched(ci, ref, now);
    past := StashAnother(past, t, now);
    past := StashAnother(past, e, now);
    RunNext(past, Arrive(c));
    HeedNext(past, Arrive(c));
    past := past + [Arrive(c)];
    NotSentBehind(past, now, ref, t, e);
  }

  lemma NotSentBehind(past: seq<Action>, now: nat, ref: ActorRef, t: Command, e: Command)
    requires t == Terminated(ref) && Connects(Run(past), ref) && Run(past).stash == [t, e] && Run(past).delivered == []
    ensures Run(past + [Process(now)] + [Process(now), Process(now)]).delivered == []
  {
    var later, stash := [Process(now), Process(now)], Run(past).stash;
    assert later[..1] == [Process(now)] && [Process(now)][..0] == [];
    assert Processed([Process(now)]) == 1;
    assert later[|later| - 1].Process? && later[..|later| - 1] == [Process(now)];
    assert AllKeepEndpoint(past + [Process(now)], [Process(now)]) && AllKeepEndpoint(past + [Process(now)], later);
    WaitingGoToNextEndpoint(past, now, later, ref);
    assert stash[..2] == stash && stash == [t] + [e] && [t] == [] + [t];
    UpToOne(ref, [], t);
    UpToOne(ref, [t], e);
  }

  lemma HeedNext(past: seq<Action>, a: Action)
    requires AllHeedWatches(past) && HeedsWatches(Run(past), a)
    ensures AllHeedWatches(past + [a])
  {
    assert (past + [a])[..|past|] == past;
  }

  /** What the first message of a new link does if it is a connection. */
  lemma FirstConnects(l: Link, now: nat)
    requires l == NEW_LINK.(mailbox := l.mailbox) && |l.mailbox| == 1 && l.mailbox[0].ConnectEndpoint?
    ensures var l' := ProcessNext(l, now);
            l'.watched == {l.mailbox[0].ref} && l'.mailbox == [] && l'.stash == [] && l'.delivered == []
  {
    var c := l.mailbox[0];
    RunOne(l.(mailbox := l.mailbox[1..], handled := l.handled + [c]), ConnectEvent(l, c.ci, c.ref, now));
  }

  /** An endpoint has connected; a restart has recovered nothing, but kept watching it. */
  lemma LostButWatched(ci: ConnectionInfo, ref: ActorRef, now: nat) returns (actions: seq<Action>)
    ensures var l := Run(actions);
            && !l.connected && l.mailbox == [] && l.stash == [] && l.watched == {ref} && l.delivered == []
            && AllHeedWatches(actions)
  {
    var c, crash := ConnectEndpoint(ci, ref), Crash(NO_BASE, true);
    RunNext([], Arrive(c));
    HeedNext([], Arrive(c));
    actions := [] + [Arrive(c)];
    FirstConnects(Run(actions), now);
    RunNext(actions, Process(now));
    HeedNext(actions, Process(now));
    actions := actions + [Process(now)];
    RunNext(actions, crash);
    HeedNext(actions, crash);
    actions := actions + [crash];
  }

  lemma StashAnother(past: seq<Action>, c: Command, now: nat) returns (more: seq<Action>)
    requires !Run(past).connected && Run(past).mailbox == [] && Stashes(c)
    requires AllHeedWatches(past) && (c.Terminated? ==> c.ref in Run(past).watched)
    ensures Run(more) == Run(past).(stash := Run(past).stash + [c]) && AllHeedWatches(more)
  {
    more := past + [Arrive(c)] + [Process(now)];
    RunNext(past, Arrive(c));
    HeedNext(past, Arrive(c));
    RunNext(past + [Arrive(c)], Process(now));
    HeedNext(past + [Arrive(c)], Process(now));
    assert [c][1..] == [];
  }

  // ---- What was delivered stays delivered ----

  lemma StepDelivers(l: Link, a: Action)
    requires Attached(l)
    ensures l.delivered <= Step(l, a).delivered
  {
    if a.Process? && l.mailbox != [] {
      QueuesAfter(l, a.now);
    }
  }

  lemma {:induction false} DeliveredOnlyGrows(past: seq<Action>, more: seq<Action>)
    ensures Run(past).delivered <= Run(past + more).delivered
  {
    if more == [] {
      assert past + more == past;
    } else {
      var front, a := more[..|more| - 1], more[|more| - 1];
      DeliveredOnlyGrows(past, front);
      ConnectionInvariant(past + front);
      assert past + more == past + front + [a];
      RunNext(past + front, a);
      StepDelivers(Run(past + front), a);
    }
  }

  lemma {:induction false} EnoughProcessed(later: seq<Action>, n: nat) returns (i: nat)
    requires n <= Processed(later)
    ensures i <= |later| && Processed(later[..i]) == n
  {
    if n == Processed(later) {
      i := |later|;
      assert later[..i] == later;
    } else {
      i := EnoughProcessed(later[..|later| - 1], n);
      assert later[..|later| - 1][..i] == later[..i];
    }
  }

  lemma {:induction false} KeepEndpointPrefix(start: seq<Action>, later: seq<Action>, i: nat)
    requires AllKeepEndpoint(start, later) && i <= |later|
    ensures AllKeepEndpoint(start, later[..i])
  {
    if i < |later| {
      KeepEndpointPrefix(start, later[..|later| - 1], i);
      assert later[..|later| - 1][..i] == later[..i];
    } else {
      assert later[..i] == later;
    }
  }

  /**
   In every run that goes on long enough after an endpoint connects, it got all that had waited, in order and
   before anything else was sent.
   */
  lemma WaitingWereSentFirst(past: seq<Action>, now: nat, later: seq<Action>, ref: ActorRef)
    requires AllHeedWatches(past) && AllSpareWatches(past)
    requires Connects(Run(past), ref) && Processed(later) >= |Run(past).stash|
    requires AllKeepEndpoint(past + [Process(now)], later)
    ensures Run(past).delivered + Owed(ref, Run(past).stash) <= Run(past + [Process(now)] + later).delivered
  {
    var i := EnoughProcessed(later, |Run(past).stash|);
    KeepEndpointPrefix(past + [Process(now)], later, i);
    NextEndpointGetsAll(past, now, later[..i], ref);
    DeliveredOnlyGrows(past + [Process(now)] + later[..i], later[i..]);
    JoinLater(past + [Process(now)], later, i);
  }

  lemma JoinLater<T>(a: seq<T>, b: seq<T>, i: nat)
    requires i <= |b|
    ensures a + b[..i] + b[i..] == a + b
  {}

  /** Restarts that recover the last base state persisted keep the endpoint. */
  lemma {:induction false} RecoverLastKeepsEndpoint(start: seq<Action>, later: seq<Action>)
    requires AllRecoverLast(start + later)
    ensures AllRecoverLast(start) && AllKeepEndpoint(start, later)
  {
    if later == [] {
      assert start + later == start;
    } else {
      var front := later[..|later| - 1];
      assert (start + later)[..|start + later| - 1] == start + front;
      RecoverLastKeepsEndpoint(start, front);
      BaseIsLastPersisted(start + front);
    }
  }

  /** In every run whose restarts do, and that hears of terminations of watched actors only, nothing else is needed. */
  lemma NextEndpointGetsAllThatWaited(past: seq<Action>, now: nat, later: seq<Action>, ref: ActorRef)
    requires AllRecoverLast(past + [Process(now)] + later) && AllHeedWatches(past)
    requires Connects(Run(past), ref) && Processed(later) >= |Run(past).stash|
    ensures Run(past).delivered + Owed(ref, Run(past).stash) <= Run(past + [Process(now)] + later).delivered
  {
    RecoverLastKeepsEndpoint(past + [Process(now)], later);
    RecoverLastKeepsEndpoint(past, [Process(now)]);
    BaseIsLastPersisted(past);
    WaitingWereSentFirst(past, now, later, ref);
  }
}

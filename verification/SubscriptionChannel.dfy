/**
 The QoS stage between subscription notifications and the endpoint: one bounded queue per
 subscription id, replaced by a Default notification and appended to by the other levels.
 */
module SubscriptionChannels {
  import opened Collections

  datatype Level = Default | Queued | Durable | DurableAndPersist

  datatype Notification = Notification(response: string, sid: int, qos: Level)

  type Queues = map<int, seq<Notification>>

  function QueueOf(queues: Queues, sid: int): seq<Notification> {
    if sid in queues then queues[sid] else []
  }

  /** The notifications of one subscription, in order. */
  function ForSid(ms: seq<Notification>, sid: int): (r: seq<Notification>) {
    if ms == [] then []
    else
      var last := ms[|ms| - 1];
      var past := ForSid(ms[..|ms| - 1], sid);
      if last.sid == sid then past + [last] else past
  }

  lemma {:induction false} ForSidConcat(a: seq<Notification>, b: seq<Notification>, sid: int)
    ensures ForSid(a + b, sid) == ForSid(a, sid) + ForSid(b, sid)
  {
    if b == [] {
      assert a + b == a;
    } else {
      ForSidConcat(a, b[..|b| - 1], sid);
      assert (a + b)[..|a + b| - 1] == a + b[..|b| - 1];
    }
  }

  lemma {:induction false} ForSidUniform(ms: seq<Notification>, key: int, sid: int)
    requires forall m <- ms :: m.sid == key
    ensures ForSid(ms, sid) == if sid == key then ms else []
  {
    if ms != [] {
      ForSidUniform(ms[..|ms| - 1], key, sid);
    }
  }

  lemma ForSidAppend(a: seq<Notification>, b: seq<Notification>, key: int)
    requires forall m <- b :: m.sid == key
    ensures forall sid :: ForSid(a + b, sid) == if sid == key then ForSid(a, sid) + b else ForSid(a, sid)
  {
    forall sid ensures ForSid(a + b, sid) == if sid == key then ForSid(a, sid) + b else ForSid(a, sid) {
      ForSidConcat(a, b, sid);
      ForSidUniform(b, key, sid);
    }
  }

  // ---- The history of one channel, and what it means for one subscription ----

  datatype Event = Put(message: Notification) | Drain

  datatype History = Start | Then(past: History, event: Event)

  /** The queue of a subscription after one more notification for it. */
  function PutQueue(capacity: nat, queue: seq<Notification>, message: Notification): seq<Notification> {
    if message.qos.Default? then [message]
    else (if |queue| > capacity then queue[1..] else queue) + [message]
  }

  /** What that notification pushes out of the queue. */
  function PutDropped(capacity: nat, queue: seq<Notification>, message: Notification): seq<Notification> {
    if message.qos.Default? then queue
    else if |queue| > capacity then queue[..1] else []
  }

  function Buffered(capacity: nat, history: History, sid: int): seq<Notification> {
    match history
    case Start => []
    case Then(past, Put(m)) =>
      var queue := Buffered(capacity, past, sid);
      if m.sid == sid then PutQueue(capacity, queue, m) else queue
    case Then(_, Drain) => []
  }

  function Emitted(capacity: nat, history: History, sid: int): seq<Notification> {
    match history
    case Start => []
    case Then(past, Put(_)) => Emitted(capacity, past, sid)
    case Then(past, Drain) => Emitted(capacity, past, sid) + Buffered(capacity, past, sid)
  }

  function Dropped(capacity: nat, history: History, sid: int): seq<Notification> {
    match history
    case Start => []
    case Then(past, Put(m)) =>
      var dropped := Dropped(capacity, past, sid);
      if m.sid == sid then dropped + PutDropped(capacity, Buffered(capacity, past, sid), m) else dropped
    case Then(past, Drain) => Dropped(capacity, past, sid)
  }

  /** Every notification put for a subscription, in order. */
  function PutsOf(history: History, sid: int): seq<Notification> {
    match history
    case Start => []
    case Then(past, Put(m)) => if m.sid == sid then PutsOf(past, sid) + [m] else PutsOf(past, sid)
    case Then(past, Drain) => PutsOf(past, sid)
  }

  /** Those put since the last drain. */
  function PutsSinceDrain(history: History, sid: int): seq<Notification> {
    match history
    case Start => []
    case Then(past, Put(m)) => if m.sid == sid then PutsSinceDrain(past, sid) + [m] else PutsSinceDrain(past, sid)
    case Then(_, Drain) => []
  }

  /** The notifications from the latest Default one on, or all of them when there is none. */
  function FromLatestDefault(ms: seq<Notification>): seq<Notification> {
    if ms == [] then []
    else
      var m := ms[|ms| - 1];
      if m.qos.Default? then [m] else FromLatestDefault(ms[..|ms| - 1]) + [m]
  }

  lemma {:induction false} FromLatestDefaultMeaning(ms: seq<Notification>)
    ensures var r := FromLatestDefault(ms);
            && |r| <= |ms| && r == ms[|ms| - |r|..]
            && (forall k :: 1 <= k < |r| ==> !r[k].qos.Default?)
            && (|r| < |ms| ==> r[0].qos.Default?)
  {
    if ms != [] {
      FromLatestDefaultMeaning(ms[..|ms| - 1]);
    }
  }

  function LastN<T>(n: nat, s: seq<T>): (r: seq<T>)
    ensures |r| == if |s| <= n then |s| else n
  {
    if |s| <= n then s else s[|s| - n..]
  }

  /** What a queue should hold: the newest capacity + 1 notifications from the latest Default on. */
  function Window(capacity: nat, puts: seq<Notification>): seq<Notification> {
    LastN(capacity + 1, FromLatestDefault(puts))
  }

  lemma LastNStep<T>(n: nat, s: seq<T>, x: T)
    requires 1 <= n
    ensures LastN(n, s + [x]) == (if |LastN(n, s)| == n then LastN(n, s)[1..] else LastN(n, s)) + [x]
  {}

  lemma WindowStep(capacity: nat, puts: seq<Notification>, m: Notification)
    ensures Window(capacity, puts + [m]) == PutQueue(capacity, Window(capacity, puts), m)
  {
    assert (puts + [m])[..|puts|] == puts;
    LastNStep(capacity + 1, FromLatestDefault(puts), m);
  }

  /** The queue that results from a sequence of puts alone. */
  function Fold(capacity: nat, puts: seq<Notification>): seq<Notification> {
    if puts == [] then []
    else PutQueue(capacity, Fold(capacity, puts[..|puts| - 1]), puts[|puts| - 1])
  }

  lemma FoldStep(capacity: nat, puts: seq<Notification>, m: Notification)
    ensures Fold(capacity, puts + [m]) == PutQueue(capacity, Fold(capacity, puts), m)
  {
    assert (puts + [m])[..|puts|] == puts;
  }

  lemma {:induction false} FoldIsWindow(capacity: nat, puts: seq<Notification>)
    ensures Fold(capacity, puts) == Window(capacity, puts)
  {
    if puts != [] {
      var past, m := puts[..|puts| - 1], puts[|puts| - 1];
      FoldIsWindow(capacity, past);
      assert puts == past + [m];
      WindowStep(capacity, past, m);
      FoldStep(capacity, past, m);
    }
  }

  lemma {:induction false} BufferedIsFold(capacity: nat, history: History, sid: int)
    ensures Buffered(capacity, history, sid) == Fold(capacity, PutsSinceDrain(history, sid))
  {
    if history.Then? && history.event.Put? {
      BufferedIsFold(capacity, history.past, sid);
      if history.event.message.sid == sid {
        var puts := PutsSinceDrain(history, sid);
        assert puts[..|puts| - 1] == PutsSinceDrain(history.past, sid);
      }
    }
  }

  /** A subscription's queue is a function of what was put for it since the last drain. */
  lemma QueueIsWindow(capacity: nat, history: History, sid: int)
    ensures Buffered(capacity, history, sid) == Window(capacity, PutsSinceDrain(history, sid))
    ensures |Buffered(capacity, history, sid)| <= capacity + 1
  {
    BufferedIsFold(capacity, history, sid);
    FoldIsWindow(capacity, PutsSinceDrain(history, sid));
  }

  /** Every notification put is emitted, still buffered, or was dropped: none is lost and none made up. */
  lemma {:induction false} Conservation(capacity: nat, history: History, sid: int)
    ensures multiset(PutsOf(history, sid)) ==
            multiset(Emitted(capacity, history, sid)) + multiset(Buffered(capacity, history, sid))
            + multiset(Dropped(capacity, history, sid))
  {
    match history
    case Start =>
    case Then(past, Put(m)) =>
      Conservation(capacity, past, sid);
      if m.sid == sid {
        PutConserves(capacity, Buffered(capacity, past, sid), m);
      }
    case Then(past, Drain) =>
      Conservation(capacity, past, sid);
  }

  lemma PutConserves(capacity: nat, queue: seq<Notification>, m: Notification)
    ensures multiset(queue) + multiset{m} ==
            multiset(PutQueue(capacity, queue, m)) + multiset(PutDropped(capacity, queue, m))
  {
    if !m.qos.Default? && |queue| > capacity {
      assert queue == queue[..1] + queue[1..];
    }
  }

  /** a is a subsequence of b: its k-th element is the one at position at[k] of b. */
  ghost predicate Embeds<T>(a: seq<T>, b: seq<T>, at: seq<nat>) {
    && |at| == |a|
    && (forall k :: 0 <= k < |a| ==> at[k] < |b| && a[k] == b[at[k]])
    && (forall i, j :: 0 <= i < j < |at| ==> at[i] < at[j])
  }

  /** What happens to the positions when a queue after the part already sent takes one more notification. */
  lemma PutKeepsOrder(capacity: nat, sent: seq<Notification>, queue: seq<Notification>, puts: seq<Notification>,
                      m: Notification, at: seq<nat>) returns (more: seq<nat>)
    requires Embeds(sent + queue, puts, at)
    ensures Embeds(sent + PutQueue(capacity, queue, m), puts + [m], more)
  {
    if m.qos.Default? {
      more := at[..|sent|] + [|puts|];
    } else if |queue| > capacity {
      more := at[..|sent|] + at[|sent| + 1..] + [|puts|];
    } else {
      more := at + [|puts|];
    }
  }

  /** Emitted notifications, followed by the buffered ones, keep the order in which they were put. */
  lemma {:induction false} EmittedKeepsPutOrder(capacity: nat, history: History, sid: int) returns (at: seq<nat>)
    ensures Embeds(Emitted(capacity, history, sid) + Buffered(capacity, history, sid), PutsOf(history, sid), at)
  {
    at := [];
    match history
    case Start =>
    case Then(past, Put(m)) =>
      at := EmittedKeepsPutOrder(capacity, past, sid);
      if m.sid == sid {
        at := PutKeepsOrder(capacity, Emitted(capacity, past, sid), Buffered(capacity, past, sid),
                            PutsOf(past, sid), m, at);
      }
    case Then(past, Drain) =>
      at := EmittedKeepsPutOrder(capacity, past, sid);
      assert Emitted(capacity, history, sid) + [] == Emitted(capacity, history, sid);
  }

  /** The subscription gets no Default notification, and never more than capacity + 1 others between drains. */
  predicate Roomy(capacity: nat, history: History, sid: int) {
    history.Then? ==>
      && Roomy(capacity, history.past, sid)
      && |PutsSinceDrain(history, sid)| <= capacity + 1
      && (history.event.Put? && history.event.message.sid == sid ==> !history.event.message.qos.Default?)
  }

  /** Queued levels deliver everything, in order, as long as no more than capacity + 1 arrive between drains. */
  lemma {:induction false} NothingDroppedWithinCapacity(capacity: nat, history: History, sid: int)
    requires Roomy(capacity, history, sid)
    ensures Dropped(capacity, history, sid) == []
    ensures Buffered(capacity, history, sid) == PutsSinceDrain(history, sid)
    ensures Emitted(capacity, history, sid) + Buffered(capacity, history, sid) == PutsOf(history, sid)
  {
    match history
    case Start =>
    case Then(past, Put(m)) =>
      NothingDroppedWithinCapacity(capacity, past, sid);
      var sent, queue := Emitted(capacity, past, sid), Buffered(capacity, past, sid);
      assert sent + (queue + [m]) == (sent + queue) + [m];
    case Then(past, Drain) =>
      NothingDroppedWithinCapacity(capacity, past, sid);
  }

  ghost predicate Keyed(queues: Queues) {
    forall sid <- queues, m <- queues[sid] :: m.sid == sid
  }

  /** Lists the queues in an arbitrary order of their subscriptions, each from its oldest notification. */
  method Flatten(queues: Queues) returns (emitted: seq<Notification>)
    requires Keyed(queues)
    ensures forall sid :: ForSid(emitted, sid) == QueueOf(queues, sid)
  {
    emitted := [];
    var rest := queues.Keys;
    while rest != {}
      invariant rest <= queues.Keys
      invariant forall sid :: ForSid(emitted, sid) == QueueOf(queues - rest, sid)
      decreases rest
    {
      var key := Pick(rest);
      ForSidAppend(emitted, queues[key], key);
      emitted := emitted + queues[key];
      rest := rest - {key};
    }
  }

  class SubscriptionChannel {
    const capacity: nat
    var subscriptionsQueue: Queues
    ghost var history: History
    ghost var sent: seq<Notification>

    /** The queues and everything sent so far are what the history says, subscription by subscription. */
    ghost predicate Valid()
      reads this
    {
      && Keyed(subscriptionsQueue)
      && (forall sid :: QueueOf(subscriptionsQueue, sid) == Buffered(capacity, history, sid))
      && (forall sid :: ForSid(sent, sid) == Emitted(capacity, history, sid))
    }

    constructor (capacity: nat)
      ensures Valid() && this.capacity == capacity && history == Start && sent == []
    {
      this.capacity := capacity;
      subscriptionsQueue := map[];
      history, sent := Start, [];
    }

    method PutMessage(message: Notification) returns (sid: int)
      requires Valid()
      modifies this
      ensures Valid() && history == Then(old(history), Put(message)) && sent == old(sent) && sid == message.sid
    {
      sid := message.sid;
      if message.qos.Default? {
        subscriptionsQueue := subscriptionsQueue[sid := [message]];
      } else {
        var q := if sid in subscriptionsQueue then subscriptionsQueue[sid] else [];
        if |q| > capacity {
          q := q[1..];
        }
        q := q + [message];
        subscriptionsQueue := subscriptionsQueue[sid := q];
      }
      history := Then(history, Put(message));
    }

    method PushNext() returns (emitted: seq<Notification>)
      requires Valid()
      modifies this
      ensures Valid() && history == Then(old(history), Drain) && sent == old(sent) + emitted
      ensures subscriptionsQueue == map[]
    {
      emitted := Flatten(subscriptionsQueue);
      subscriptionsQueue := map[];
      forall sid ensures ForSid(sent + emitted, sid) == ForSid(sent, sid) + ForSid(emitted, sid) {
        ForSidConcat(sent, emitted, sid);
      }
      history, sent := Then(history, Drain), sent + emitted;
    }

    /** Queues a batch and, when the outlet is available, drains everything. */
    method OnPush(messages: seq<Notification>, outAvailable: bool) returns (emitted: seq<Notification>)
      requires Valid()
      modifies this
      ensures Valid() && sent == old(sent) + emitted
      ensures history == (var put := PutAll(old(history), messages); if outAvailable then Then(put, Drain) else put)
      ensures forall sid :: PutsOf(history, sid) == PutsOf(old(history), sid) + ForSid(messages, sid)
      ensures !outAvailable ==>
                emitted == []
                && forall sid :: PutsSinceDrain(history, sid)
                                 == PutsSinceDrain(old(history), sid) + ForSid(messages, sid)
    {
      for i := 0 to |messages|
        invariant Valid() && sent == old(sent)
        invariant history == PutAll(old(history), messages[..i])
      {
        assert messages[..i + 1] == messages[..i] + [messages[i]];
        var _ := PutMessage(messages[i]);
      }
      assert messages[..|messages|] == messages;
      forall sid
        ensures PutsOf(history, sid) == PutsOf(old(history), sid) + ForSid(messages, sid)
        ensures PutsSinceDrain(history, sid) == PutsSinceDrain(old(history), sid) + ForSid(messages, sid)
      {
        BatchPutInOrder(old(history), messages, sid);
      }
      emitted := [];
      if outAvailable {
        emitted := PushNext();
      }
    }

    /** When the source completes, what is left is emitted; the queues are not cleared. */
    method OnUpstreamFinish() returns (emitted: seq<Notification>)
      requires Valid()
      ensures forall sid :: ForSid(sent + emitted, sid) ==
                            Emitted(capacity, history, sid) + Buffered(capacity, history, sid)
    {
      emitted := Flatten(subscriptionsQueue);
      forall sid ensures ForSid(sent + emitted, sid) == ForSid(sent, sid) + ForSid(emitted, sid) {
        ForSidConcat(sent, emitted, sid);
      }
    }
  }

  function PutAll(history: History, messages: seq<Notification>): History {
    if messages == [] then history
    else Then(PutAll(history, messages[..|messages| - 1]), Put(messages[|messages| - 1]))
  }

  /** A batch is put in the order it came in, after what was put before. */
  lemma {:induction false} BatchPutInOrder(history: History, messages: seq<Notification>, sid: int)
    ensures PutsOf(PutAll(history, messages), sid) == PutsOf(history, sid) + ForSid(messages, sid)
    ensures PutsSinceDrain(PutAll(history, messages), sid) == PutsSinceDrain(history, sid) + ForSid(messages, sid)
  {
    if messages != [] {
      BatchPutInOrder(history, messages[..|messages| - 1], sid);
    }
  }
}

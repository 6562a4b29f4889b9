/** When snapshots are taken, and what is left in the store after one was saved and its deletions were done. */
module SnapshotCleanup {
  import opened Snapshots

  lemma MultipleIff(interval: int, n: nat)
    requires interval > 0
    ensures n % interval == 0 <==> exists k: nat :: n == k * interval
  {
    var q, r := n / interval, n % interval;
    assert n == q * interval + r;
    forall k: nat | n == k * interval ensures r == 0 {
      assert (k - q) * interval == r;
      NoMultipleBetween(k - q, interval, r);
    }
    if r == 0 {
      assert n == q * interval;
    }
  }

  lemma NoMultipleBetween(d: int, interval: int, r: int)
    requires d * interval == r && 0 <= r < interval
    ensures r == 0
  {
    MultipleAway(d, interval);
  }

  lemma MultipleAway(d: int, interval: int)
    requires interval > 0
    ensures d >= 1 ==> d * interval >= interval
    ensures d <= -1 ==> d * interval <= -interval
    ensures d == 0 ==> d * interval == 0
  {
    if d >= 1 {
      assert d * interval == interval + (d - 1) * interval;
      assert (d - 1) * interval >= 0;
    } else if d <= -1 {
      assert d * interval == -interval + (d + 1) * interval;
      assert (d + 1) * interval <= 0;
    }
  }

  /** A snapshot is due at the positive multiples of a positive interval, and never otherwise. */
  lemma DueIff(interval: int, n: nat)
    ensures Due(interval, n) <==> interval > 0 && n > 0 && exists k: nat :: n == k * interval
  {
    if interval > 0 {
      MultipleIff(interval, n);
    }
  }

  function ExecuteAll(keep: int, interval: int, s: Store, cs: seq<Command>): Store {
    if cs == [] then s else Step(keep, interval, ExecuteAll(keep, interval, s, cs[..|cs| - 1]), Execute(cs[|cs| - 1]))
  }

  /** The event is deleted by one of the commands. */
  predicate EventGoes(cs: seq<Command>, k: nat) {
    exists c <- cs :: c.DeleteMessages? && k <= c.toSeqNr
  }

  predicate SnapshotGoes(cs: seq<Command>, m: Metadata) {
    exists c <- cs :: c.DeleteSnapshots? && m.seqNr <= c.maxSeqNr && m.timestamp <= c.maxTimestamp
  }

  /** Executing commands that were asked for deletes what they say, and nothing else. */
  lemma {:induction false} Executed(keep: int, interval: int, s: Store, cs: seq<Command>)
    requires forall c <- cs :: c in s.commands
    ensures var t := ExecuteAll(keep, interval, s, cs);
            && t.commands == s.commands
            && (forall k :: k in t.journal <==> k in s.journal && !EventGoes(cs, k))
            && (forall m :: m in t.snapshots <==> m in s.snapshots && !SnapshotGoes(cs, m))
            && (forall k <- t.journal :: t.journal[k] == s.journal[k])
            && (forall m <- t.snapshots :: t.snapshots[m] == s.snapshots[m])
  {
    if cs != [] {
      var front, c := cs[..|cs| - 1], cs[|cs| - 1];
      assert cs == front + [c];
      Executed(keep, interval, s, front);
      forall k: nat ensures EventGoes(cs, k) <==> EventGoes(front, k) || (c.DeleteMessages? && k <= c.toSeqNr) {}
      forall m
        ensures SnapshotGoes(cs, m) <==>
                SnapshotGoes(front, m)
                || (c.DeleteSnapshots? && m.seqNr <= c.maxSeqNr && m.timestamp <= c.maxTimestamp)
      {}
    }
  }

  /**
   After a success was received and what it asks for was done, in whatever order and however often: the events
   up to the snapshot are gone and the later ones are not, and of the snapshots up to its time exactly those are
   left whose number is less than keep intervals behind.
   */
  lemma SuccessCleansUp(keep: int, interval: int, s: Store, m: Metadata, cs: seq<Command>)
    requires m in s.saved && s.commands == {}
    requires forall c :: c in cs <==> c in Step(keep, interval, s, ReceiveSuccess(m)).commands
    ensures var t := ExecuteAll(keep, interval, Step(keep, interval, s, ReceiveSuccess(m)), cs);
            && (forall k :: k in t.journal <==> k in s.journal && k > m.seqNr)
            && (forall o :: o in t.snapshots <==>
                  o in s.snapshots && (o.timestamp <= m.timestamp ==> o.seqNr > m.seqNr - keep * interval))
  {
    var asked := Step(keep, interval, s, ReceiveSuccess(m));
    Executed(keep, interval, asked, cs);
    assert DeleteMessages(m.seqNr) in cs && DeleteSnapshots(m.seqNr - keep * interval, m.timestamp) in cs;
    forall c <- cs
      ensures c == DeleteMessages(m.seqNr) || c == DeleteSnapshots(m.seqNr - keep * interval, m.timestamp)
    {
      assert c in asked.commands;
    }
  }
}

/** The durable state of a link: its base layer and its requester tables, rebuilt from persisted events. */
module DurableState {
  import opened Collections
  import opened Dsa
  import opened RequesterTables

  datatype LinkInfo = LinkInfo(dsId: string, isRequester: bool, isResponder: bool)

  /** A link is a requester, a responder, or both: no other description can be constructed. */
  type ConnectionInfo = i: LinkInfo | i.isRequester || i.isResponder witness LinkInfo("", true, false)

  datatype BaseState = BaseState(
    endpoint: Option<ActorRef>,
    connInfo: ConnectionInfo,
    lastConnected: Option<nat>,
    lastDisconnected: Option<nat>)

  /** What a new incarnation starts with, before it recovers anything. */
  const NO_BASE := BaseState(None, LinkInfo("", true, false), None, None)

  datatype Durable = Durable(base: BaseState, tables: Tables)

  const NOTHING := Durable(NO_BASE, NO_TABLES)

  datatype LinkEvent = BaseEvent(state: BaseState) | RequesterEvent(event: Event)

  function ApplyLink(d: Durable, e: LinkEvent): Durable {
    match e
    case BaseEvent(state) => d.(base := state)
    case RequesterEvent(event) => d.(tables := ApplyEvent(d.tables, event))
  }

  function ReplayLink(d: Durable, events: seq<LinkEvent>): Durable {
    if events == [] then d else ApplyLink(ReplayLink(d, events[..|events| - 1]), events[|events| - 1])
  }

  lemma {:induction false} ReplayLinkConcat(d: Durable, a: seq<LinkEvent>, b: seq<LinkEvent>)
    ensures ReplayLink(d, a + b) == ReplayLink(ReplayLink(d, a), b)
  {
    if b == [] {
      assert a + b == a;
    } else {
      assert (a + b)[..|a + b| - 1] == a + b[..|b| - 1];
      ReplayLinkConcat(d, a, b[..|b| - 1]);
    }
  }

  // ---- The parts of the state that events overwrite independently ----

  datatype Cell = BaseCell | RidCell(rid: int) | SidCell(sid: int) | LastRidCell

  /** The two states agree on the cell. */
  predicate Same(a: Durable, b: Durable, c: Cell) {
    match c
    case BaseCell => a.base == b.base
    case RidCell(rid) => Lookup(a.tables.byRid, rid) == Lookup(b.tables.byRid, rid)
    case SidCell(sid) => Lookup(a.tables.bySid, sid) == Lookup(b.tables.bySid, sid)
    case LastRidCell => a.tables.lastRid == b.tables.lastRid
  }

  predicate Writes(e: LinkEvent, c: Cell) {
    match e
    case BaseEvent(_) => c.BaseCell?
    case RequesterEvent(RidTarget(rid, _)) => c == RidCell(rid)
    case RequesterEvent(RemoveRid(rid)) => c == RidCell(rid)
    case RequesterEvent(SidTarget(sid, _)) => c == SidCell(sid)
    case RequesterEvent(RemoveSids(sids)) => c.SidCell? && c.sid in sids
    case RequesterEvent(LastRidSet(_)) => c.LastRidCell?
  }

  predicate WrittenBy(events: seq<LinkEvent>, c: Cell) {
    exists e <- events :: Writes(e, c)
  }

  lemma SameEverywhere(a: Durable, b: Durable)
    requires forall c :: Same(a, b, c)
    ensures a == b
  {
    assert Same(a, b, BaseCell) && Same(a, b, LastRidCell);
    forall rid ensures rid in a.tables.byRid <==> rid in b.tables.byRid { assert Same(a, b, RidCell(rid)); }
    forall rid <- a.tables.byRid ensures a.tables.byRid[rid] == b.tables.byRid[rid] { assert Same(a, b, RidCell(rid)); }
    forall sid ensures sid in a.tables.bySid <==> sid in b.tables.bySid { assert Same(a, b, SidCell(sid)); }
    forall sid <- a.tables.bySid ensures a.tables.bySid[sid] == b.tables.bySid[sid] { assert Same(a, b, SidCell(sid)); }
    assert a.tables.byRid == b.tables.byRid;
    assert a.tables.bySid == b.tables.bySid;
  }

  lemma ApplySame(a: Durable, b: Durable, e: LinkEvent, c: Cell)
    ensures Same(ApplyLink(a, e), ApplyLink(b, e), c) <==> Writes(e, c) || Same(a, b, c)
  {}

  lemma {:induction false} ReplaySame(a: Durable, b: Durable, events: seq<LinkEvent>, c: Cell)
    ensures Same(ReplayLink(a, events), ReplayLink(b, events), c) <==> WrittenBy(events, c) || Same(a, b, c)
  {
    if events != [] {
      var front, last := events[..|events| - 1], events[|events| - 1];
      ReplaySame(a, b, front, c);
      ApplySame(ReplayLink(a, front), ReplayLink(b, front), last, c);
      assert events == front + [last];
      assert WrittenBy(events, c) <==> WrittenBy(front, c) || Writes(last, c);
    }
  }

  /** Replaying the same events ends alike exactly when the states agreed on every cell the events do not write. */
  lemma ReplayAgreement(a: Durable, b: Durable, events: seq<LinkEvent>)
    ensures ReplayLink(a, events) == ReplayLink(b, events) <==> forall c :: WrittenBy(events, c) || Same(a, b, c)
  {
    forall c ensures Same(ReplayLink(a, events), ReplayLink(b, events), c) <==> WrittenBy(events, c) || Same(a, b, c) {
      ReplaySame(a, b, events, c);
    }
    if forall c :: WrittenBy(events, c) || Same(a, b, c) {
      SameEverywhere(ReplayLink(a, events), ReplayLink(b, events));
    }
  }

  lemma UntouchedCell(d: Durable, e: LinkEvent, c: Cell)
    requires !Writes(e, c)
    ensures Same(ApplyLink(d, e), d, c)
  {}

  lemma {:induction false} UntouchedCells(d: Durable, events: seq<LinkEvent>, c: Cell)
    requires !WrittenBy(events, c)
    ensures Same(ReplayLink(d, events), d, c)
  {
    if events != [] {
      var front, last := events[..|events| - 1], events[|events| - 1];
      assert events == front + [last];
      assert forall e <- front :: e in events;
      UntouchedCells(d, front, c);
      assert last in events;
      UntouchedCell(ReplayLink(d, front), last, c);
    }
  }

  /**
   A state that differs from another only where later events write is as good to recover from: their replay
   ends alike, whatever comes after them.
   */
  lemma LateSnapshotHarmless(x: Durable, d: Durable, applied: seq<LinkEvent>, rest: seq<LinkEvent>)
    requires forall c :: Same(x, d, c) || WrittenBy(applied, c)
    ensures ReplayLink(x, applied + rest) == ReplayLink(d, applied + rest)
  {
    forall c ensures WrittenBy(applied + rest, c) || Same(x, d, c) {
      if WrittenBy(applied, c) {
        var e :| e in applied && Writes(e, c);
        assert e in applied + rest;
      }
    }
    ReplayAgreement(x, d, applied + rest);
  }

  /**
   The tables in a snapshot are the live maps, so they may be read after more events were applied, while the
   base state and lastRid are not: recovering from such a mix ends alike too.
   */
  lemma LateTablesHarmless(d: Durable, applied: seq<LinkEvent>, rest: seq<LinkEvent>)
    ensures var late := ReplayLink(d, applied);
            ReplayLink(Durable(d.base, late.tables.(lastRid := d.tables.lastRid)), applied + rest)
            == ReplayLink(d, applied + rest)
  {
    var late := ReplayLink(d, applied);
    var x := Durable(d.base, late.tables.(lastRid := d.tables.lastRid));
    forall c ensures Same(x, d, c) || WrittenBy(applied, c) {
      if !WrittenBy(applied, c) {
        UntouchedCells(d, applied, c);
      }
    }
    LateSnapshotHarmless(x, d, applied, rest);
  }
}

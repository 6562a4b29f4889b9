/** The requester layer as an actor: batching, deferred persist handlers, and recovery from the journal. */
module Requester {
  import opened Collections
  import opened RequesterTables

  type Batch = (string, seq<Request>)

  /** The requests routed to one target, in order. */
  function BatchOf(routed: seq<(string, Request)>, target: string): seq<Request> {
    if routed == [] then []
    else
      var past, last := BatchOf(routed[..|routed| - 1], target), routed[|routed| - 1];
      if last.0 == target then past + [last.1] else past
  }

  /** One non-empty batch for every target, each holding that target's requests. */
  ghost predicate IsGrouping(batches: seq<Batch>, routed: seq<(string, Request)>) {
    && (forall i, j :: 0 <= i < j < |batches| ==> batches[i].0 != batches[j].0)
    && (forall b <- batches :: b.1 == BatchOf(routed, b.0) && b.1 != [])
    && (forall r <- routed :: exists b <- batches :: b.0 == r.0)
  }

  /**
   A batch is the subsequence of its target's requests: its i-th request was routed at position at[i], the
   positions increase, and every position with that target is among them.
   */
  lemma {:induction false} BatchIsSubsequence(routed: seq<(string, Request)>, target: string) returns (at: seq<nat>)
    ensures |at| == |BatchOf(routed, target)|
    ensures forall i :: 0 <= i < |at| ==> at[i] < |routed| && routed[at[i]] == (target, BatchOf(routed, target)[i])
    ensures forall i, j :: 0 <= i < j < |at| ==> at[i] < at[j]
    ensures forall k: nat :: k < |routed| && routed[k].0 == target ==> k in at
  {
    at := [];
    if routed != [] {
      at := BatchIsSubsequence(routed[..|routed| - 1], target);
      if routed[|routed| - 1].0 == target {
        at := at + [|routed| - 1];
      }
    }
  }

  predicate Groups(groups: map<string, seq<Request>>, routed: seq<(string, Request)>) {
    && (forall target <- groups :: groups[target] == BatchOf(routed, target) && groups[target] != [])
    && (forall r <- routed :: r.0 in groups)
  }

  lemma GroupOne(groups: map<string, seq<Request>>, routed: seq<(string, Request)>, r: (string, Request))
    requires Groups(groups, routed)
    ensures Groups(groups[r.0 := (if r.0 in groups then groups[r.0] else []) + [r.1]], routed + [r])
  {
    var all := routed + [r];
    assert all[..|all| - 1] == routed;
    if r.0 !in groups {
      NoBatch(routed, r.0);
    }
  }

  lemma {:induction false} NoBatch(routed: seq<(string, Request)>, target: string)
    requires forall r <- routed :: r.0 != target
    ensures BatchOf(routed, target) == []
  {
    if routed != [] {
      NoBatch(routed[..|routed| - 1], target);
      assert routed[|routed| - 1].0 != target;
    }
  }

  class RequesterBehavior {
    const resolve: Resolver
    var targetsByRid: map<int, string>
    var targetsBySid: map<int, PathAndQos>
    var lastRid: int
    var journal: seq<Event>
    var sent: seq<Batch>

    function View(): Tables
      reads this
    {
      Tables(targetsByRid, targetsBySid, lastRid)
    }

    /** The tables are what the persisted events rebuild. */
    ghost predicate Valid()
      reads this
    {
      View() == Replay(NO_TABLES, journal)
    }

    constructor (resolve: Resolver)
      ensures Valid() && journal == [] && sent == [] && this.resolve == resolve
    {
      this.resolve := resolve;
      targetsByRid, targetsBySid, lastRid := map[], map[], 0;
      journal, sent := [], [];
    }

    /** A new incarnation, rebuilt from the journal of an earlier one. */
    constructor Recover(resolve: Resolver, events: seq<Event>)
      ensures Valid() && journal == events && sent == [] && this.resolve == resolve
    {
      this.resolve := resolve;
      targetsByRid, targetsBySid, lastRid := map[], map[], 0;
      journal, sent := events, [];
      new;
      for i := 0 to |events|
        invariant View() == Replay(NO_TABLES, events[..i]) && journal == events && sent == []
      {
        assert events[..i + 1][..i] == events[..i];
        match events[i]
        case RidTarget(rid, target) => targetsByRid := targetsByRid[rid := target];
        case SidTarget(sid, pathAndQos) => targetsBySid := targetsBySid[sid := pathAndQos];
        case RemoveRid(rid) => targetsByRid := targetsByRid - {rid};
        case RemoveSids(sids) => RemoveTargetBy(sids);
        case LastRidSet(rid) => lastRid := rid;
      }
      assert events[..|events|] == events;
    }

    method RemoveTargetBy(sids: seq<int>)
      modifies this`targetsBySid
      ensures targetsBySid == Without(old(targetsBySid), sids)
    {
      for i := 0 to |sids|
        invariant targetsBySid == Without(old(targetsBySid), sids[..i])
      {
        assert sids[..i + 1] == sids[..i] + [sids[i]];
        targetsBySid := targetsBySid - {sids[i]};
      }
      assert sids[..|sids|] == sids;
    }

    /** The handlers of the events a command persisted: they run in order, after the command. */
    method RunHandlers(pending: seq<Event>)
      modifies this`targetsByRid, this`targetsBySid, this`lastRid, this`journal
      ensures View() == Replay(old(View()), pending) && journal == old(journal) + pending
    {
      for i := 0 to |pending|
        invariant View() == Replay(old(View()), pending[..i]) && journal == old(journal) + pending[..i]
      {
        assert pending[..i + 1][..i] == pending[..i];
        journal := journal + [pending[i]];
        match pending[i]
        case RidTarget(rid, target) => targetsByRid := targetsByRid[rid := target];
        case SidTarget(sid, pathAndQos) => targetsBySid := targetsBySid[sid := pathAndQos];
        case RemoveRid(rid) => targetsByRid := targetsByRid - {rid};
        case RemoveSids(sids) => RemoveTargetBy(sids);
        case LastRidSet(rid) => lastRid := rid;
      }
      assert pending[..|pending|] == pending;
    }

    /** Groups the requests by target and sends each batch as one envelope, targets in any order. */
    method BatchAndRoute(routed: seq<(string, Request)>) returns (batches: seq<Batch>)
      modifies this`sent
      ensures IsGrouping(batches, routed) && sent == old(sent) + batches
    {
      var groups: map<string, seq<Request>> := map[];
      for i := 0 to |routed|
        invariant Groups(groups, routed[..i]) && sent == old(sent)
      {
        GroupOne(groups, routed[..i], routed[i]);
        assert routed[..i + 1] == routed[..i] + [routed[i]];
        var (to, r) := routed[i];
        groups := groups[to := (if to in groups then groups[to] else []) + [r]];
      }
      assert routed[..|routed|] == routed;
      batches := [];
      assert old(sent) + batches == sent;
      var rest := groups.Keys;
      while rest != {}
        invariant rest <= groups.Keys && sent == old(sent) + batches
        invariant forall b <- batches :: b.0 in groups && b.0 !in rest && b.1 == groups[b.0]
        invariant forall i, j :: 0 <= i < j < |batches| ==> batches[i].0 != batches[j].0
        invariant forall target <- groups :: target !in rest ==> exists b <- batches :: b.0 == target
        decreases rest
      {
        var to := Pick(rest);
        ghost var before := batches;
        batches := batches + [(to, groups[to])];
        sent := sent + [(to, groups[to])];
        rest := rest - {to};
        assert batches[|before|].0 == to;
        assert forall b <- before :: b in batches;
      }
    }

    /** Resolves every split request against the tables as they are; what it persists is left pending. */
    method ResolveAll(split: seq<Request>) returns (results: seq<(string, Request)>, pending: seq<Event>)
      requires forall r <- split :: IsSplit(r)
      ensures results == Routed(resolve, View(), split)
      ensures pending == ResolveEvents(resolve, View(), split)
    {
      results, pending := [], [];
      for i := 0 to |split|
        invariant results == Routed(resolve, View(), split[..i])
        invariant pending == ResolveEvents(resolve, View(), split[..i])
      {
        assert split[..i + 1][..i] == split[..i] && IsSplit(split[i]);
        var resolved := ResolveTarget(split[i]);
        if resolved.Some? {
          results := results + [(resolved.value.target, split[i])];
          pending := pending + resolved.value.events;
        }
      }
      assert split[..|split|] == split;
    }

    /** Resolves and routes the requests, then runs the handlers of the events they persisted. */
    method OnRequestMessage(requests: seq<Request>) returns (batches: seq<Batch>)
      requires Valid()
      modifies this
      ensures Valid()
      ensures View() == After(resolve, old(View()), Requests(requests))
      ensures journal == old(journal) + MessageEvents(resolve, old(View()), Requests(requests))
      ensures IsGrouping(batches, RouteMessage(resolve, old(View()), requests)) && sent == old(sent) + batches
    {
      SplitAllIsSplit(requests);
      var results, pending := ResolveAll(SplitAll(requests));
      batches := BatchAndRoute(results);
      if requests != [] {
        pending := pending + [LastRidSet(requests[|requests| - 1].rid)];
      }
      ReplayConcat(NO_TABLES, journal, pending);
      RunHandlers(pending);
    }

    /** The target of a request by its path, or by the tables, and the events to persist; None when it throws. */
    method ResolveTarget(r: Request) returns (resolved: Option<Resolved>)
      requires IsSplit(r)
      ensures resolved == Resolve(resolve, View(), r)
    {
      match r
      case ListRequest(rid, path) =>
        var target := resolve(path);
        resolved := Some(Resolved(target, [RidTarget(rid, target)]));
      case InvokeRequest(rid, path, _) =>
        var target := resolve(path);
        resolved := Some(Resolved(target, [RidTarget(rid, target)]));
      case SetRequest(_, path, _) =>
        resolved := Some(Resolved(resolve(path), []));
      case RemoveRequest(_, path) =>
        resolved := Some(Resolved(resolve(path), []));
      case SubscribeRequest(_, paths) =>
        var target, level := resolve(paths[0].path), LevelOf(paths[0].qos);
        if level.Some? {
          resolved := Some(Resolved(target, [SidTarget(paths[0].sid, PathAndQos(target, level.value))]));
        } else {
          resolved := None;
        }
      case UnsubscribeRequest(_, sids) =>
        if sids[0] in targetsBySid {
          resolved := Some(Resolved(targetsBySid[sids[0]].path, [RemoveSids([sids[0]])]));
        } else {
          resolved := None;
        }
      case CloseRequest(rid) =>
        if rid in targetsByRid {
          resolved := Some(Resolved(targetsByRid[rid], [RemoveRid(rid)]));
        } else {
          resolved := None;
        }
    }

    /** Forgets the targets of closed streams. */
    method CleanupStoredTargets(responses: seq<Response>)
      requires Valid()
      modifies this
      ensures Valid() && sent == old(sent)
      ensures View() == After(resolve, old(View()), Responses(responses))
      ensures journal == old(journal) + MessageEvents(resolve, old(View()), Responses(responses))
    {
      var pending: seq<Event> := [];
      for i := 0 to |responses|
        invariant pending == CleanupEvents(responses[..i])
      {
        assert responses[..i + 1][..i] == responses[..i];
        var r := responses[i];
        if r.closed && r.rid != 0 {
          pending := pending + [RemoveRid(r.rid)];
        } else if r.closed && r.updates.Some? {
          pending := pending + [RemoveSids(r.updates.value)];
        }
      }
      assert responses[..|responses|] == responses;
      ReplayConcat(NO_TABLES, journal, pending);
      RunHandlers(pending);
    }
  }
}

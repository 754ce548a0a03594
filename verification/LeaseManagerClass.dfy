/**
 LeaseManager of internal/mcp/lease.go with its fields. `View` is the table of module
 LeaseTable; the clock reading that the code takes under its lock is the parameter `now`.
*/
module LeaseManagerClass {
  import opened Wrappers
  import opened LeaseTable
  import opened SortedIds

  datatype ExpiredLease = ExpiredLease(sessionID: string, reason: string)

  function IDs(list: seq<ExpiredLease>): seq<string> { seq(|list|, i requires 0 <= i < |list| => list[i].sessionID) }

  // What was collected from a map, sorted by identifier.
  method Sorted(reasons: map<string, string>) returns (list: seq<ExpiredLease>)
    ensures Ascending(IDs(list)) && |list| == |reasons|
    ensures forall e: ExpiredLease :: e in list <==> e.sessionID in reasons && e.reason == reasons[e.sessionID]
  {
    var order := Sort(reasons.Keys);
    list := [];
    for i := 0 to |order|
      invariant |list| == i
      invariant forall k :: 0 <= k < i ==> order[k] in reasons && list[k] == ExpiredLease(order[k], reasons[order[k]])
    {
      assert order[i] in reasons.Keys;
      list := list + [ExpiredLease(order[i], reasons[order[i]])];
    }
    assert IDs(list) == order;
    forall e: ExpiredLease | e.sessionID in reasons && e.reason == reasons[e.sessionID] ensures e in list {
      assert e.sessionID in order;
      var i :| 0 <= i < |order| && order[i] == e.sessionID;
      assert list[i] == e;
    }
  }

  // The loop of ExpireEligible over the lease map, in whatever order it is iterated.
  method MarkEligible(b: Bounds, leases: map<string, Lease>, now: int)
    returns (marked: map<string, Lease>, found: set<string>)
    ensures marked == map id | id in leases :: Expired(b, leases[id], now)
    ensures forall id :: id in found <==> id in leases && ExpiryReason(b, leases[id], now) != ""
  {
    marked, found := leases, {};
    var todo := leases.Keys;
    while todo != {}
      invariant todo <= leases.Keys && marked.Keys == leases.Keys
      invariant forall id <- leases :: marked[id] == if id in todo then leases[id] else Expired(b, leases[id], now)
      invariant forall id :: id in found <==> id in leases && id !in todo && ExpiryReason(b, leases[id], now) != ""
      decreases |todo|
    {
      var id :| id in todo;
      todo := todo - {id};
      var lease := leases[id];
      if lease.state == Active && lease.inFlight == 0 {
        var reason := "";
        if lease.disconnect.Some? && now >= lease.disconnect.value {
          reason := "client_disconnected";
        } else if b.neverActive > 0 && !lease.everActive && now - lease.lastActivity >= b.neverActive {
          reason := "never_streamed";
        } else if b.idleTimeout > 0 && now - lease.lastActivity >= b.idleTimeout {
          reason := "idle_timeout";
        }
        assert reason == ExpiryReason(b, lease, now);
        if reason != "" {
          marked := marked[id := lease.(state := Expiring, reason := reason)];
          found := found + {id};
        }
      }
    }
  }

  class LeaseManager {
    const b: Bounds

    var nextToken: nat
    var reservations: set<nat>
    var leases: map<string, Lease>
    var closed: seq<Row>
    var closedOmitted: nat
    ghost var history: seq<Row>
    ghost var commits: nat

    ghost function View(): Table
      reads this
    {
      Table(b, nextToken, reservations, leases, closed, closedOmitted, history, commits)
    }

    constructor (maxSessions: int, idleTimeout: Duration, disconnectGrace: Duration)
      ensures View() == Empty(DeriveBounds(maxSessions, idleTimeout, disconnectGrace))
    {
      b := DeriveBounds(maxSessions, idleTimeout, disconnectGrace);
      nextToken, reservations, leases, closed, closedOmitted := 0, {}, map[], [], 0;
      history, commits := [], 0;
    }

    method Reserve() returns (token: Option<nat>)
      modifies this`nextToken, this`reservations
      ensures View() == LeaseTable.Reserve(old(View()))
      ensures token == if Full(old(View())) then None else Some(old(nextToken) + 1)
    {
      if b.maxSessions > 0 && |reservations| + |leases| >= b.maxSessions {
        return None;
      }
      nextToken := nextToken + 1;
      reservations := reservations + {nextToken};
      return Some(nextToken);
    }

    method Commit(token: nat, id: string, now: int) returns (err: CommitError)
      modifies this`reservations, this`leases, this`commits
      ensures View() == LeaseTable.Commit(old(View()), token, id, now)
      ensures err == CommitOutcome(old(View()), token, id)
    {
      if id == "" {
        return EmptyID;
      }
      if token !in reservations {
        return ReservationNotFound;
      }
      if id in leases {
        return LeaseExists;
      }
      reservations := reservations - {token};
      leases := leases[id := Lease(Active, now, now, 0, 0, false, None, None, "initialized")];
      commits := commits + 1;
      return NoError;
    }

    method ReleaseReservation(token: nat)
      modifies this`reservations
      ensures View() == Release(old(View()), token)
    {
      reservations := reservations - {token};
    }

    method BeginRequest(id: string, applicationActivity: bool, now: int) returns (ok: bool)
      modifies this`leases
      ensures View() == LeaseTable.BeginRequest(old(View()), id, applicationActivity, now)
      ensures ok == IsActive(old(View()), id)
    {
      if id !in leases || leases[id].state != Active {
        return false;
      }
      var lease := leases[id];
      lease := lease.(inFlight := lease.inFlight + 1);
      if applicationActivity {
        lease := lease.(everActive := true, lastActivity := now);
        if lease.disconnect.Some? {
          lease := lease.(disconnect := Some(now + b.disconnectGrace));
        }
      }
      leases := leases[id := lease];
      return true;
    }

    // What the guard BeginRequest returned does when it is first called.
    method CompleteRequest(id: string, applicationActivity: bool, now: int)
      modifies this`leases
      ensures View() == EndRequest(old(View()), id, applicationActivity, now)
    {
      if id !in leases || leases[id].inFlight == 0 {
        return;
      }
      var current := leases[id];
      current := current.(inFlight := current.inFlight - 1);
      if applicationActivity {
        current := current.(lastActivity := now);
        if current.disconnect.Some? {
          current := current.(disconnect := Some(now + b.disconnectGrace));
        }
      }
      leases := leases[id := current];
    }

    method BeginSSE(id: string) returns (ok: bool)
      modifies this`leases
      ensures View() == LeaseTable.BeginSSE(old(View()), id)
      ensures ok == IsActive(old(View()), id)
    {
      if id !in leases || leases[id].state != Active {
        return false;
      }
      leases := leases[id := leases[id].(sse := leases[id].sse + 1, disconnect := None)];
      return true;
    }

    method EndSSE(id: string, now: int)
      modifies this`leases
      ensures View() == LeaseTable.EndSSE(old(View()), id, now)
    {
      if id in leases && leases[id].sse > 0 {
        var lease := leases[id].(sse := leases[id].sse - 1);
        if lease.sse == 0 && b.disconnectGrace > 0 {
          lease := lease.(disconnect := Some(now + b.disconnectGrace));
        }
        leases := leases[id := lease];
      }
    }

    // Exactly the eligible leases become expiring, and exactly those are returned, each with
    // the reason of the first rule that applies, in ascending order of their identifiers.
    method ExpireEligible(now: int) returns (expired: seq<ExpiredLease>)
      modifies this`leases
      ensures View() == LeaseTable.ExpireEligible(old(View()), now)
      ensures Ascending(IDs(expired))
      ensures forall e: ExpiredLease :: e in expired <==>
                e.sessionID in old(leases) && e.reason != "" && e.reason == ExpiryReason(b, old(leases)[e.sessionID], now)
    {
      ghost var before := leases;
      var found: set<string>;
      leases, found := MarkEligible(b, leases, now);
      var order := Sort(found);
      expired := [];
      for i := 0 to |order|
        invariant |expired| == i
        invariant forall k :: 0 <= k < i ==>
                    order[k] in found && expired[k] == ExpiredLease(order[k], ExpiryReason(b, before[order[k]], now))
      {
        assert order[i] in found;
        expired := expired + [ExpiredLease(order[i], leases[order[i]].reason)];
      }
      assert IDs(expired) == order;
      forall e: ExpiredLease | e.sessionID in before && e.reason != "" && e.reason == ExpiryReason(b, before[e.sessionID], now)
        ensures e in expired
      {
        assert e.sessionID in order;
        var i :| 0 <= i < |order| && order[i] == e.sessionID;
        assert expired[i] == e;
      }
    }

    method TryBeginExpiry(id: string, reason: string) returns (ok: bool)
      modifies this`leases
      ensures View() == LeaseTable.TryBeginExpiry(old(View()), id, reason)
      ensures ok == Claimable(old(View()), id)
    {
      if id !in leases || leases[id].state != Active || leases[id].inFlight != 0 {
        return false;
      }
      leases := leases[id := leases[id].(state := Expiring, reason := reason)];
      return true;
    }

    method MarkCleanupUncertain(id: string, reason: string, now: int) returns (ok: bool)
      modifies this`leases
      ensures View() == LeaseTable.MarkCleanupUncertain(old(View()), id, reason, now)
      ensures ok == (id in old(leases))
    {
      if id !in leases {
        return false;
      }
      var lease := leases[id].(state := CleanupUncertain, reason := reason);
      leases := leases[id := lease.(cleanup := Some(now + b.cleanupUncertain))];
      return true;
    }

    method RestoreActive(id: string) returns (ok: bool)
      modifies this`leases
      ensures View() == LeaseTable.RestoreActive(old(View()), id)
      ensures ok == (id in old(leases) && old(leases)[id].state == Expiring)
    {
      if id !in leases || leases[id].state != Expiring {
        return false;
      }
      leases := leases[id := leases[id].(state := Active, reason := "")];
      return true;
    }

    method RecordClosedLocked(id: string, lease: Lease, reason: string, now: int)
      modifies this`closed, this`closedOmitted, this`history
      ensures View() == RecordRow(old(View()), RowOf(id, lease, reason, now))
    {
      var row := Row(id, now - lease.createdAt, now - lease.lastActivity, lease.inFlight, lease.sse,
                     if reason == "" then "closed" else reason);
      history := history + [row];
      if |closed| == MAX_CLOSED {
        closed := closed[1..] + [row];
        closedOmitted := closedOmitted + 1;
        return;
      }
      closed := closed + [row];
    }

    method FinalizeClose(id: string, now: int) returns (ok: bool)
      modifies this`leases, this`closed, this`closedOmitted, this`history
      ensures View() == LeaseTable.FinalizeClose(old(View()), id, now)
      ensures ok == (id in old(leases))
    {
      if id !in leases {
        return false;
      }
      CloseLocked(id, now);
      return true;
    }

    method CloseLocked(id: string, now: int)
      requires id in leases
      modifies this`leases, this`closed, this`closedOmitted, this`history
      ensures View() == LeaseTable.FinalizeClose(old(View()), id, now)
      ensures leases == old(leases) - {id}
    {
      RecordClosedLocked(id, leases[id], leases[id].reason, now);
      leases := leases - {id};
    }

    // Every quarantine that is over is closed, in the order `visited` in which the map
    // happened to be iterated; the list comes back sorted, with the reasons of the quarantines.
    method ExpireCleanupUncertain(now: int) returns (released: seq<ExpiredLease>, ghost visited: seq<string>)
      modifies this`leases, this`closed, this`closedOmitted, this`history
      ensures Lists(visited, Overdue(old(View()), now))
      ensures View() == FinalizeEach(old(View()), visited, now)
      ensures Ascending(IDs(released)) && |released| == |visited|
      ensures forall e: ExpiredLease :: e in released <==>
                e.sessionID in Overdue(old(View()), now) && e.reason == old(leases)[e.sessionID].reason
    {
      hide FinalizeEach, Lists, Ascending, IDs;
      var reasons;
      reasons, visited := CloseOverdue(now);
      ListsSize(visited, reasons.Keys);
      assert |reasons| == |reasons.Keys|;
      released := Sorted(reasons);
    }

    method CloseOverdue(now: int) returns (reasons: map<string, string>, ghost visited: seq<string>)
      modifies this`leases, this`closed, this`closedOmitted, this`history
      ensures Lists(visited, Overdue(old(View()), now)) && reasons.Keys == Overdue(old(View()), now)
      ensures View() == FinalizeEach(old(View()), visited, now)
      ensures forall id <- reasons :: reasons[id] == old(leases)[id].reason
    {
      hide FinalizeEach, LeaseTable.FinalizeClose, Lists;
      ListsNone();
      ghost var before := View();
      FinalizeNone(before, now);
      var todo := leases.Keys;
      reasons, visited := map[], [];
      assert reasons.Keys == {};
      while todo != {}
        invariant todo <= before.leases.Keys && View() == FinalizeEach(before, visited, now)
        invariant Lists(visited, reasons.Keys)
        invariant forall id :: id in leases <==> id in before.leases && id !in reasons
        invariant forall id <- leases :: leases[id] == before.leases[id]
        invariant forall id :: id in reasons <==> id in before.leases && id !in todo && QuarantineOver(before.leases[id], now)
        invariant forall id <- reasons :: reasons[id] == before.leases[id].reason
        decreases |todo|
      {
        var id :| id in todo;
        todo := todo - {id};
        if leases[id].state == CleanupUncertain && (leases[id].cleanup.Some? ==> now >= leases[id].cleanup.value) {
          FinalizeAppend(before, visited, id, now);
          ListsAppend(visited, reasons.Keys, id);
          assert reasons[id := leases[id].reason].Keys == reasons.Keys + {id};
          reasons := reasons[id := leases[id].reason];
          CloseLocked(id, now);
          visited := visited + [id];
        }
      }
      assert reasons.Keys == Overdue(before, now);
    }

    method InvalidateAll(closeReason: string, now: int) returns (closedCount: nat, ghost order: seq<string>)
      modifies this`reservations, this`leases, this`closed, this`closedOmitted, this`history
      ensures Ascending(order) && Lists(order, old(leases).Keys)
      ensures View() == LeaseTable.InvalidateAll(old(View()), order, if closeReason == "" then "backend_lost" else closeReason, now)
      ensures closedCount == |old(leases)|
    {
      ghost var before := View();
      var reason := if closeReason == "" then "backend_lost" else closeReason;
      var ids := Sort(leases.Keys);
      order := ids;
      AscendingDistinct(ids);
      var i := 0;
      while i < |ids|
        invariant 0 <= i <= |ids| && leases == before.leases && reservations == before.reservations
        invariant b == before.b && nextToken == before.nextToken && commits == before.commits
        invariant RecordEach(before, ids, reason, now) == RecordEach(View(), ids[i..], reason, now)
      {
        RecordClosedLocked(ids[i], leases[ids[i]], reason, now);
        i := i + 1;
      }
      closedCount := |leases|;
      reservations := {};
      leases := map[];
    }
  }

  lemma AscendingDistinct(ids: seq<string>)
    requires Ascending(ids)
    ensures forall i, j :: 0 <= i < j < |ids| ==> ids[i] != ids[j]
  {
    forall i, j | 0 <= i < j < |ids| ensures ids[i] != ids[j] {
      LessIrreflexive(ids[i]);
    }
  }

  lemma ListsNone()
    ensures Lists([], {})
  {
  }

  lemma ListsAppend(order: seq<string>, ids: set<string>, id: string)
    requires Lists(order, ids) && id !in ids
    ensures Lists(order + [id], ids + {id})
  {
    forall i | 0 <= i < |order| ensures order[i] != id {
      assert order[i] in order;
    }
  }

  lemma FinalizeNone(t: Table, now: int)
    ensures FinalizeEach(t, [], now) == t
  {
  }

  lemma {:induction false} FinalizeAppend(t: Table, order: seq<string>, id: string, now: int)
    ensures FinalizeEach(t, order + [id], now) == LeaseTable.FinalizeClose(FinalizeEach(t, order, now), id, now)
    decreases |order|
  {
    if order == [] {
      assert order + [id] == [id];
    } else {
      assert (order + [id])[1..] == order[1..] + [id];
      FinalizeAppend(LeaseTable.FinalizeClose(t, order[0], now), order[1..], id, now);
    }
  }
}

/**
 ManagedHTTPGateway of internal/mcp/managed_gateway.go over its LeaseManager. `View` is the
 state of the machine in module GatewayMachine. What the backend answers is a parameter.
*/
module ManagedGatewayClass {
  import opened Wrappers
  import opened LeaseTable
  import opened GatewayMachine
  import opened GatewayProofs
  import opened SortedIds
  import L = LeaseManagerClass

  predicate IsSuccessfulStatus(status: int) { 200 <= status < 300 }

  // What becomes of one cleanup request.
  datatype CleanupAnswer = BadRequest | GateClosed | TransportError | Status(code: int)

  predicate ProvesDisposal(a: CleanupAnswer) { a.Status? && (IsSuccessfulStatus(a.code) || a.code == 404) }

  function CleanOne(s: State, id: string, a: CleanupAnswer): State {
    match a
    case BadRequest => JobInvalid(s, id)
    case GateClosed => JobRefused(s, id)
    case TransportError => JobUncertain(JobDispatch(s, id), id, "cleanup_result_ambiguous")
    case Status(_) =>
      if ProvesDisposal(a) then JobProved(JobDispatch(s, id), id)
      else JobUncertain(JobDispatch(s, id), id, "cleanup_rejected")
  }

  function CleanEach(s: State, order: seq<string>, answer: string -> CleanupAnswer): State
    decreases |order|
  {
    if order == [] then s else CleanEach(CleanOne(s, order[0], answer(order[0])), order[1..], answer)
  }

  lemma CleanOneKeeps(s: State, id: string, a: CleanupAnswer)
    requires Inv(s)
    ensures Inv(CleanOne(s, id, a))
  {
    hide Inv, MarkCleanupUncertain, LeaseTable.FinalizeClose;
    match a
    case BadRequest => StepKeeps(s, AJobInvalid(id));
    case GateClosed => StepKeeps(s, AJobRefused(id));
    case TransportError =>
      StepKeeps(s, AJobDispatch(id));
      StepKeeps(JobDispatch(s, id), AJobUncertain(id, "cleanup_result_ambiguous"));
    case Status(_) =>
      StepKeeps(s, AJobDispatch(id));
      StepKeeps(JobDispatch(s, id), AJobProved(id));
      StepKeeps(JobDispatch(s, id), AJobUncertain(id, "cleanup_rejected"));
  }

  // What cleaning one claimed lease leaves of it, and that it leaves the others alone.
  lemma CleanOneEffect(s: State, id: string, a: CleanupAnswer)
    requires HasJob(s, id, Claimed) && id in s.t.leases && s.t.leases[id].state == Expiring
    ensures var u := CleanOne(s, id, a);
            && (id in u.t.leases <==> !ProvesDisposal(a))
            && (id in u.t.leases ==> u.t.leases[id].state == if a.GateClosed? then Active else CleanupUncertain)
            && u.t.leases - {id} == s.t.leases - {id}
            && u.jobs == s.jobs - {id}
            && u.dispatched == (if a.TransportError? || a.Status? then s.dispatched + multiset{id} else s.dispatched)
            && u.gauge == (if ProvesDisposal(a) then s.gauge - 1 else s.gauge)
  {
  }

  function RuntimeOf(s: State): Runtime {
    Runtime(s.clock, s.owed, s.epoch, s.inits, s.posts, s.streams, s.jobs, s.dispatched, s.everIds, s.busyIds)
  }

  lemma GaugeAt(s: State)
    requires Inv(s)
    ensures s.gauge == |s.t.leases| + s.owed
  {
  }

  lemma QuarantinesGone(s: State, visited: seq<string>)
    requires Inv(s) && Lists(visited, Overdue(s.t, s.clock))
    ensures FinalizeEach(s.t, visited, s.clock).leases.Keys == s.t.leases.Keys - Overdue(s.t, s.clock)
  {
    FinalizeEachKeeps(s.t, visited, s.clock);
    assert Named(visited) == Overdue(s.t, s.clock);
  }

  lemma EligibleListed(expired: seq<L.ExpiredLease>, order: seq<string>, t: Table, now: int)
    requires order == L.IDs(expired)
    requires forall e: L.ExpiredLease :: e in expired <==>
               e.sessionID in t.leases && e.reason != "" && e.reason == ExpiryReason(t.b, t.leases[e.sessionID], now)
    ensures forall id :: id in order <==> id in Eligible(t, now)
  {
    forall id | id in order ensures id in Eligible(t, now) {
      var i :| 0 <= i < |order| && order[i] == id;
      assert expired[i] in expired;
    }
    forall id | id in Eligible(t, now) ensures id in order {
      var e := L.ExpiredLease(id, ExpiryReason(t.b, t.leases[id], now));
      assert e in expired;
      var i :| 0 <= i < |expired| && expired[i] == e;
      assert order[i] == id;
    }
  }

  lemma OtherJobsStay(s: State, id: string, a: CleanupAnswer)
    ensures forall other :: other != id && HasJob(s, other, Claimed) ==> HasJob(CleanOne(s, id, a), other, Claimed)
    ensures CleanOne(s, id, a).clock == s.clock
  {
  }

  // What pruning leaves of each lease it cleaned: gone if the backend proved its disposal,
  // active again if no request was sent, in quarantine otherwise; and at most one request.
  lemma {:induction false} CleanEachEffect(s: State, order: seq<string>, answer: string -> CleanupAnswer, id: string)
    requires Ascending(order)
    requires forall k <- order :: HasJob(s, k, Claimed) && k in s.t.leases && s.t.leases[k].state == Expiring
    ensures var u := CleanEach(s, order, answer);
            && (id !in order ==>
                  && (id in u.t.leases <==> id in s.t.leases)
                  && (id in s.t.leases ==> u.t.leases[id] == s.t.leases[id])
                  && u.dispatched[id] == s.dispatched[id])
            && (id in order ==>
                  && (id !in u.t.leases <==> answer(id).Status? && (200 <= answer(id).code < 300 || answer(id).code == 404))
                  && (id in u.t.leases ==> u.t.leases[id].state == if answer(id).GateClosed? then Active else CleanupUncertain)
                  && u.dispatched[id] == s.dispatched[id] + if answer(id).TransportError? || answer(id).Status? then 1 else 0)
    decreases |order|
  {
    if order != [] {
      var first := order[0];
      var u := CleanOne(s, first, answer(first));
      CleanOneEffect(s, first, answer(first));
      TailElements(order);
      assert id in order <==> id == first || id in order[1..];
      forall k <- order[1..] ensures HasJob(u, k, Claimed) && k in u.t.leases && u.t.leases[k].state == Expiring {
        OneKept(s, u, first, k);
      }
      OneKept(s, u, first, id);
      CleanEachEffect(u, order[1..], answer, id);
    }
  }

  lemma OneKept(s: State, u: State, first: string, k: string)
    requires u.t.leases - {first} == s.t.leases - {first} && u.jobs == s.jobs - {first}
    ensures k != first ==>
              && (k in u.t.leases <==> k in s.t.leases)
              && (k in s.t.leases ==> u.t.leases[k] == s.t.leases[k])
              && (k in u.jobs <==> k in s.jobs) && (k in s.jobs ==> u.jobs[k] == s.jobs[k])
  {
    if k != first {
      assert k in u.t.leases <==> k in u.t.leases - {first};
      assert k in s.t.leases <==> k in s.t.leases - {first};
      if k in s.t.leases {
        assert (u.t.leases - {first})[k] == (s.t.leases - {first})[k];
      }
    }
  }

  class ManagedHTTPGateway {
    const leases: L.LeaseManager
    var activeSessions: int
    ghost var rt: Runtime

    ghost function View(): State
      reads this, leases
    {
      State(rt.clock, leases.View(), activeSessions, rt.owed, rt.epoch, rt.inits, rt.posts, rt.streams,
            rt.jobs, rt.dispatched, rt.everIds, rt.busyIds)
    }

    ghost predicate Valid()
      reads this, leases
    {
      Inv(View())
    }

    constructor (maxSessions: int, idleTimeout: Duration, disconnectGrace: Duration)
      ensures Valid() && View() == Init(DeriveBounds(maxSessions, idleTimeout, disconnectGrace)) && fresh(leases)
    {
      leases := new L.LeaseManager(maxSessions, idleTimeout, disconnectGrace);
      activeSessions := 0;
      rt := Runtime(0, 0, 0, map[], multiset{}, multiset{}, map[], multiset{}, {}, {});
      new;
      ReachedKeeps(DeriveBounds(maxSessions, idleTimeout, disconnectGrace), []);
    }

    // reserveWithPrune around its prune.
    method Reserve() returns (token: Option<nat>)
      requires Valid()
      modifies this`rt, leases
      ensures Valid() && View() == InitReserve(old(View()))
      ensures token.None? <==> Full(old(View()).t)
      ensures token.Some? ==> Undecided(View(), token.value)
    {
      hide Inv;
      StepKeeps(View(), AInitReserve);
      token := leases.Reserve();
      if token.Some? {
        rt := rt.(inits := rt.inits[token.value := Initialize(rt.epoch, false)]);
      }
    }

    // observeResponse for an initialize.
    method ObserveInitialize(token: nat, status: int, id: string, now: int) returns (ok: bool)
      requires Valid() && Undecided(View(), token) && !Retired(View(), id) && now == rt.clock
      modifies this, leases
      ensures Valid()
      ensures View() == if 200 <= status < 300 then InitAnswered(old(View()), token, id) else InitRefused(old(View()), token)
      ensures ok <==> (200 <= status < 300 ==> CommitOutcome(old(View()).t, token, id) == NoError)
    {
      hide Inv;
      if !IsSuccessfulStatus(status) {
        StepKeeps(View(), AInitRefused(token));
        leases.ReleaseReservation(token);
        rt := rt.(inits := rt.inits - {token});
        return true;
      }
      StepKeeps(View(), AInitAnswered(token, id));
      var err := leases.Commit(token, id, now);
      if err != NoError {
        // The reverse proxy hands the error to observeProxyError.
        rt := rt.(inits := rt.inits[token := rt.inits[token].(ambiguous := true)]);
        return false;
      }
      activeSessions := activeSessions + 1;
      rt := rt.(inits := rt.inits - {token}, everIds := rt.everIds + {id});
      return true;
    }

    method FinalizeClose(id: string, now: int)
      requires Valid() && HasJob(View(), id, Dispatched) && now == rt.clock
      modifies this, leases
      ensures Valid() && View() == JobProved(old(View()), id)
    {
      hide Inv;
      StepKeeps(View(), AJobProved(id));
      rt := rt.(jobs := rt.jobs - {id});
      var ok := leases.FinalizeClose(id, now);
      if !ok {
        return;
      }
      activeSessions := activeSessions - 1;
    }

    // closeExpiredQuarantines, with nobody looking between the locks and the gauge: every
    // quarantine that is over ends, and the gauge drops by exactly that many.
    method CloseExpiredQuarantines(now: int) returns (ghost visited: seq<string>)
      requires Valid() && now == rt.clock
      modifies this, leases
      ensures Valid() && Lists(visited, Overdue(old(View()).t, now))
      ensures View() == old(View()).(t := FinalizeEach(old(View()).t, visited, now),
                                     gauge := old(activeSessions) - |Overdue(old(View()).t, now)|)
    {
      hide Inv;
      var closed;
      closed, visited := ReleaseOverdue(now);
      ListsSize(visited, Overdue(old(View()).t, now));
      SettleReleased(closed);
    }

    // The part inside lifecycleMu.
    method ReleaseOverdue(now: int) returns (closed: nat, ghost visited: seq<string>)
      requires Valid() && now == rt.clock
      modifies this`rt, leases
      ensures Valid() && View() == QuarantineClose(old(View()), visited)
      ensures Lists(visited, Overdue(old(View()).t, now)) && closed == |visited|
      ensures rt == old(rt).(owed := old(rt.owed) + closed)
    {
      hide Inv;
      var released;
      released, visited := leases.ExpireCleanupUncertain(now);
      StepKeeps(old(View()), AQuarantineClose(visited));
      closed := |released|;
      rt := rt.(owed := rt.owed + closed);
    }

    method SettleReleased(closed: nat)
      requires Valid() && closed <= rt.owed
      modifies this
      ensures Valid() && leases.View() == old(leases.View())
      ensures activeSessions == old(activeSessions) - closed && rt == old(rt).(owed := old(rt.owed) - closed)
    {
      hide Inv;
      for i := 0 to closed
        invariant Valid() && leases.View() == old(leases.View())
        invariant activeSessions == old(activeSessions) - i && rt == old(rt).(owed := old(rt.owed) - i)
      {
        StepKeeps(View(), AQuarantineSettle);
        activeSessions := activeSessions - 1;
        rt := rt.(owed := rt.owed - 1);
      }
    }

    // pruneIdle, undisturbed: overdue quarantines end first, then exactly the eligible leases
    // are cleaned up, one after the other, in ascending order.
    method PruneIdle(answer: string -> CleanupAnswer, now: int) returns (ghost released: State, ghost order: seq<string>)
      requires Valid() && now == rt.clock
      modifies this, leases
      ensures Valid() && released.t.leases.Keys == old(leases.leases).Keys - Overdue(old(View()).t, now)
      ensures Ascending(order) && forall id :: id in order <==> id in Eligible(released.t, now)
      ensures View() == CleanEach(PruneClaim(released), order, answer)
    {
      hide Inv, CleanEach;
      ghost var visited := CloseExpiredQuarantines(now);
      released := View();
      QuarantinesGone(old(View()), visited);
      var expired := ClaimEligible(now);
      order := L.IDs(expired);
      CleanAll(expired, answer, now);
    }

    method ClaimEligible(now: int) returns (expired: seq<L.ExpiredLease>)
      requires Valid() && now == rt.clock
      modifies this`rt, leases
      ensures Valid() && View() == PruneClaim(old(View())) && rt.clock == now
      ensures Ascending(L.IDs(expired))
      ensures forall id :: id in L.IDs(expired) <==> id in Eligible(old(View()).t, now)
      ensures forall e <- expired :: HasJob(View(), e.sessionID, Claimed)
    {
      hide Inv;
      ghost var s := View();
      expired := leases.ExpireEligible(now);
      StepKeeps(s, APruneClaim);
      rt := rt.(jobs := rt.jobs + map id | id in Eligible(s.t, now) :: Claimed);
      EligibleListed(expired, L.IDs(expired), s.t, now);
    }

    // pruneIdle's loop over what it claimed.
    method CleanAll(expired: seq<L.ExpiredLease>, answer: string -> CleanupAnswer, now: int)
      requires Valid() && now == rt.clock && Ascending(L.IDs(expired))
      requires forall e <- expired :: HasJob(View(), e.sessionID, Claimed)
      modifies this, leases
      ensures Valid() && View() == CleanEach(old(View()), L.IDs(expired), answer)
    {
      hide Inv, CleanOne, HasJob;
      ghost var order := L.IDs(expired);
      L.AscendingDistinct(order);
      var i := 0;
      while i < |expired|
        invariant 0 <= i <= |expired| && Valid() && rt.clock == now
        invariant forall k :: i <= k < |expired| ==> HasJob(View(), expired[k].sessionID, Claimed)
        invariant CleanEach(old(View()), order, answer) == CleanEach(View(), order[i..], answer)
      {
        OtherJobsStay(View(), order[i], answer(order[i]));
        forall k | i < k < |expired| ensures expired[k].sessionID != expired[i].sessionID {
          assert order[i] != order[k];
        }
        assert order[i..][0] == order[i] && order[i..][1..] == order[i + 1..];
        CleanUp(expired[i].sessionID, answer(expired[i].sessionID), now);
        i := i + 1;
      }
    }

    method InvalidateAll(reason: string, now: int)
      requires Valid() && now == rt.clock
      modifies this, leases
      ensures Valid() && leases.leases == map[] && leases.reservations == {}
      ensures activeSessions == rt.owed == old(rt.owed) && rt.epoch == old(rt.epoch) + 1
      ensures exists order ::
                && Lists(order, old(leases.leases).Keys)
                && View() == Invalidate(old(View()), order, if reason == "" then "backend_lost" else reason)
    {
      hide Inv;
      ghost var s := View();
      ghost var recorded := if reason == "" then "backend_lost" else reason;
      var closed, order := leases.InvalidateAll(reason, now);
      StepKeeps(s, AInvalidate(order, recorded));
      rt := rt.(epoch := rt.epoch + 1);
      for i := 0 to closed
        invariant rt == RuntimeOf(s).(epoch := s.epoch + 1) && leases.View() == Invalidate(s, order, recorded).t
        invariant activeSessions == s.gauge - i
      {
        activeSessions := activeSessions - 1;
      }
      GaugeAt(View());
    }

    // One turn of pruneIdle's loop.
    method CleanUp(id: string, a: CleanupAnswer, now: int)
      requires Valid() && HasJob(View(), id, Claimed) && now == rt.clock
      modifies this, leases
      ensures Valid() && View() == CleanOne(old(View()), id, a) && rt.clock == old(rt.clock)
    {
      hide Inv;
      CleanOneKeeps(View(), id, a);
      match a
      case BadRequest =>
        var _ := leases.MarkCleanupUncertain(id, "cleanup_request_invalid", now);
        rt := rt.(jobs := rt.jobs - {id});
      case GateClosed =>
        var _ := leases.RestoreActive(id);
        rt := rt.(jobs := rt.jobs - {id});
      case TransportError =>
        rt := rt.(dispatched := rt.dispatched + multiset{id});
        var _ := leases.MarkCleanupUncertain(id, "cleanup_result_ambiguous", now);
        rt := rt.(jobs := rt.jobs[id := Dispatched] - {id});
      case Status(code) =>
        StepKeeps(View(), AJobDispatch(id));
        rt := rt.(dispatched := rt.dispatched + multiset{id}, jobs := rt.jobs[id := Dispatched]);
        if IsSuccessfulStatus(code) || code == 404 {
          FinalizeClose(id, now);
        } else {
          var _ := leases.MarkCleanupUncertain(id, "cleanup_rejected", now);
          rt := rt.(jobs := rt.jobs - {id});
        }
    }
  }

  datatype Runtime = Runtime(
    clock: int, owed: nat, epoch: nat, inits: map<nat, Initialize>, posts: multiset<Guard>,
    streams: multiset<string>, jobs: map<string, Job>, dispatched: multiset<string>, everIds: set<string>,
    busyIds: set<string>)
}

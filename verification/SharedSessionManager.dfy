/**
 SharedSessionManager with its fields, one method per lock section of
 internal/session/shared.go. `View` is the state of the machine in module SharedSession;
 each method's contract is the machine's step, and the bodies are the code's own statements.
*/
module SharedSessionClass {
  import opened Wrappers
  import opened SharedSession
  import opened SharedSessionProofs

  // What surrounds the fields: goroutines, processes, channels, timers and fresh handles.
  datatype Runtime = Runtime(
    boot: Boot, results: map<nat, bool>, shutdown: Shutdown, open: set<nat>, threads: map<nat, Pc>,
    dead: set<nat>, doneClosed: set<nat>, closings: multiset<nat>, pending: set<nat>, fired: set<nat>,
    nextStartup: nat, nextTimer: nat, nextDs: nat, nextChan: nat, nextRec: nat)

  // The part of the invariant the code relies on when it follows a pointer.
  lemma RecordsTracked(s: State)
    requires Inv(s)
    ensures s.tab.upstream == s.tab.sessions.Keys
    ensures forall id :: id in s.tab.sessions ==> s.tab.sessions[id] in s.tab.recs
    ensures forall i, j :: i in s.tab.sessions && j in s.tab.sessions && s.tab.sessions[i] == s.tab.sessions[j] ==> i == j
    ensures forall t :: t in s.threads && !s.threads[t].Probing? ==> s.threads[t].rec in s.tab.recs
    ensures s.p.starting.None? <==> s.p.boot.NoBoot?
  {}

  predicate Stale(timeout: int, r: Rec, now: int) {
    !r.expiring && r.inFlight == 0 && now - r.lastActivity > timeout
  }

  // The loop of reapExpiredSessions over the session map, in whatever order it is iterated:
  // exactly the stale records of tracked sessions are marked, and exactly those are listed.
  method MarkLoop(timeout: int, sessions: map<string, nat>, recs: map<nat, Rec>, now: int)
    returns (marked: map<nat, Rec>, expired: set<string>)
    requires forall id :: id in sessions ==> sessions[id] in recs
    requires forall i, j :: i in sessions && j in sessions && sessions[i] == sessions[j] ==> i == j
    ensures marked.Keys == recs.Keys
    ensures forall h :: h in recs ==>
      marked[h] == if h in sessions.Values && Stale(timeout, recs[h], now) then recs[h].(expiring := true) else recs[h]
    ensures forall id :: id in expired <==> (id in sessions && Stale(timeout, recs[sessions[id]], now))
  {
    marked, expired := recs, {};
    ghost var done: set<nat> := {};
    var todo := sessions.Keys;
    while todo != {}
      invariant todo <= sessions.Keys && marked.Keys == recs.Keys && done <= sessions.Values
      invariant forall id :: id in sessions ==> (sessions[id] in done <==> id !in todo)
      invariant forall h :: h in recs ==>
        marked[h] == if h in done && Stale(timeout, recs[h], now) then recs[h].(expiring := true) else recs[h]
      invariant forall id :: id in expired <==>
        (id in sessions && id !in todo && Stale(timeout, recs[sessions[id]], now))
      decreases |todo|
    {
      var id :| id in todo;
      todo := todo - {id};
      var h := sessions[id];
      var r := marked[h];
      if !r.expiring && r.inFlight == 0 && now - r.lastActivity > timeout {
        marked := marked[h := r.(expiring := true)];
        expired := expired + {id};
      }
      done := done + {h};
    }
  }

  class SharedSessionManager {
    const cfg: Config

    // guarded by mu
    var downstream: Option<nat>
    var spawnErr: bool
    var closed: bool
    var starting: Option<nat>
    var healthCheckFailures: int

    // guarded by refMu
    var refCount: int
    var activeRequests: int
    var requestsDrained: Option<nat>
    var upstreamSessions: set<string>
    var sessions: map<string, nat>
    var records: map<nat, Rec>
    var idleTimer: Option<nat>

    var rt: Runtime

    ghost function View(): State
      reads this
    {
      State(cfg,
            Proc(downstream, spawnErr, closed, starting, healthCheckFailures,
                 rt.boot, rt.results, rt.shutdown, rt.open, rt.nextStartup, rt.nextDs),
            Table(refCount, upstreamSessions, sessions, records, rt.nextRec),
            Flow(activeRequests, requestsDrained, rt.closings, rt.nextChan),
            Timers(idleTimer, rt.pending, rt.fired, rt.nextTimer),
            rt.dead, rt.doneClosed, rt.threads)
    }

    ghost predicate Valid()
      reads this
    {
      Inv(View())
    }

    constructor (cfg: Config)
      ensures Valid() && View() == Init(cfg)
    {
      this.cfg := cfg;
      downstream, spawnErr, closed, starting, healthCheckFailures := None, false, false, None, 0;
      refCount, activeRequests, requestsDrained, upstreamSessions, sessions := 0, 0, None, {}, map[];
      records, idleTimer := map[], None;
      rt := Runtime(NoBoot, map[], NotBegun, {}, map[], {}, {}, multiset{}, {}, {}, 0, 0, 0, 0, 0);
      new;
      InitKeeps(cfg);
    }

    method ArmIdleTimerLocked()
      modifies this`idleTimer, this`rt
      ensures View() == old(View()).(tm := Arm(cfg, closed, refCount, old(View()).tm))
    {
      if refCount == 0 && cfg.idleTimeout > 0 && !closed {
        if idleTimer.Some? {
          rt := rt.(pending := rt.pending - {idleTimer.value});
        }
        idleTimer := Some(rt.nextTimer);
        rt := rt.(pending := rt.pending + {rt.nextTimer}, nextTimer := rt.nextTimer + 1);
      }
    }

    method StartDownstreamLocked(drain: Option<nat>)
      modifies this`starting, this`healthCheckFailures, this`rt
      ensures View() == old(View()).(p := Reserve(old(View()).p, drain))
    {
      rt := rt.(boot := Draining(downstream, drain));
      starting := Some(rt.nextStartup);
      rt := rt.(nextStartup := rt.nextStartup + 1);
      healthCheckFailures := 0;
    }

    // The first section of GetOrCreateSession.
    method BeginAdmission(t: nat, id: string, now: int) returns (admitted: bool)
      requires Valid() && t !in rt.threads
      modifies this
      ensures Valid() && View() == Admit(old(View()), t, id, now)
      ensures admitted <==> t in rt.threads
      ensures !admitted ==>
        old(closed) || (id !in old(upstreamSessions) && 0 < cfg.maxSessions <= old(refCount))
    {
      hide Inv;
      AdmitKeeps(View(), t, id, now);
      RecordsTracked(View());
      if closed {
        return false;
      }
      if id !in upstreamSessions && cfg.maxSessions > 0 && refCount >= cfg.maxSessions {
        return false;
      }
      TrackSession(id, now);
      var tracked := sessions[id];
      records := records[tracked := records[tracked].(pending := records[tracked].pending + 1)];
      rt := rt.(pending := rt.pending - Elements(idleTimer));
      idleTimer := None;
      rt := rt.(threads := rt.threads[t := WantDownstream(id, tracked)]);
      return true;
    }

    method TrackSession(id: string, now: int)
      requires upstreamSessions == sessions.Keys
      requires id in sessions ==> sessions[id] in records
      modifies this`upstreamSessions, this`sessions, this`records, this`refCount, this`rt
      ensures View() == old(View()).(tab := Track(old(View()).tab, id, now))
      ensures id in sessions && sessions[id] in records
    {
      if id !in upstreamSessions {
        upstreamSessions := upstreamSessions + {id};
        sessions := sessions[id := rt.nextRec];
        records := records[rt.nextRec := Rec(now, 0, false, 0, false)];
        refCount := refCount + 1;
        rt := rt.(nextRec := rt.nextRec + 1);
      }
    }

    // The locked section of getOrCreateDownstream.
    method GetOrCreateDownstream() returns (r: Ready)
      modifies this`starting, this`healthCheckFailures, this`rt
      ensures View() == old(View()).(p := GetDownstream(old(View()).p, DoneSeen(old(View()))).0)
      ensures r == GetDownstream(old(View()).p, DoneSeen(old(View()))).1
      ensures rt.threads == old(rt.threads)
    {
      if closed {
        return Refused;
      }
      if starting.None? && downstream.Some? && downstream.value !in rt.doneClosed {
        return Got(downstream.value);
      }
      if starting.None? {
        StartDownstreamLocked(None);
      }
      return Await(starting.value);
    }

    method AdmissionDownstream(t: nat)
      requires Valid() && t in rt.threads && rt.threads[t].WantDownstream?
      modifies this
      ensures Valid() && View() == AdmitEnsure(old(View()), t)
    {
      hide Inv;
      AdmitEnsureKeeps(View(), t);
      var WantDownstream(id, tracked) := rt.threads[t];
      var r := GetOrCreateDownstream();
      var next := match r
        case Refused => Decided(id, tracked, false)
        case Got(_) => Decided(id, tracked, true)
        case Await(k) => AwaitStartup(id, tracked, k);
      rt := rt.(threads := rt.threads[t := next]);
    }

    // The last section of GetOrCreateSession.
    method EndAdmission(t: nat, now: int)
      requires Valid() && t in rt.threads && rt.threads[t].Decided?
      modifies this
      ensures Valid() && View() == AdmitTail(old(View()), t, now)
    {
      hide Inv;
      AdmitTailKeeps(View(), t, now);
      RecordsTracked(View());
      var Decided(id, h, ok) := rt.threads[t];
      rt := rt.(threads := rt.threads - {t});
      if id in sessions && sessions[id] == h {
        var tracked := records[h].(pending := records[h].pending - 1);
        if ok {
          tracked := tracked.(admitted := true, lastActivity := now);
        }
        records := records[h := tracked];
        if !ok && !tracked.admitted && tracked.pending == 0 {
          upstreamSessions := upstreamSessions - {id};
          sessions := sessions - {id};
          refCount := refCount - 1;
          ArmIdleTimerLocked();
        }
      }
    }

    method RemoveSession(id: string) returns (found: bool)
      requires Valid()
      modifies this
      ensures Valid() && View() == SharedSession.RemoveSession(old(View()), id)
      ensures found <==> id in old(upstreamSessions)
    {
      hide Inv;
      RemoveSessionKeeps(View(), id);
      if id !in upstreamSessions {
        return false;
      }
      upstreamSessions := upstreamSessions - {id};
      sessions := sessions - {id};
      refCount := refCount - 1;
      ArmIdleTimerLocked();
      return true;
    }

    // The first section of BeginRequest.
    method EnterRequest(t: nat, id: string) returns (entered: bool)
      requires Valid() && t !in rt.threads
      modifies this
      ensures Valid() && View() == BeginRequest(old(View()), t, id)
      ensures entered <==> t in rt.threads
    {
      hide Inv;
      BeginRequestKeeps(View(), t, id);
      RecordsTracked(View());
      if closed {
        return false;
      }
      if id !in sessions || records[sessions[id]].expiring {
        return false;
      }
      var tracked := sessions[id];
      records := records[tracked := records[tracked].(inFlight := records[tracked].inFlight + 1)];
      rt := rt.(threads := rt.threads[t := RequestLoop(id, tracked)]);
      return true;
    }

    // One pass of BeginRequest's readiness loop, and the admission that ends it.
    method ReadyRequest(t: nat, cancelled: bool) returns (dispatched: bool)
      requires Valid() && t in rt.threads && rt.threads[t].RequestLoop?
      modifies this
      ensures Valid() && View() == RequestPass(old(View()), t, cancelled)
      ensures dispatched <==> rt.threads[t].Serving?
      ensures dispatched ==> !closed && starting.None? && !spawnErr
      ensures dispatched && downstream.Some? ==> downstream.value !in rt.doneClosed
    {
      hide Inv;
      RequestPassKeeps(View(), t, cancelled);
      RecordsTracked(View());
      var RequestLoop(id, h) := rt.threads[t];
      var next := RequestRefused(h);
      if closed || cancelled {
      } else if starting.Some? {
        next := RequestAwait(id, h, starting.value);
      } else if spawnErr || (downstream.Some? && downstream.value in rt.doneClosed) {
        next := RequestEnsure(id, h);
      } else if id in sessions && sessions[id] == h && !records[h].expiring {
        activeRequests := activeRequests + 1;
        next := Serving(h);
      }
      rt := rt.(threads := rt.threads[t := next]);
      dispatched := next.Serving?;
    }

    // The release function BeginRequest returns; a goroutine holds it until it runs once.
    method ReleaseRequest(t: nat)
      requires Valid() && t in rt.threads && (rt.threads[t].RequestRefused? || rt.threads[t].Serving?)
      modifies this
      ensures Valid() && View() == Release(old(View()), t)
    {
      hide Inv;
      ReleaseKeeps(View(), t);
      RecordsTracked(View());
      var h := rt.threads[t].rec;
      records := records[h := records[h].(inFlight := records[h].inFlight - 1)];
      if rt.threads[t].Serving? {
        activeRequests := activeRequests - 1;
        if activeRequests == 0 && requestsDrained.Some? {
          rt := rt.(closings := rt.closings + multiset{requestsDrained.value});
          requestsDrained := None;
        }
      }
      rt := rt.(threads := rt.threads - {t});
    }

    // The marking section of reapExpiredSessions.
    method MarkExpiredSessions(now: int) returns (expired: set<string>)
      requires Valid()
      modifies this`records
      ensures Valid() && View() == MarkExpired(old(View()), now)
      ensures forall id :: id in expired <==>
                id in sessions && sessions[id] in old(records) && !old(records)[sessions[id]].expiring
                && records[sessions[id]].expiring
    {
      hide Inv;
      MarkExpiredKeeps(View(), now);
      RecordsTracked(View());
      ghost var tab := View().tab;
      records, expired := MarkLoop(cfg.sessionTimeout, sessions, records, now);
      assert records == MarkExpired(old(View()), now).tab.recs;
    }

    // The idle timer callback. Close runs under both locks.
    method ReapDownstream(timer: nat)
      requires Valid() && timer in rt.fired
      modifies this
      ensures Valid() && View() == IdleCallback(old(View()), timer)
    {
      hide Inv;
      IdleCallbackKeeps(View(), timer);
      rt := rt.(fired := rt.fired - {timer});
      if refCount != 0 || closed {
        return;
      }
      if starting.Some? || activeRequests != 0 {
        ArmIdleTimerLocked();
        return;
      }
      rt := rt.(pending := rt.pending - Elements(idleTimer));
      idleTimer := None;
      spawnErr := false;
      if downstream.None? {
        return;
      }
      rt := rt.(open := rt.open - {downstream.value}, dead := rt.dead + {downstream.value});
      downstream := None;
    }

    // The section of healthCheck after ListTools returned verdict v.
    method JudgeHealth(t: nat, v: Verdict)
      requires Valid() && t in rt.threads && rt.threads[t].Probing?
      requires v.ConnectionClosed? ==> rt.threads[t].ds in rt.dead
      modifies this
      ensures Valid() && View() == HealthVerdict(old(View()), t, v)
    {
      hide Inv;
      HealthVerdictKeeps(View(), t, v);
      var ds := rt.threads[t].ds;
      rt := rt.(threads := rt.threads - {t});
      if closed || downstream != Some(ds) || starting.Some? {
        return;
      }
      if v.Healthy? {
        healthCheckFailures := 0;
        return;
      }
      healthCheckFailures := healthCheckFailures + 1;
      var transportClosed := ds in rt.doneClosed || v.ConnectionClosed?;
      if !transportClosed && healthCheckFailures < MAX_CONSECUTIVE_TIMEOUTS {
        return;
      }
      var drain: Option<nat> := None;
      if !transportClosed && activeRequests != 0 {
        if requestsDrained.None? {
          requestsDrained := Some(rt.nextChan);
          rt := rt.(nextChan := rt.nextChan + 1);
        }
        drain := requestsDrained;
      }
      StartDownstreamLocked(drain);
    }

    // The startup goroutine: the detach section, reached when the drain select returns.
    method DetachForStartup()
      requires Valid() && rt.boot.Draining?
      requires rt.boot.drain.None? || rt.boot.drain.value in rt.closings || closed
               || (rt.boot.prior.Some? && rt.boot.prior.value in rt.doneClosed)
      modifies this
      ensures Valid() && View() == BootDetach(old(View()))
    {
      hide Inv;
      BootDetachKeeps(View());
      downstream := None;
      rt := rt.(boot := Closing(rt.boot.prior));
    }

    // Its publication section, after Connect returned.
    method PublishStartup()
      requires Valid() && (rt.boot.Connected? || rt.boot.ConnectFailed?)
      modifies this
      ensures Valid() && View() == Step(old(View()), ABootPublish)
    {
      hide Inv;
      StepKeeps(View(), ABootPublish);
      if rt.boot.Connected? {
        if closed {
          rt := rt.(boot := Discarding(rt.boot.ds));
        } else {
          downstream := Some(rt.boot.ds);
          spawnErr := false;
          rt := rt.(boot := Published(rt.boot.ds));
        }
      } else {
        if !closed {
          spawnErr := true;
        }
        rt := rt.(boot := Failing);
      }
    }

    // Its final section.
    method FinishStartup()
      requires Valid() && (rt.boot.Published? || rt.boot.Failing?)
      modifies this
      ensures Valid() && View() == BootFinish(old(View()))
    {
      hide Inv;
      BootFinishKeeps(View());
      RecordsTracked(View());
      rt := rt.(results := rt.results[starting.value := rt.boot.Published? && !closed]);
      starting := None;
      rt := rt.(boot := NoBoot);
      ArmIdleTimerLocked();
    }

    // CloseAll's locked section. The process and the startup it takes along are closed and
    // awaited afterwards, outside the locks.
    method CloseAllLocked()
      requires Valid()
      modifies this
      ensures Valid() && View() == CloseAll(old(View()))
    {
      hide Inv;
      CloseAllKeeps(View());
      if closed {
        return;
      }
      closed := true;
      rt := rt.(pending := rt.pending - Elements(idleTimer));
      idleTimer := None;
      upstreamSessions := {};
      sessions := map[];
      refCount := 0;
      rt := rt.(shutdown := ClosingProcess(downstream, starting));
      downstream := None;
      spawnErr := false;
    }
  }
}

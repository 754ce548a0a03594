/**
 The shared-subprocess session manager (internal/session/shared.go) as a state machine.

 One action is one lock section, one environment event, or one piece of work done outside
 the locks. `Step` is total: an action whose guard fails leaves the state as it is, so a
 run is any sequence of actions whatever. Pointers are handles (natural numbers).
*/
module SharedSession {
  import opened Wrappers

  // One upstream session record. The counters are the ones the code keeps.
  datatype Rec = Rec(lastActivity: int, inFlight: int, expiring: bool, pending: int, admitted: bool)

  // Where the startup goroutine is. It exists exactly while a startup is reserved.
  datatype Boot =
    | NoBoot
    | Draining(prior: Option<nat>, drain: Option<nat>)
    | Closing(prior: Option<nat>)   // detached; the prior process is to be closed
    | Connecting                    // the prior process is closed; the context is to be checked
    | Dialing                       // the context was alive; Connect is running
    | Connected(ds: nat)
    | ConnectFailed
    | Discarding(ds: nat)           // shutdown seen: the new process is to be closed
    | Published(ds: nat)            // subscribers are being notified
    | Failing                       // the final section is to report an error

  // Where the first CloseAll is.
  datatype Shutdown =
    | NotBegun
    | ClosingProcess(ds: Option<nat>, startup: Option<nat>)
    | AwaitingStartup(startup: Option<nat>)
    | Returned

  // Where one caller's goroutine is.
  datatype Pc =
    | WantDownstream(id: string, rec: nat)
    | AwaitStartup(id: string, rec: nat, startup: nat)
    | Decided(id: string, rec: nat, ok: bool)
    | RequestLoop(id: string, rec: nat)
    | RequestEnsure(id: string, rec: nat)
    | RequestAwait(id: string, rec: nat, startup: nat)
    | RequestRefused(rec: nat)      // the deferred release is to run
    | Serving(rec: nat)             // dispatched; the release function is held
    | Probing(ds: nat)

  datatype Config = Config(maxSessions: int, idleTimeout: int, sessionTimeout: int)

  datatype Verdict = Healthy | ProbeFailed | ConnectionClosed

  datatype Ready = Refused | Got(ds: nat) | Await(startup: nat)

  const MAX_CONSECUTIVE_TIMEOUTS: int := 3

  // Guarded by mu: the process, and the startup that replaces it. `open` is ghost history:
  // the processes spawned and not yet closed by the manager.
  datatype Proc = Proc(
    downstream: Option<nat>, spawnErr: bool, closed: bool, starting: Option<nat>, failures: int,
    boot: Boot, results: map<nat, bool>, shutdown: Shutdown, open: set<nat>, nextStartup: nat, nextDs: nat)

  // Guarded by refMu: the upstream sessions.
  datatype Table = Table(
    refCount: int, upstream: set<string>, sessions: map<string, nat>, recs: map<nat, Rec>, nextRec: nat)

  // Guarded by refMu: dispatched requests and the drain channel. `closings` counts how
  // often each channel has been closed.
  datatype Flow = Flow(active: int, drained: Option<nat>, closings: multiset<nat>, nextChan: nat)

  // The idle timer: armed and pending, or fired with its callback queued.
  datatype Timers = Timers(idle: Option<nat>, pending: set<nat>, fired: set<nat>, next: nat)

  // `dead` processes have lost their transport; `waited` ones have their done channel closed.
  datatype State = State(
    cfg: Config, p: Proc, tab: Table, flow: Flow, tm: Timers,
    dead: set<nat>, waited: set<nat>, threads: map<nat, Pc>)

  function Init(cfg: Config): State {
    State(cfg, Proc(None, false, false, None, 0, NoBoot, map[], NotBegun, {}, 0, 0),
          Table(0, {}, map[], map[], 0), Flow(0, None, multiset{}, 0), Timers(None, {}, {}, 0),
          {}, {}, map[])
  }

  // ----- pieces shared by several sections

  // channelClosed(downstreamDone)
  predicate DoneSeen(s: State) {
    s.p.downstream.Some? && s.p.downstream.value in s.waited
  }

  function StopTimer(tm: Timers): Timers {
    tm.(pending := tm.pending - Elements(tm.idle), idle := None)
  }

  // armIdleTimerLocked
  function Arm(cfg: Config, closed: bool, refCount: int, tm: Timers): Timers {
    if refCount == 0 && cfg.idleTimeout > 0 && !closed then
      Timers(Some(tm.next), tm.pending - Elements(tm.idle) + {tm.next}, tm.fired, tm.next + 1)
    else tm
  }

  // startDownstreamLocked
  function Reserve(p: Proc, drain: Option<nat>): Proc {
    p.(starting := Some(p.nextStartup), nextStartup := p.nextStartup + 1, failures := 0,
       boot := Draining(p.downstream, drain))
  }

  // The locked section of getOrCreateDownstream.
  function GetDownstream(p: Proc, doneSeen: bool): (Proc, Ready) {
    if p.closed then (p, Refused)
    else if p.starting.None? && p.downstream.Some? && !doneSeen then (p, Got(p.downstream.value))
    else
      var p' := if p.starting.None? then Reserve(p, None) else p;
      (p', Await(p'.starting.value))
  }

  function SetThread(s: State, t: nat, pc: Pc): State { s.(threads := s.threads[t := pc]) }

  function EndThread(s: State, t: nat): State { s.(threads := s.threads - {t}) }

  function SetRec(tab: Table, h: nat, r: Rec): Table { tab.(recs := tab.recs[h := r]) }

  // ----- admission: GetOrCreateSession

  function Track(tab: Table, id: string, now: int): Table {
    if id in tab.upstream then tab
    else Table(tab.refCount + 1, tab.upstream + {id}, tab.sessions[id := tab.nextRec],
               tab.recs[tab.nextRec := Rec(now, 0, false, 0, false)], tab.nextRec + 1)
  }

  function Untrack(tab: Table, id: string): Table {
    tab.(upstream := tab.upstream - {id}, sessions := tab.sessions - {id}, refCount := tab.refCount - 1)
  }

  function Admit(s: State, t: nat, id: string, now: int): State {
    if t in s.threads || s.p.closed then s
    else if id !in s.tab.upstream && s.cfg.maxSessions > 0 && s.tab.refCount >= s.cfg.maxSessions then s
    else
      var tab := Track(s.tab, id, now);
      if id !in tab.sessions || tab.sessions[id] !in tab.recs then s else
      var h := tab.sessions[id];
      SetThread(s.(tab := SetRec(tab, h, tab.recs[h].(pending := tab.recs[h].pending + 1)), tm := StopTimer(s.tm)),
                t, WantDownstream(id, h))
  }

  function AdmitEnsure(s: State, t: nat): State {
    if t !in s.threads || !s.threads[t].WantDownstream? then s else
    var pc := s.threads[t];
    var (p, r) := GetDownstream(s.p, DoneSeen(s));
    SetThread(s.(p := p), t, match r
      case Refused => Decided(pc.id, pc.rec, false)
      case Got(_) => Decided(pc.id, pc.rec, true)
      case Await(k) => AwaitStartup(pc.id, pc.rec, k))
  }

  // waitForStartup: the context may end at any time, the startup only when it is done.
  function AdmitWake(s: State, t: nat, cancelled: bool): State {
    if t !in s.threads || !s.threads[t].AwaitStartup? then s else
    var pc := s.threads[t];
    if cancelled then SetThread(s, t, Decided(pc.id, pc.rec, false))
    else if pc.startup in s.p.results then SetThread(s, t, Decided(pc.id, pc.rec, s.p.results[pc.startup]))
    else s
  }

  // What the end of GetOrCreateSession does to the table: a success admits the record, a
  // failure of the last waiter removes a record that was never admitted.
  function Settle(tab: Table, id: string, h: nat, ok: bool, now: int): Table
    requires h in tab.recs
  {
    var r := tab.recs[h].(pending := tab.recs[h].pending - 1);
    if ok then SetRec(tab, h, r.(admitted := true, lastActivity := now))
    else if !r.admitted && r.pending == 0 then Untrack(SetRec(tab, h, r), id)
    else SetRec(tab, h, r)
  }

  function AdmitTail(s: State, t: nat, now: int): State {
    if t !in s.threads || !s.threads[t].Decided? then s else
    var pc := s.threads[t];
    var e := EndThread(s, t);
    if pc.id !in s.tab.sessions || s.tab.sessions[pc.id] != pc.rec || pc.rec !in s.tab.recs then e
    else
      var tab := Settle(s.tab, pc.id, pc.rec, pc.ok, now);
      e.(tab := tab, tm := if pc.id in tab.sessions then s.tm else Arm(s.cfg, s.p.closed, tab.refCount, s.tm))
  }

  // EnsureReady takes the same section without a session; its wait changes nothing.
  function EnsureReady(s: State): State { s.(p := GetDownstream(s.p, DoneSeen(s)).0) }

  function RemoveSession(s: State, id: string): State {
    if id !in s.tab.upstream then s
    else
      var tab := Untrack(s.tab, id);
      s.(tab := tab, tm := Arm(s.cfg, s.p.closed, tab.refCount, s.tm))
  }

  function TouchSession(s: State, id: string, now: int): State {
    if id in s.tab.sessions && s.tab.sessions[id] in s.tab.recs && !s.tab.recs[s.tab.sessions[id]].expiring then
      s.(tab := SetRec(s.tab, s.tab.sessions[id], s.tab.recs[s.tab.sessions[id]].(lastActivity := now)))
    else s
  }

  // ----- requests: BeginRequest and its release function

  function BeginRequest(s: State, t: nat, id: string): State {
    if t in s.threads || s.p.closed || id !in s.tab.sessions || s.tab.sessions[id] !in s.tab.recs
       || s.tab.recs[s.tab.sessions[id]].expiring then s
    else
      var h := s.tab.sessions[id];
      var r := s.tab.recs[h];
      SetThread(s.(tab := SetRec(s.tab, h, r.(inFlight := r.inFlight + 1))), t, RequestLoop(id, h))
  }

  // One pass of the readiness loop. The read lock is held from the checks through the
  // admission, so the two are one atomic step.
  function RequestPass(s: State, t: nat, cancelled: bool): State {
    if t !in s.threads || !s.threads[t].RequestLoop? then s else
    var pc := s.threads[t];
    if s.p.closed || cancelled then SetThread(s, t, RequestRefused(pc.rec))
    else if s.p.starting.Some? then SetThread(s, t, RequestAwait(pc.id, pc.rec, s.p.starting.value))
    else if s.p.spawnErr || DoneSeen(s) then SetThread(s, t, RequestEnsure(pc.id, pc.rec))
    else if pc.id !in s.tab.sessions || s.tab.sessions[pc.id] != pc.rec || pc.rec !in s.tab.recs
            || s.tab.recs[pc.rec].expiring then SetThread(s, t, RequestRefused(pc.rec))
    else SetThread(s.(flow := s.flow.(active := s.flow.active + 1)), t, Serving(pc.rec))
  }

  function RequestGet(s: State, t: nat): State {
    if t !in s.threads || !s.threads[t].RequestEnsure? then s else
    var pc := s.threads[t];
    var (p, r) := GetDownstream(s.p, DoneSeen(s));
    SetThread(s.(p := p), t, match r
      case Refused => RequestRefused(pc.rec)
      case Got(_) => RequestLoop(pc.id, pc.rec)
      case Await(k) => RequestAwait(pc.id, pc.rec, k))
  }

  function RequestWake(s: State, t: nat, cancelled: bool): State {
    if t !in s.threads || !s.threads[t].RequestAwait? then s else
    var pc := s.threads[t];
    if cancelled then SetThread(s, t, RequestRefused(pc.rec))
    else if pc.startup in s.p.results then
      SetThread(s, t, if s.p.results[pc.startup] then RequestLoop(pc.id, pc.rec) else RequestRefused(pc.rec))
    else s
  }

  function Finished(f: Flow): Flow {
    if f.active - 1 == 0 && f.drained.Some? then
      f.(active := f.active - 1, closings := f.closings + multiset{f.drained.value}, drained := None)
    else f.(active := f.active - 1)
  }

  function Release(s: State, t: nat): State {
    if t !in s.threads || !(s.threads[t].RequestRefused? || s.threads[t].Serving?)
       || s.threads[t].rec !in s.tab.recs then s else
    var h := s.threads[t].rec;
    var r := s.tab.recs[h];
    EndThread(s.(tab := SetRec(s.tab, h, r.(inFlight := r.inFlight - 1)),
                 flow := if s.threads[t].Serving? then Finished(s.flow) else s.flow), t)
  }

  // ----- idle expiry

  predicate Expirable(cfg: Config, tab: Table, h: nat, now: int)
    requires h in tab.recs
  {
    h in tab.sessions.Values && !tab.recs[h].expiring && tab.recs[h].inFlight == 0
    && now - tab.recs[h].lastActivity > cfg.sessionTimeout
  }

  // The marking section of reapExpiredSessions.
  function MarkExpired(s: State, now: int): State {
    s.(tab := s.tab.(recs := map h | h in s.tab.recs ::
         if Expirable(s.cfg, s.tab, h, now) then s.tab.recs[h].(expiring := true) else s.tab.recs[h]))
  }

  function TimerFires(s: State, k: nat): State {
    if k in s.tm.pending then
      s.(tm := s.tm.(pending := s.tm.pending - {k}, fired := s.tm.fired + {k}))
    else s
  }

  // reapDownstream. Close runs under both locks, so it belongs to the section.
  function IdleCallback(s: State, k: nat): State {
    if k !in s.tm.fired then s else
    var tm := s.tm.(fired := s.tm.fired - {k});
    if s.tab.refCount != 0 || s.p.closed then s.(tm := tm)
    else if s.p.starting.Some? || s.flow.active != 0 then
      s.(tm := Arm(s.cfg, s.p.closed, s.tab.refCount, tm))
    else
      var e := s.(tm := StopTimer(tm), p := s.p.(spawnErr := false));
      if s.p.downstream.None? then e
      else e.(p := e.p.(downstream := None, open := s.p.open - {s.p.downstream.value}),
              dead := s.dead + {s.p.downstream.value})
  }

  // ----- health probe

  function HealthSnapshot(s: State, t: nat): State {
    if t in s.threads || s.p.closed || s.p.downstream.None? || s.p.starting.Some? then s
    else SetThread(s, t, Probing(s.p.downstream.value))
  }

  // The probe context ended first.
  function HealthAbort(s: State, t: nat): State {
    if t in s.threads && s.threads[t].Probing? then EndThread(s, t) else s
  }

  function OpenDrain(f: Flow): Flow {
    if f.drained.Some? then f else f.(drained := Some(f.nextChan), nextChan := f.nextChan + 1)
  }

  // What the section after ListTools does: count the failure, or reserve a replacement.
  // A transport known to be closed is not drained.
  function Judge(p: Proc, f: Flow, doneSeen: bool, v: Verdict): (Proc, Flow) {
    var transportClosed := doneSeen || v.ConnectionClosed?;
    if v.Healthy? then (p.(failures := 0), f)
    else if !transportClosed && p.failures + 1 < MAX_CONSECUTIVE_TIMEOUTS then (p.(failures := p.failures + 1), f)
    else if !transportClosed && f.active != 0 then (Reserve(p, OpenDrain(f).drained), OpenDrain(f))
    else (Reserve(p, None), f)
  }

  // The connection-closed error is only returned when the transport is closed.
  function HealthVerdict(s: State, t: nat, v: Verdict): State {
    if t !in s.threads || !s.threads[t].Probing? then s else
    var ds := s.threads[t].ds;
    var e := EndThread(s, t);
    if v.ConnectionClosed? && ds !in s.dead then s
    else if s.p.closed || s.p.downstream != Some(ds) || s.p.starting.Some? then e
    else
      var (p, f) := Judge(s.p, s.flow, DoneSeen(s), v);
      e.(p := p, flow := f)
  }

  // ----- environment

  function TransportDies(s: State, ds: nat): State { s.(dead := s.dead + {ds}) }

  function WaitReturns(s: State, ds: nat): State {
    if ds in s.dead then s.(waited := s.waited + {ds}) else s
  }

  // ----- the startup goroutine

  // Leaving the drain select, then the detach section. What the select waits for is stable.
  function BootDetach(s: State): State {
    if !s.p.boot.Draining? then s
    else if s.p.boot.drain.None? || s.p.boot.drain.value in s.flow.closings || s.p.closed
            || (s.p.boot.prior.Some? && s.p.boot.prior.value in s.waited) then
      s.(p := s.p.(downstream := None, boot := Closing(s.p.boot.prior)))
    else s
  }

  function BootClose(s: State): State {
    if !s.p.boot.Closing? then s
    else s.(p := s.p.(boot := Connecting, open := s.p.open - Elements(s.p.boot.prior)),
            dead := s.dead + Elements(s.p.boot.prior))
  }

  function BootCheck(p: Proc): Proc {
    if !p.boot.Connecting? then p
    else p.(boot := if p.closed then ConnectFailed else Dialing)
  }

  function BootConnect(p: Proc, ok: bool): Proc {
    if !p.boot.Dialing? then p
    else if ok then p.(boot := Connected(p.nextDs), open := p.open + {p.nextDs}, nextDs := p.nextDs + 1)
    else p.(boot := ConnectFailed)
  }

  function BootPublish(p: Proc): Proc {
    match p.boot
    case Connected(ds) =>
      if p.closed then p.(boot := Discarding(ds))
      else p.(boot := Published(ds), downstream := Some(ds), spawnErr := false)
    case ConnectFailed =>
      if p.closed then p.(boot := Failing) else p.(boot := Failing, spawnErr := true)
    case _ => p
  }

  function BootDiscard(s: State): State {
    if !s.p.boot.Discarding? then s
    else s.(p := s.p.(boot := Failing, open := s.p.open - {s.p.boot.ds}), dead := s.dead + {s.p.boot.ds})
  }

  function BootFinish(s: State): State {
    if !(s.p.boot.Published? || s.p.boot.Failing?) || s.p.starting.None? then s
    else s.(p := s.p.(boot := NoBoot, starting := None,
                      results := s.p.results[s.p.starting.value := s.p.boot.Published? && !s.p.closed]),
            tm := Arm(s.cfg, s.p.closed, s.tab.refCount, s.tm))
  }

  // ----- CloseAll

  function CloseAll(s: State): State {
    if s.p.closed then s
    else s.(p := s.p.(closed := true, downstream := None, spawnErr := false,
                      shutdown := ClosingProcess(s.p.downstream, s.p.starting)),
            tab := s.tab.(upstream := {}, sessions := map[], refCount := 0),
            tm := StopTimer(s.tm))
  }

  function CloseAllProcess(s: State): State {
    if !s.p.shutdown.ClosingProcess? then s
    else s.(p := s.p.(shutdown := AwaitingStartup(s.p.shutdown.startup),
                      open := s.p.open - Elements(s.p.shutdown.ds)),
            dead := s.dead + Elements(s.p.shutdown.ds))
  }

  function CloseAllReturn(p: Proc): Proc {
    if !p.shutdown.AwaitingStartup? then p
    else if p.shutdown.startup.None? || p.shutdown.startup.value in p.results then p.(shutdown := Returned)
    else p
  }

  // ----- runs

  datatype Action =
    | AAdmit(t: nat, id: string, now: int) | AAdmitEnsure(t: nat) | AAdmitWake(t: nat, cancelled: bool)
    | AAdmitTail(t: nat, now: int) | AEnsureReady | ARemoveSession(id: string) | ATouch(id: string, now: int)
    | ABeginRequest(t: nat, id: string) | ARequestPass(t: nat, cancelled: bool) | ARequestGet(t: nat)
    | ARequestWake(t: nat, cancelled: bool) | ARelease(t: nat)
    | AMarkExpired(now: int) | ATimerFires(k: nat) | AIdleCallback(k: nat)
    | AHealthSnapshot(t: nat) | AHealthAbort(t: nat) | AHealthVerdict(t: nat, v: Verdict)
    | ATransportDies(ds: nat) | AWaitReturns(ds: nat)
    | ABootDetach | ABootClose | ABootCheck | ABootConnect(ok: bool) | ABootPublish | ABootDiscard | ABootFinish
    | ACloseAll | ACloseAllProcess | ACloseAllReturn

  function Step(s: State, a: Action): State {
    match a
    case AAdmit(t, id, now) => Admit(s, t, id, now)
    case AAdmitEnsure(t) => AdmitEnsure(s, t)
    case AAdmitWake(t, c) => AdmitWake(s, t, c)
    case AAdmitTail(t, now) => AdmitTail(s, t, now)
    case AEnsureReady => EnsureReady(s)
    case ARemoveSession(id) => RemoveSession(s, id)
    case ATouch(id, now) => TouchSession(s, id, now)
    case ABeginRequest(t, id) => BeginRequest(s, t, id)
    case ARequestPass(t, c) => RequestPass(s, t, c)
    case ARequestGet(t) => RequestGet(s, t)
    case ARequestWake(t, c) => RequestWake(s, t, c)
    case ARelease(t) => Release(s, t)
    case AMarkExpired(now) => MarkExpired(s, now)
    case ATimerFires(k) => TimerFires(s, k)
    case AIdleCallback(k) => IdleCallback(s, k)
    case AHealthSnapshot(t) => HealthSnapshot(s, t)
    case AHealthAbort(t) => HealthAbort(s, t)
    case AHealthVerdict(t, v) => HealthVerdict(s, t, v)
    case ATransportDies(ds) => TransportDies(s, ds)
    case AWaitReturns(ds) => WaitReturns(s, ds)
    case ABootDetach => BootDetach(s)
    case ABootClose => BootClose(s)
    case ABootCheck => s.(p := BootCheck(s.p))
    case ABootConnect(ok) => s.(p := BootConnect(s.p, ok))
    case ABootPublish => s.(p := BootPublish(s.p))
    case ABootDiscard => BootDiscard(s)
    case ABootFinish => BootFinish(s)
    case ACloseAll => CloseAll(s)
    case ACloseAllProcess => CloseAllProcess(s)
    case ACloseAllReturn => s.(p := CloseAllReturn(s.p))
  }

  function Run(s: State, run: seq<Action>): State
    decreases |run|
  {
    if run == [] then s else Run(Step(s, run[0]), run[1..])
  }

  // ----- invariants

  // The process the first CloseAll has detached and not yet closed.
  function Detached(p: Proc): set<nat> {
    if p.shutdown.ClosingProcess? then Elements(p.shutdown.ds) else {}
  }

  // Which spawned process may still be open, for every place the startup goroutine can be.
  ghost predicate OpenShape(p: Proc) {
    match p.boot
    case NoBoot => if p.closed then p.open <= Detached(p) else p.open == Elements(p.downstream)
    case Draining(o, _) =>
      if p.closed then p.open <= Elements(o) && p.open <= Detached(p)
      else p.downstream == o && p.open == Elements(o)
    case Closing(o) => p.downstream.None? && p.open <= Elements(o)
    case Connected(ds) => p.downstream.None? && p.open <= {ds} && (!p.closed ==> ds in p.open)
    case Discarding(ds) => p.closed && p.open <= {ds}
    case Published(ds) =>
      if p.closed then p.open <= {ds} && p.open <= Detached(p)
      else p.downstream == Some(ds) && p.open == {ds}
    case _ => p.downstream.None? && p.open == {}
  }

  ghost predicate ProcInv(p: Proc) {
    && (p.starting.None? <==> p.boot.NoBoot?)
    && (p.starting.Some? ==> p.starting.value < p.nextStartup && p.starting.value !in p.results)
    && (forall k :: k in p.results ==> k < p.nextStartup)
    && (p.closed <==> !p.shutdown.NotBegun?)
    && (p.closed ==> p.downstream.None?)
    && (p.shutdown.ClosingProcess? || p.shutdown.AwaitingStartup? ==>
          if p.starting.Some? then p.shutdown.startup == p.starting
          else p.shutdown.startup.Some? ==> p.shutdown.startup.value in p.results)
    && (p.shutdown.Returned? ==> p.starting.None?)
    && OpenShape(p)
  }

  ghost predicate TableInv(cfg: Config, tab: Table) {
    && tab.upstream == tab.sessions.Keys
    && tab.refCount == |tab.sessions|
    && (cfg.maxSessions > 0 ==> tab.refCount <= cfg.maxSessions)
    && (forall id :: id in tab.sessions ==> tab.sessions[id] in tab.recs)
    && (forall i, j :: i in tab.sessions && j in tab.sessions && tab.sessions[i] == tab.sessions[j] ==> i == j)
    && (forall h :: h in tab.recs ==> h < tab.nextRec)
    && (forall h :: h in tab.recs && tab.recs[h].expiring ==> tab.recs[h].inFlight == 0)
  }

  predicate IsWaiter(pc: Pc) { pc.WantDownstream? || pc.AwaitStartup? || pc.Decided? }

  predicate WaitsOn(pc: Pc, h: nat) { IsWaiter(pc) && pc.rec == h }

  predicate HoldsFlight(pc: Pc, h: nat) {
    (pc.RequestLoop? || pc.RequestEnsure? || pc.RequestAwait? || pc.RequestRefused? || pc.Serving?) && pc.rec == h
  }

  // Who is waiting on a record, who has a request on it, and who is dispatched.
  function Waiting(threads: map<nat, Pc>, h: nat): set<nat> {
    set t | t in threads && WaitsOn(threads[t], h)
  }

  function Holding(threads: map<nat, Pc>, h: nat): set<nat> {
    set t | t in threads && HoldsFlight(threads[t], h)
  }

  function Dispatched(threads: map<nat, Pc>): set<nat> { set t | t in threads && threads[t].Serving? }

  ghost predicate WellPlaced(tab: Table, pc: Pc) {
    pc.Probing? ||
    (pc.rec in tab.recs &&
     (IsWaiter(pc) && pc.rec in tab.sessions.Values ==> pc.id in tab.sessions && tab.sessions[pc.id] == pc.rec))
  }

  ghost predicate ThreadInv(tab: Table, threads: map<nat, Pc>) {
    forall t :: t in threads ==> WellPlaced(tab, threads[t])
  }

  // The counters are the numbers of goroutines they stand for.
  ghost predicate FlightInv(recs: map<nat, Rec>, threads: map<nat, Pc>) {
    forall h :: h in recs ==> recs[h].inFlight == |Holding(threads, h)|
  }

  ghost predicate PendingInv(tab: Table, threads: map<nat, Pc>) {
    forall h :: h in tab.recs && h in tab.sessions.Values ==> tab.recs[h].pending == |Waiting(threads, h)|
  }

  ghost predicate RefsInv(tab: Table, active: int, threads: map<nat, Pc>) {
    ThreadInv(tab, threads) && active == |Dispatched(threads)|
    && FlightInv(tab.recs, threads) && PendingInv(tab, threads)
  }

  // No live process is detached while a request is dispatched, except by shutdown.
  ghost predicate Quiet(active: int, dead: set<nat>, prior: Option<nat>) {
    prior.None? || prior.value in dead || active == 0
  }

  ghost predicate FlowInv(f: Flow) {
    && f.active >= 0
    && (f.drained.Some? ==> f.active > 0 && f.drained.value < f.nextChan)
    && (forall c: nat :: f.closings[c] == if c < f.nextChan && f.drained != Some(c) then 1 else 0)
  }

  ghost predicate DrainInv(f: Flow, boot: Boot, closed: bool, dead: set<nat>) {
    match boot
    case Draining(o, None) => Quiet(f.active, dead, o)
    case Draining(o, Some(c)) => c < f.nextChan && (f.drained == Some(c) || f.active == 0)
    case Closing(o) => Quiet(f.active, dead, o) || closed
    case _ => true
  }

  // Nothing refers to a process that is up.
  ghost predicate Unreferenced(s: State) {
    !s.p.closed && s.cfg.idleTimeout > 0 && s.tab.refCount == 0 && s.p.starting.None? && s.p.downstream.Some?
  }

  ghost predicate TimerInv(tm: Timers) {
    && (forall k :: k in tm.pending || k in tm.fired ==> k < tm.next)
    && (tm.idle.Some? ==> tm.idle.value < tm.next)
  }

  predicate ReapDue(tm: Timers) { tm.idle.Some? && tm.idle.value in tm.pending + tm.fired }

  ghost predicate Inv(s: State) {
    && ProcInv(s.p) && TableInv(s.cfg, s.tab)
    && RefsInv(s.tab, s.flow.active, s.threads)
    && FlowInv(s.flow) && DrainInv(s.flow, s.p.boot, s.p.closed, s.dead) && s.waited <= s.dead
    && TimerInv(s.tm) && (Unreferenced(s) ==> ReapDue(s.tm))
  }
}

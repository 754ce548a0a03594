/**
 What the shared session manager achieves: who is told what by a startup, who is admitted and
 served, when a hanging process is replaced and an idle one is closed.
*/
module SharedSessionOutcomes {
  import opened Wrappers
  import opened SharedSession
  import opened SharedSessionProofs

  // ----- what a startup tells its waiters

  // What a run has shown of each startup: the process it connected, whether that process was
  // published, and whether the manager was open in the final section.
  datatype Log = Log(connected: map<nat, nat>, published: set<nat>, finishedOpen: set<nat>)

  function Noted(l: Log, s: State, a: Action): Log {
    if s.p.starting.None? then l else
    var k := s.p.starting.value;
    match a
    case ABootConnect(true) => if s.p.boot.Dialing? then l.(connected := l.connected[k := s.p.nextDs]) else l
    case ABootPublish => if s.p.boot.Connected? && !s.p.closed then l.(published := l.published + {k}) else l
    case ABootFinish =>
      if (s.p.boot.Published? || s.p.boot.Failing?) && !s.p.closed then l.(finishedOpen := l.finishedOpen + {k}) else l
    case _ => l
  }

  function LogOf(s: State, run: seq<Action>, l: Log): Log
    decreases |run|
  {
    if run == [] then l else LogOf(Step(s, run[0]), run[1..], Noted(l, s, run[0]))
  }

  // How far startup k is.
  predicate Underway(l: Log, boot: Boot, k: nat) {
    && k !in l.finishedOpen
    && match boot
       case Connected(ds) => k in l.connected && l.connected[k] == ds && k !in l.published
       case Discarding(ds) => k in l.connected && l.connected[k] == ds && k !in l.published
       case Published(ds) => k in l.connected && l.connected[k] == ds && k in l.published
       case Failing => k !in l.published
       case ConnectFailed => k !in l.connected && k !in l.published
       case _ => k !in l.connected && k !in l.published
  }

  predicate Told(l: Log, k: nat, result: bool) {
    result <==> k in l.connected && k in l.published && k in l.finishedOpen
  }

  ghost predicate LogInv(l: Log, p: Proc) {
    && (forall k :: k in l.connected || k in l.published || k in l.finishedOpen ==> k < p.nextStartup)
    && (p.starting.Some? ==> p.starting.value < p.nextStartup && Underway(l, p.boot, p.starting.value))
    && (p.starting.None? <==> p.boot.NoBoot?)
    && (forall k <- p.results :: k < p.nextStartup && p.starting != Some(k) && Told(l, k, p.results[k]))
  }

  // Outside the startup goroutine a startup is at most reserved.
  lemma OthersReserve(s: State, a: Action)
    requires PartOf(a) != Process
    ensures var p := Step(s, a).p;
            && p.results == s.p.results
            && ((p.starting == s.p.starting && p.boot == s.p.boot && p.nextStartup == s.p.nextStartup)
                || (s.p.starting.None? && p.starting == Some(s.p.nextStartup) && p.nextStartup == s.p.nextStartup + 1 && p.boot.Draining?))
  {
    hide Step;
    match PartOf(a)
    case Admission => AdmissionReserves(s, a);
    case Requests => RequestReserves(s, a);
    case Probes => ProbeReserves(s, a);
    case Process =>
  }

  lemma AdmissionReserves(s: State, a: Action)
    requires PartOf(a) == Admission
    ensures Step(s, a).p == s.p || (s.p.starting.None? && Step(s, a).p == Reserve(s.p, None))
  {
    hide Track, Settle, Untrack, Arm, Reserve;
  }

  lemma RequestReserves(s: State, a: Action)
    requires PartOf(a) == Requests
    ensures Step(s, a).p == s.p || (s.p.starting.None? && Step(s, a).p == Reserve(s.p, None))
  {
    hide Finished, Expirable, Reserve;
  }

  lemma ProbeReserves(s: State, a: Action)
    requires PartOf(a) == Probes
    ensures var p := Step(s, a).p;
            && p.results == s.p.results
            && ((p.starting == s.p.starting && p.boot == s.p.boot && p.nextStartup == s.p.nextStartup)
                || (s.p.starting.None? && p.starting == Some(s.p.nextStartup) && p.nextStartup == s.p.nextStartup + 1 && p.boot.Draining?))
  {
    hide Arm, OpenDrain;
  }

  lemma LogKeeps(l: Log, s: State, a: Action)
    requires LogInv(l, s.p)
    ensures LogInv(Noted(l, s, a), Step(s, a).p)
  {
    if PartOf(a) != Process {
      hide Step;
      OthersReserve(s, a);
    } else {
      hide Arm;
    }
  }

  lemma {:induction false} LogStays(s: State, run: seq<Action>, l: Log)
    requires LogInv(l, s.p)
    ensures LogInv(LogOf(s, run, l), Run(s, run).p)
    decreases |run|
  {
    hide LogInv, Noted, Step;
    if run != [] {
      LogKeeps(l, s, run[0]);
      LogStays(Step(s, run[0]), run[1..], Noted(l, s, run[0]));
    }
  }

  // Whoever waits for a startup is told that it succeeded exactly if it connected a process,
  // the process was published, and the manager was open when the startup ended.
  lemma StartupResultExactlyWhen(cfg: Config, run: seq<Action>, k: nat)
    requires k in Reached(cfg, run).p.results
    ensures var l := LogOf(Init(cfg), run, Log(map[], {}, {}));
            Reached(cfg, run).p.results[k] <==> k in l.connected && k in l.published && k in l.finishedOpen
  {
    LogStays(Init(cfg), run, Log(map[], {}, {}));
  }

  lemma RunTwo(s: State, a: Action, b: Action)
    ensures Run(s, [a, b]) == Step(Step(s, a), b)
  {
    hide Step;
    assert [a, b][1..] == [b];
    assert Run(Step(s, a), [b]) == Step(Step(s, a), b);
  }

  lemma RunThree(s: State, a: Action, b: Action, c: Action)
    ensures Run(s, [a, b, c]) == Step(Step(Step(s, a), b), c)
  {
    hide Step;
    assert [a, b, c][1..] == [b, c];
    RunTwo(Step(s, a), b, c);
  }

  lemma {:induction false} RunConcat(s: State, first: seq<Action>, second: seq<Action>)
    ensures Run(s, first + second) == Run(Run(s, first), second)
    decreases |first|
  {
    hide Step;
    if first == [] {
      assert first + second == second;
    } else {
      assert (first + second)[1..] == first[1..] + second;
      RunConcat(Step(s, first[0]), first[1..], second);
    }
  }

  // Thread t waits for startup k on behalf of session id.
  predicate Awaits(s: State, t: nat, id: string, h: nat, k: nat) {
    t in s.threads && s.threads[t] == AwaitStartup(id, h, k) && s.p.starting == Some(k)
  }

  predicate Tracks(s: State, id: string, h: nat) { id in s.tab.sessions && s.tab.sessions[id] == h && h in s.tab.recs }

  // Session id is admitted: tracked, counted, and fresh.
  predicate Admitted(s: State, id: string, h: nat, now: int) {
    Tracks(s, id, h) && id in s.tab.upstream && s.tab.recs[h].admitted && s.tab.recs[h].lastActivity == now
  }

  lemma FinishTells(s: State)
    requires Inv(s) && s.p.starting.Some? && (s.p.boot.Published? || s.p.boot.Failing?)
    ensures var u := Step(s, ABootFinish);
            && u.p.results == s.p.results[s.p.starting.value := s.p.boot.Published? && !s.p.closed]
            && u.p.starting.None? && u.p.downstream == s.p.downstream && u.p.spawnErr == s.p.spawnErr
            && u.p.closed == s.p.closed && u.threads == s.threads && u.tab == s.tab
  {
    hide Arm;
  }

  lemma WakeHears(s: State, t: nat, id: string, h: nat, k: nat)
    requires t in s.threads && s.threads[t] == AwaitStartup(id, h, k) && k in s.p.results
    ensures Step(s, AAdmitWake(t, false)) == s.(threads := s.threads[t := Decided(id, h, s.p.results[k])])
  {
  }

  lemma TailSettles(s: State, t: nat, id: string, h: nat, now: int)
    requires Inv(s) && t in s.threads && s.threads[t] == Decided(id, h, true)
    ensures var u := Step(s, AAdmitTail(t, now));
            && t !in u.threads && u.p == s.p && u.tab.sessions == s.tab.sessions && u.tab.upstream == s.tab.upstream
            && u.tab.refCount == s.tab.refCount && u.flow == s.flow
            && (forall other <- u.threads :: other in s.threads && u.threads[other] == s.threads[other])
            && (Tracks(s, id, h) ==>
                  && Admitted(u, id, h, now)
                  && u.tab.recs[h].inFlight == s.tab.recs[h].inFlight && u.tab.recs[h].expiring == s.tab.recs[h].expiring)
  {
    hide Arm;
  }

  // From every reachable state in which a startup has published its process in an open
  // manager, its end tells a waiter so, and the waiter's session, unless it was removed
  // meanwhile, ends up admitted in the table.
  lemma PublishedStartupAdmits(cfg: Config, run: seq<Action>, t: nat, id: string, h: nat, k: nat, now: int)
    requires var s := Reached(cfg, run); Awaits(s, t, id, h, k) && s.p.boot.Published? && !s.p.closed
    ensures var s := Reached(cfg, run);
            var u := Run(s, [ABootFinish, AAdmitWake(t, false), AAdmitTail(t, now)]);
            && t !in u.threads && u.p.starting.None? && u.p.downstream == Some(s.p.boot.ds) && !u.p.closed
            && u.tab.sessions == s.tab.sessions && (Tracks(s, id, h) ==> Admitted(u, id, h, now))
  {
    var s := Reached(cfg, run);
    ReachedKeeps(cfg, run);
    PublishedIsDownstream(s);
    RunThree(s, ABootFinish, AAdmitWake(t, false), AAdmitTail(t, now));
    FinishTells(s);
    var u := Step(s, ABootFinish);
    StepKeeps(s, ABootFinish);
    hide Inv, Step, Run, Reached;
    WakeHears(u, t, id, h, k);
    StepKeeps(u, AAdmitWake(t, false));
    TailSettles(Step(u, AAdmitWake(t, false)), t, id, h, now);
  }

  lemma PublishedIsDownstream(s: State)
    requires Inv(s) && s.p.boot.Published? && !s.p.closed
    ensures s.p.downstream == Some(s.p.boot.ds)
  {
  }

  // The waiter of a startup that failed hears that, and its session, if nobody was ever
  // admitted on it and nobody else waits, leaves the table with its reference.
  lemma FailedStartupRefuses(cfg: Config, run: seq<Action>, t: nat, id: string, h: nat, k: nat, now: int)
    requires var s := Reached(cfg, run); Awaits(s, t, id, h, k) && s.p.boot.Failing?
    ensures var s := Reached(cfg, run);
            var u := Run(s, [ABootFinish, AAdmitWake(t, false), AAdmitTail(t, now)]);
            && t !in u.threads && u.p.starting.None?
            && u.tab.sessions == if Tracks(s, id, h) && !s.tab.recs[h].admitted && Waiting(s.threads, h) == {t}
                                 then s.tab.sessions - {id} else s.tab.sessions
  {
    var s := Reached(cfg, run);
    ReachedKeeps(cfg, run);
    RunThree(s, ABootFinish, AAdmitWake(t, false), AAdmitTail(t, now));
    FinishTells(s);
    StepKeeps(s, ABootFinish);
    var u := Step(s, ABootFinish);
    hide Inv, Run, Reached, Step, Waiting;
    WakeHears(u, t, id, h, k);
    StepKeeps(u, AAdmitWake(t, false));
    StillWaiting(s.threads, t, id, h, k);
    TailRefuses(Step(u, AAdmitWake(t, false)), t, id, h, now);
  }

  lemma TailRefuses(s: State, t: nat, id: string, h: nat, now: int)
    requires Inv(s) && t in s.threads && s.threads[t] == Decided(id, h, false)
    ensures var u := Step(s, AAdmitTail(t, now));
            && t !in u.threads && u.p == s.p
            && u.tab.sessions == if Tracks(s, id, h) && !s.tab.recs[h].admitted && Waiting(s.threads, h) == {t}
                                 then s.tab.sessions - {id} else s.tab.sessions
  {
    FailedWaiterRemovesOnlyItsOwn(s, t, now);
    if id in s.tab.sessions {
      TrackedRecords(s, id);
    }
    hide Inv, Waiting;
    TailLeaves(s, t, now);
  }

  lemma StillWaiting(threads: map<nat, Pc>, t: nat, id: string, h: nat, k: nat)
    requires t in threads && threads[t] == AwaitStartup(id, h, k)
    ensures Waiting(threads[t := Decided(id, h, false)], h) == Waiting(threads, h)
  {
  }

  lemma TrackedRecords(s: State, id: string)
    requires Inv(s) && id in s.tab.sessions
    ensures s.tab.sessions[id] in s.tab.recs
  {
  }

  lemma TailLeaves(s: State, t: nat, now: int)
    requires t in s.threads && s.threads[t].Decided?
    ensures Step(s, AAdmitTail(t, now)) == AdmitTail(s, t, now) && t !in AdmitTail(s, t, now).threads
    ensures AdmitTail(s, t, now).p == s.p
  {
    hide Settle, Arm;
  }

  // ----- a startup that has not failed can still admit its waiters

  // The startup can still succeed, in so many sections of its goroutine.
  function SectionsLeft(boot: Boot): Option<nat> {
    match boot
    case Draining(_, _) => Some(5)
    case Closing(_) => Some(4)
    case Connecting => Some(3)
    case Dialing => Some(2)
    case Connected(_) => Some(1)
    case Published(_) => Some(0)
    case _ => None
  }

  function NextSection(boot: Boot): Action {
    match boot
    case Draining(_, _) => ABootDetach
    case Closing(_) => ABootClose
    case Connecting => ABootCheck
    case Dialing => ABootConnect(true)
    case _ => ABootPublish
  }

  predicate DrainOver(s: State) {
    s.p.boot.Draining? && s.p.boot.drain.Some? ==> s.p.boot.drain.value in s.flow.closings
  }

  // What the waiter of a startup relies on.
  ghost predicate Undisturbed(s: State, u: State) {
    && u.p.starting == s.p.starting && u.p.closed == s.p.closed
    && u.tab.sessions == s.tab.sessions && u.tab.recs.Keys == s.tab.recs.Keys
    && forall t <- s.threads :: !s.threads[t].Serving? ==> t in u.threads && u.threads[t] == s.threads[t]
  }

  lemma SectionAdvances(s: State)
    requires s.p.starting.Some? && !s.p.closed && DrainOver(s)
    requires SectionsLeft(s.p.boot).Some? && !s.p.boot.Published?
    ensures var u := Step(s, NextSection(s.p.boot));
            && Undisturbed(s, u) && DrainOver(u)
            && SectionsLeft(u.p.boot) == Some(SectionsLeft(s.p.boot).value - 1)
  {
  }

  lemma {:induction false} StartupPublishes(s: State) returns (run: seq<Action>)
    requires Inv(s) && s.p.starting.Some? && !s.p.closed && DrainOver(s) && SectionsLeft(s.p.boot).Some?
    ensures var u := Run(s, run); Inv(u) && Undisturbed(s, u) && u.p.boot.Published?
    decreases SectionsLeft(s.p.boot).value
  {
    hide Inv, Step;
    if s.p.boot.Published? {
      run := [];
    } else {
      var a := NextSection(s.p.boot);
      SectionAdvances(s);
      StepKeeps(s, a);
      var rest := StartupPublishes(Step(s, a));
      run := [a] + rest;
      assert run[1..] == rest;
    }
  }

  // The drain of a startup ends with the requests it waits for.
  lemma DrainCanEnd(s: State) returns (run: seq<Action>)
    requires Inv(s) && s.p.starting.Some?
    ensures var u := Run(s, run); Inv(u) && Undisturbed(s, u) && u.p == s.p && DrainOver(u)
  {
    if DrainOver(s) {
      run := [];
    } else {
      DrainIsOpen(s);
      run := EverybodyReleases(s);
      RunKeeps(s, run);
    }
  }

  lemma DrainIsOpen(s: State)
    requires Inv(s) && !DrainOver(s)
    ensures s.flow.drained == s.p.boot.drain
  {
    assert s.flow.closings[s.p.boot.drain.value] == 0;
  }

  // From every reachable state in which somebody waits for a startup that has not failed, in
  // an open manager, some continuation admits him: the requests being drained return, the
  // goroutine goes through its sections, and he is told.
  lemma WaiterCanBeAdmitted(cfg: Config, run: seq<Action>, t: nat, id: string, h: nat, k: nat, now: int)
    requires var s := Reached(cfg, run);
             Awaits(s, t, id, h, k) && Tracks(s, id, h) && !s.p.closed && SectionsLeft(s.p.boot).Some?
    ensures exists more ::
              var u := Run(Init(cfg), run + more);
              t !in u.threads && Admitted(u, id, h, now) && u.p.downstream.Some? && u.p.starting.None? && !u.p.closed
  {
    var s := Reached(cfg, run);
    ReachedKeeps(cfg, run);
    hide Inv, Step;
    var first := DrainCanEnd(s);
    var second := StartupPublishes(Run(s, first));
    RunConcat(s, first, second);
    RunConcat(Init(cfg), run, first + second);
    var last := [ABootFinish, AAdmitWake(t, false), AAdmitTail(t, now)];
    PublishedStartupAdmits(cfg, run + (first + second), t, id, h, k, now);
    RunConcat(Init(cfg), run + (first + second), last);
    assert run + (first + second) + last == run + (first + second + last);
  }

  // ----- who is admitted, who is served

  // An open manager with a process nobody has seen end.
  predicate Up(s: State) {
    !s.p.closed && s.p.starting.None? && !s.p.spawnErr && s.p.downstream.Some? && s.p.downstream.value !in s.waited
  }

  lemma ReachedIs(cfg: Config, run: seq<Action>)
    ensures Inv(Reached(cfg, run)) && Reached(cfg, run).cfg == cfg
  {
    ReachedKeeps(cfg, run);
    ConfigStays(Init(cfg), run);
  }

  // Exactly the open manager admits, a known session always and a new one as long as there is room.
  lemma AdmittedExactlyWhen(cfg: Config, run: seq<Action>, t: nat, id: string, now: int)
    requires t !in Reached(cfg, run).threads
    ensures var s := Reached(cfg, run);
            var u := Step(s, AAdmit(t, id, now));
            && (t in u.threads <==> !s.p.closed && (id in s.tab.sessions || cfg.maxSessions <= 0 || |s.tab.sessions| < cfg.maxSessions))
            && (t !in u.threads ==> u == s)
            && (t in u.threads ==> id in u.tab.sessions && u.threads[t] == WantDownstream(id, u.tab.sessions[id]))
  {
    ReachedIs(cfg, run);
    hide Reached, ProcInv, RefsInv, FlowInv, DrainInv, TimerInv, StopTimer;
    var s := Reached(cfg, run);
    if id in s.tab.sessions {
      TrackedRecords(s, id);
    }
  }

  // Exactly an open manager lets a request in, and only for a tracked session that does not expire.
  lemma RequestEntersExactlyWhen(cfg: Config, run: seq<Action>, t: nat, id: string)
    requires t !in Reached(cfg, run).threads
    ensures var s := Reached(cfg, run);
            var u := Step(s, ABeginRequest(t, id));
            t in u.threads <==> !s.p.closed && id in s.tab.sessions && Tracks(s, id, s.tab.sessions[id])
                                && !s.tab.recs[s.tab.sessions[id]].expiring
  {
    ReachedIs(cfg, run);
    hide Reached, ProcInv, RefsInv, FlowInv, DrainInv, TimerInv;
  }

  // And one pass of its loop dispatches it exactly if nothing is being replaced, no spawn has
  // failed, the process has not been seen to end, and its session is still there.
  lemma DispatchedExactlyWhen(cfg: Config, run: seq<Action>, t: nat, id: string, h: nat)
    requires var s := Reached(cfg, run); t in s.threads && s.threads[t] == RequestLoop(id, h)
    ensures var s := Reached(cfg, run);
            var u := Step(s, ARequestPass(t, false));
            && (u.threads[t] == Serving(h) <==>
                  && !s.p.closed && s.p.starting.None? && !s.p.spawnErr
                  && (s.p.downstream.Some? ==> s.p.downstream.value !in s.waited)
                  && Tracks(s, id, h) && !s.tab.recs[h].expiring)
            && u.flow.active == s.flow.active + if u.threads[t] == Serving(h) then 1 else 0
  {
    ReachedIs(cfg, run);
    hide Reached, ProcInv, RefsInv, FlowInv, DrainInv, TimerInv;
  }

  lemma AdmitTracks(s: State, t: nat, id: string, now: int)
    requires Inv(s) && !s.p.closed && t !in s.threads && id !in s.tab.sessions
    requires s.cfg.maxSessions <= 0 || |s.tab.sessions| < s.cfg.maxSessions
    ensures var u := Step(s, AAdmit(t, id, now));
            var h := s.tab.nextRec;
            && u.tab.sessions == s.tab.sessions[id := h] && u.tab.refCount == s.tab.refCount + 1
            && h in u.tab.recs && u.tab.recs[h] == Rec(now, 0, false, 1, false) && id in u.tab.upstream
            && u.threads == s.threads[t := WantDownstream(id, h)]
            && u.p == s.p && u.flow == s.flow && u.waited == s.waited && u.tm.idle.None?
  {
    hide RefsInv, FlowInv, DrainInv;
  }

  lemma ServingThread(s: State, t: nat, id: string, h: nat)
    requires Inv(s) && Up(s) && t in s.threads && s.threads[t] == WantDownstream(id, h)
    ensures Step(s, AAdmitEnsure(t)) == s.(threads := s.threads[t := Decided(id, h, true)])
  {
  }

  lemma RequestServed(s: State, t: nat, id: string, h: nat)
    requires Inv(s) && Up(s) && t !in s.threads && Tracks(s, id, h) && !s.tab.recs[h].expiring
    ensures var u := Step(Step(s, ABeginRequest(t, id)), ARequestPass(t, false));
            && u.threads == s.threads[t := Serving(h)] && u.flow.active == s.flow.active + 1 && u.p == s.p
            && u.tab.sessions == s.tab.sessions && h in u.tab.recs
            && u.tab.recs[h] == s.tab.recs[h].(inFlight := s.tab.recs[h].inFlight + 1)
  {
    hide RefsInv, FlowInv, DrainInv, TableInv, ProcInv;
  }

  // With a process up and room in the table a new session is admitted, its request is
  // dispatched, and the release takes back what the request took.
  lemma NewcomerIsServed(cfg: Config, run: seq<Action>, t: nat, id: string, now: int, later: int)
    requires var s := Reached(cfg, run);
             && Up(s) && t !in s.threads && id !in s.tab.sessions
             && (cfg.maxSessions <= 0 || |s.tab.sessions| < cfg.maxSessions)
    ensures var s := Reached(cfg, run);
            var h := s.tab.nextRec;
            var u := Run(s, [AAdmit(t, id, now), AAdmitEnsure(t), AAdmitTail(t, later)]);
            var v := Run(u, [ABeginRequest(t, id), ARequestPass(t, false)]);
            var w := Step(v, ARelease(t));
            && Admitted(u, id, h, later) && u.tab.refCount == s.tab.refCount + 1 && t !in u.threads
            && t in v.threads && v.threads[t] == Serving(h) && v.flow.active == s.flow.active + 1
            && t !in w.threads && w.flow.active == s.flow.active && Tracks(w, id, h) && w.tab.recs[h].inFlight == 0
  {
    var s := Reached(cfg, run);
    var h := s.tab.nextRec;
    ReachedIs(cfg, run);
    RunThree(s, AAdmit(t, id, now), AAdmitEnsure(t), AAdmitTail(t, later));
    hide Inv, Step, Run, Reached;
    AdmitTracks(s, t, id, now);
    StepKeeps(s, AAdmit(t, id, now));
    var a := Step(s, AAdmit(t, id, now));
    ServingThread(a, t, id, h);
    StepKeeps(a, AAdmitEnsure(t));
    var b := Step(a, AAdmitEnsure(t));
    TailSettles(b, t, id, h, later);
    StepKeeps(b, AAdmitTail(t, later));
    var u := Step(b, AAdmitTail(t, later));
    StillUp(b, t, later);
    RunTwo(u, ABeginRequest(t, id), ARequestPass(t, false));
    RequestServed(u, t, id, h);
    ReleaseTakesBack(Step(Step(u, ABeginRequest(t, id)), ARequestPass(t, false)), t, h);
  }

  lemma StillUp(s: State, t: nat, now: int)
    requires Up(s)
    ensures Up(Step(s, AAdmitTail(t, now)))
  {
    hide Settle, Arm;
  }

  lemma ReleaseTakesBack(s: State, t: nat, h: nat)
    requires t in s.threads && s.threads[t] == Serving(h) && h in s.tab.recs
    ensures var u := Step(s, ARelease(t));
            && t !in u.threads && u.flow.active == s.flow.active - 1 && u.tab.sessions == s.tab.sessions
            && h in u.tab.recs && u.tab.recs[h] == s.tab.recs[h].(inFlight := s.tab.recs[h].inFlight - 1)
  {
  }

  // What an admitted waiter is told: success with a live process, failure when the manager is
  // closed or his context has ended, and otherwise what the startup he waits for came to.
  lemma WaiterIsToldExactly(s: State, t: nat, id: string, h: nat, k: nat)
    ensures t in s.threads && s.threads[t] == WantDownstream(id, h) ==>
              var u := Step(s, AAdmitEnsure(t));
              && t in u.threads
              && (u.threads[t] == Decided(id, h, false) <==> s.p.closed)
              && (u.threads[t] == Decided(id, h, true) <==>
                    && !s.p.closed && s.p.starting.None? && s.p.downstream.Some? && s.p.downstream.value !in s.waited)
    ensures t in s.threads && s.threads[t] == AwaitStartup(id, h, k) ==>
              && Step(s, AAdmitWake(t, true)) == s.(threads := s.threads[t := Decided(id, h, false)])
              && Step(s, AAdmitWake(t, false))
                 == if k in s.p.results then s.(threads := s.threads[t := Decided(id, h, s.p.results[k])]) else s
  {
    hide Reserve;
  }

  // The same for a request: it goes on when the startup succeeded and is refused otherwise.
  lemma RequestIsToldExactly(s: State, t: nat, id: string, h: nat, k: nat)
    requires t in s.threads && s.threads[t] == RequestAwait(id, h, k)
    ensures Step(s, ARequestWake(t, true)) == s.(threads := s.threads[t := RequestRefused(h)])
    ensures Step(s, ARequestWake(t, false))
         == if k !in s.p.results then s
            else s.(threads := s.threads[t := if s.p.results[k] then RequestLoop(id, h) else RequestRefused(h)])
  {
  }

  // A refused request takes back its own count and no dispatched one.
  lemma RefusedRequestTakesBack(s: State, t: nat, h: nat)
    requires t in s.threads && s.threads[t] == RequestRefused(h) && h in s.tab.recs
    ensures var u := Step(s, ARelease(t));
            && u.threads == s.threads - {t} && u.flow == s.flow && u.p == s.p && u.tab.sessions == s.tab.sessions
            && u.tab.recs == s.tab.recs[h := s.tab.recs[h].(inFlight := s.tab.recs[h].inFlight - 1)]
  {
  }

  // An admission stops the idle timer; a timer that fires is pending no longer.
  lemma TimerIsStoppedOrFires(cfg: Config, run: seq<Action>, t: nat, id: string, now: int, k: nat)
    ensures var s := Reached(cfg, run);
            var u := Step(s, AAdmit(t, id, now));
            t !in s.threads && t in u.threads ==>
              u.tm.idle.None? && u.tm.pending == s.tm.pending - Elements(s.tm.idle) && u.tm.fired == s.tm.fired
    ensures var s := Reached(cfg, run);
            var u := Step(s, ATimerFires(k));
            if k in s.tm.pending then u.tm.pending == s.tm.pending - {k} && u.tm.fired == s.tm.fired + {k} && u.tm.idle == s.tm.idle
            else u == s
  {
    hide Reached, Track;
  }

  // A probe that is given up changes nothing. A process whose transport has died is seen to
  // have ended once its Wait returns, and not before it died.
  lemma DeathIsSeen(s: State, t: nat, ds: nat)
    ensures t in s.threads && s.threads[t].Probing? ==> Step(s, AHealthAbort(t)) == s.(threads := s.threads - {t})
    ensures ds in Step(Step(s, ATransportDies(ds)), AWaitReturns(ds)).waited
    ensures ds !in s.dead ==> Step(s, AWaitReturns(ds)) == s
  {
  }

  // ----- when a process is replaced or closed

  // Whoever looks a process up that has been seen to end gets a startup to wait for, which
  // replaces it without a drain; without a process he gets one, too.
  lemma LookupReplacesDeadProcess(cfg: Config, run: seq<Action>, t: nat, id: string, h: nat)
    requires var s := Reached(cfg, run);
             && t in s.threads && s.threads[t] == WantDownstream(id, h) && !s.p.closed && s.p.starting.None?
             && (s.p.downstream.Some? ==> s.p.downstream.value in s.waited)
    ensures var s := Reached(cfg, run);
            var u := Step(s, AAdmitEnsure(t));
            && u.p.starting.Some? && u.threads[t] == AwaitStartup(id, h, u.p.starting.value)
            && u.p.boot == Draining(s.p.downstream, None)
  {
    hide Reached;
  }

  // EnsureReady starts a process exactly if there is none that is up and none on its way.
  lemma EnsureReadyStartsExactlyWhen(cfg: Config, run: seq<Action>)
    ensures var s := Reached(cfg, run);
            var u := Step(s, AEnsureReady);
            && (u.p.starting != s.p.starting <==>
                  && !s.p.closed && s.p.starting.None?
                  && (s.p.downstream.Some? ==> s.p.downstream.value in s.waited))
            && (u.p.starting == s.p.starting ==> u == s)
            && (u.p.starting != s.p.starting ==> u.p.starting.Some? && u.p.boot == Draining(s.p.downstream, None))
  {
    hide Reached;
  }

  // A request that finds a failed spawn behind it, and no process, starts the next one.
  lemma FailedSpawnIsRetried(cfg: Config, run: seq<Action>, t: nat, id: string, h: nat)
    requires var s := Reached(cfg, run);
             && t in s.threads && s.threads[t] == RequestLoop(id, h) && !s.p.closed && s.p.starting.None?
             && s.p.spawnErr && s.p.downstream.None?
    ensures var u := Run(Reached(cfg, run), [ARequestPass(t, false), ARequestGet(t)]);
            u.p.starting.Some? && t in u.threads && u.threads[t] == RequestAwait(id, h, u.p.starting.value)
  {
    hide Reached;
    RunTwo(Reached(cfg, run), ARequestPass(t, false), ARequestGet(t));
  }

  // A failed spawn is remembered, and a published process clears the memory.
  lemma SpawnErrorFollowsConnect(s: State)
    requires !s.p.closed
    ensures s.p.boot.ConnectFailed? ==> Step(s, ABootPublish).p.spawnErr && Step(s, ABootPublish).p.boot.Failing?
    ensures s.p.boot.Connected? ==>
              var p := Step(s, ABootPublish).p; !p.spawnErr && p.downstream == Some(s.p.boot.ds) && p.boot == Published(s.p.boot.ds)
  {
  }

  // One probe: the snapshot and what is made of its result.
  function Probed(s: State, t: nat, v: Verdict): State { Step(Step(s, AHealthSnapshot(t)), AHealthVerdict(t, v)) }

  lemma ProbeCounts(s: State, t: nat, v: Verdict)
    requires Up(s) && t !in s.threads && (v.ConnectionClosed? ==> s.p.downstream.value in s.dead)
    ensures var u := Probed(s, t, v);
            && u.threads == s.threads && u.waited == s.waited && u.dead == s.dead && u.tab == s.tab && u.flow.active == s.flow.active
            && (v.Healthy? || (v.ProbeFailed? && s.p.failures + 1 < 3) ==>
                  Up(u) && u.p.downstream == s.p.downstream && u.p.failures == if v.Healthy? then 0 else s.p.failures + 1)
            && (v.ConnectionClosed? || (v.ProbeFailed? && s.p.failures + 1 >= 3) ==>
                  && u.p.starting.Some? && u.p.boot.Draining? && u.p.boot.prior == s.p.downstream
                  && (u.p.boot.drain.None? <==> v.ConnectionClosed? || s.flow.active == 0)
                  && u.flow.drained == if u.p.boot.drain.Some? then u.p.boot.drain else s.flow.drained)
  {
    hide Arm;
    var m := Step(s, AHealthSnapshot(t));
    assert m == s.(threads := s.threads[t := Probing(s.p.downstream.value)]);
    assert m.threads - {t} == s.threads;
  }

  // A process that has answered is replaced by the third failed probe in a row and by no
  // earlier one; the replacement waits for the requests under way, if there are any.
  lemma ThirdFailureReplaces(cfg: Config, run: seq<Action>, t: nat)
    requires Up(Reached(cfg, run)) && t !in Reached(cfg, run).threads
    ensures var s := Reached(cfg, run);
            var healthy := Probed(s, t, Healthy);
            var once := Probed(healthy, t, ProbeFailed);
            var twice := Probed(once, t, ProbeFailed);
            var thrice := Probed(twice, t, ProbeFailed);
            && healthy.p.starting.None? && once.p.starting.None? && twice.p.starting.None?
            && thrice.p.starting.Some? && thrice.p.boot.Draining? && thrice.p.boot.prior == s.p.downstream
            && (thrice.p.boot.drain.Some? <==> s.flow.active != 0)
  {
    var s := Reached(cfg, run);
    hide Reached, Probed;
    ProbeCounts(s, t, Healthy);
    var healthy := Probed(s, t, Healthy);
    ProbeCounts(healthy, t, ProbeFailed);
    var once := Probed(healthy, t, ProbeFailed);
    ProbeCounts(once, t, ProbeFailed);
    var twice := Probed(once, t, ProbeFailed);
    ProbeCounts(twice, t, ProbeFailed);
  }

  // A process whose connection is known to be closed is replaced by the first probe, without
  // waiting for anybody.
  lemma ClosedConnectionReplacesAtOnce(cfg: Config, run: seq<Action>, t: nat)
    requires var s := Reached(cfg, run); Up(s) && t !in s.threads && s.p.downstream.value in s.dead
    ensures var s := Reached(cfg, run);
            var u := Probed(s, t, ConnectionClosed);
            u.p.starting.Some? && u.p.boot == Draining(s.p.downstream, None)
  {
    hide Reached, Probed;
    ProbeCounts(Reached(cfg, run), t, ConnectionClosed);
  }

  // The timer of an unreferenced process, once it fires, closes the process.
  lemma IdleProcessIsClosed(cfg: Config, run: seq<Action>)
    requires Unreferenced(Reached(cfg, run)) && Reached(cfg, run).flow.active == 0
    ensures var s := Reached(cfg, run);
            s.tm.idle.Some? &&
            var u := Run(s, [ATimerFires(s.tm.idle.value), AIdleCallback(s.tm.idle.value)]);
            && u.p.downstream.None? && s.p.downstream.value !in u.p.open && s.p.downstream.value in u.dead
            && u.tm.idle.None? && u.tab == s.tab
  {
    ReachedIs(cfg, run);
    UnreferencedProcessIsReaped(cfg, run);
    var s := Reached(cfg, run);
    hide Reached, Inv;
    RunTwo(s, ATimerFires(s.tm.idle.value), AIdleCallback(s.tm.idle.value));
  }

  // The last reference gone, the timer runs; with idle reaping disabled it never does.
  lemma LastRemovalArmsTheTimer(cfg: Config, run: seq<Action>, id: string)
    requires var s := Reached(cfg, run); id in s.tab.sessions && |s.tab.sessions| == 1 && !s.p.closed
    ensures var s := Reached(cfg, run);
            var u := Step(s, ARemoveSession(id));
            && id !in u.tab.sessions && u.tab.refCount == 0
            && (cfg.idleTimeout > 0 ==> u.tm.idle.Some? && u.tm.idle.value in u.tm.pending)
            && (cfg.idleTimeout <= 0 ==> u.tm == s.tm)
  {
    ReachedIs(cfg, run);
    hide Reached, ProcInv, RefsInv, FlowInv, DrainInv;
  }

  // The reaper marks exactly the tracked sessions without requests that have been idle longer
  // than the timeout; activity starts the time anew.
  lemma ExpiryMarksExactly(cfg: Config, run: seq<Action>, id: string, now: int, touched: int)
    requires var s := Reached(cfg, run);
             id in s.tab.sessions && Tracks(s, id, s.tab.sessions[id]) && !s.tab.recs[s.tab.sessions[id]].expiring
    ensures var s := Reached(cfg, run);
            var h := s.tab.sessions[id];
            var u := Step(s, AMarkExpired(now));
            var v := Run(s, [ATouch(id, touched), AMarkExpired(now)]);
            && h in u.tab.recs && h in v.tab.recs
            && (u.tab.recs[h].expiring <==> Holding(s.threads, h) == {} && now - s.tab.recs[h].lastActivity > cfg.sessionTimeout)
            && (v.tab.recs[h].expiring <==> Holding(s.threads, h) == {} && now - touched > cfg.sessionTimeout)
  {
    ReachedIs(cfg, run);
    var s := Reached(cfg, run);
    var h := s.tab.sessions[id];
    RunTwo(s, ATouch(id, touched), AMarkExpired(now));
    FlightCount(s, h);
    hide Reached, Inv, Run, Holding;
    MarksRecord(s, id, now);
    MarksRecord(Step(s, ATouch(id, touched)), id, now);
  }

  lemma FlightCount(s: State, h: nat)
    requires Inv(s) && h in s.tab.recs
    ensures s.tab.recs[h].inFlight == 0 <==> Holding(s.threads, h) == {}
  {
  }

  lemma MarksRecord(s: State, id: string, now: int)
    requires id in s.tab.sessions && s.tab.sessions[id] in s.tab.recs && !s.tab.recs[s.tab.sessions[id]].expiring
    ensures var h := s.tab.sessions[id];
            var r := s.tab.recs[h];
            var u := Step(s, AMarkExpired(now));
            h in u.tab.recs && (u.tab.recs[h].expiring <==> r.inFlight == 0 && now - r.lastActivity > s.cfg.sessionTimeout)
  {
  }

  // ----- shutdown

  // How many sections the startup goroutine of a closed manager has left.
  function Remaining(boot: Boot): nat {
    match boot
    case NoBoot => 0
    case Draining(_, _) => 6
    case Closing(_) => 5
    case Connecting => 4
    case Dialing => 4
    case Connected(_) => 3
    case ConnectFailed => 3
    case Discarding(_) => 2
    case Published(_) => 1
    case Failing => 1
  }

  function ClosingSection(boot: Boot): Action {
    match boot
    case Draining(_, _) => ABootDetach
    case Closing(_) => ABootClose
    case Connecting => ABootCheck
    case Dialing => ABootConnect(false)
    case Discarding(_) => ABootDiscard
    case Published(_) => ABootFinish
    case Failing => ABootFinish
    case _ => ABootPublish
  }

  lemma ClosingAdvances(s: State)
    requires s.p.closed && !s.p.boot.NoBoot? && s.p.starting.Some?
    ensures var u := Step(s, ClosingSection(s.p.boot));
            u.p.closed && u.p.shutdown == s.p.shutdown && Remaining(u.p.boot) < Remaining(s.p.boot)
  {
    hide Step;
    if s.p.boot.Draining? || s.p.boot.Closing? {
      EarlySectionAdvances(s);
    } else if s.p.boot.Discarding? || s.p.boot.Published? || s.p.boot.Failing? {
      LastSectionAdvances(s);
    } else {
      MiddleSectionAdvances(s);
    }
  }

  lemma EarlySectionAdvances(s: State)
    requires s.p.closed && (s.p.boot.Draining? || s.p.boot.Closing?)
    ensures var u := Step(s, ClosingSection(s.p.boot));
            u.p.closed && u.p.shutdown == s.p.shutdown && Remaining(u.p.boot) < Remaining(s.p.boot)
  {
  }

  lemma MiddleSectionAdvances(s: State)
    requires s.p.closed && (s.p.boot.Connecting? || s.p.boot.Dialing? || s.p.boot.Connected? || s.p.boot.ConnectFailed?)
    ensures var u := Step(s, ClosingSection(s.p.boot));
            u.p.closed && u.p.shutdown == s.p.shutdown && Remaining(u.p.boot) < Remaining(s.p.boot)
  {
  }

  lemma LastSectionAdvances(s: State)
    requires s.p.closed && s.p.starting.Some? && (s.p.boot.Discarding? || s.p.boot.Published? || s.p.boot.Failing?)
    ensures var u := Step(s, ClosingSection(s.p.boot));
            u.p.closed && u.p.shutdown == s.p.shutdown && Remaining(u.p.boot) < Remaining(s.p.boot)
  {
    hide Arm;
  }

  lemma StartupIsReserved(s: State)
    requires Inv(s)
    ensures s.p.starting.Some? <==> !s.p.boot.NoBoot?
  {
  }

  lemma {:induction false} GoroutineEnds(s: State) returns (run: seq<Action>)
    requires Inv(s) && s.p.closed
    ensures var u := Run(s, run); Inv(u) && u.p.closed && u.p.shutdown == s.p.shutdown && u.p.boot.NoBoot?
    decreases Remaining(s.p.boot)
  {
    hide Inv, Step;
    if s.p.boot.NoBoot? {
      run := [];
    } else {
      var a := ClosingSection(s.p.boot);
      StartupIsReserved(s);
      ClosingAdvances(s);
      StepKeeps(s, a);
      var rest := GoroutineEnds(Step(s, a));
      run := [a] + rest;
      assert run[1..] == rest;
    }
  }

  // CloseAll gets to its end from every reachable state, whatever the startup goroutine is at.
  lemma ShutdownCompletes(cfg: Config, run: seq<Action>)
    ensures exists more :: Run(Reached(cfg, run), more).p.shutdown.Returned?
  {
    var s := Reached(cfg, run);
    ReachedKeeps(cfg, run);
    hide Reached, Inv, Step;
    var first := [ACloseAll, ACloseAllProcess];
    RunTwo(s, ACloseAll, ACloseAllProcess);
    StepKeeps(s, ACloseAll);
    StepKeeps(Step(s, ACloseAll), ACloseAllProcess);
    ClosesProcess(s);
    var boot := GoroutineEnds(Run(s, first));
    RunConcat(s, first, boot);
    RunConcat(s, first + boot, [ACloseAllReturn]);
    var v := Run(s, first + boot);
    ReturnsAtLast(v);
    assert Run(v, [ACloseAllReturn]) == Step(v, ACloseAllReturn);
  }

  lemma ClosesProcess(s: State)
    requires Inv(s)
    ensures var u := Step(Step(s, ACloseAll), ACloseAllProcess);
            u.p.closed && (u.p.shutdown.AwaitingStartup? || u.p.shutdown.Returned?)
  {
    assert s.p.closed <==> !s.p.shutdown.NotBegun?;
    hide Inv, Step;
    ShutdownBegins(s);
    ProcessIsTaken(Step(s, ACloseAll));
  }

  lemma ShutdownBegins(s: State)
    requires s.p.closed <==> !s.p.shutdown.NotBegun?
    ensures Step(s, ACloseAll).p.closed && !Step(s, ACloseAll).p.shutdown.NotBegun?
  {
    hide StopTimer;
  }

  lemma ProcessIsTaken(s: State)
    ensures var u := Step(s, ACloseAllProcess);
            u.p.closed == s.p.closed && (!s.p.shutdown.NotBegun? ==> u.p.shutdown.AwaitingStartup? || u.p.shutdown.Returned?)
  {
  }

  lemma ReturnsAtLast(s: State)
    requires Inv(s) && s.p.boot.NoBoot? && (s.p.shutdown.AwaitingStartup? || s.p.shutdown.Returned?)
    ensures Step(s, ACloseAllReturn).p.shutdown.Returned?
  {
    hide TableInv, RefsInv, FlowInv, DrainInv, TimerInv;
  }
}

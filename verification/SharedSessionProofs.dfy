/**
 The invariant of the shared session manager is kept by every action, and what follows
 from it for every run.
*/
module SharedSessionProofs {
  import opened Wrappers
  import opened SharedSession

  // ----- counting goroutines

  predicate WaitsAt(threads: map<nat, Pc>, t: nat, h: nat) { t in threads && WaitsOn(threads[t], h) }

  predicate HoldsAt(threads: map<nat, Pc>, t: nat, h: nat) { t in threads && HoldsFlight(threads[t], h) }

  predicate ServesAt(threads: map<nat, Pc>, t: nat) { t in threads && threads[t].Serving? }

  function One(b: bool): int { if b then 1 else 0 }

  // Only goroutine t differs.
  ghost predicate Moved(th: map<nat, Pc>, th': map<nat, Pc>, t: nat) {
    forall u :: u != t ==> (u in th <==> u in th') && (u in th ==> th[u] == th'[u])
  }

  lemma OneOff(s: set<nat>, s': set<nat>, t: nat)
    requires s - {t} == s' - {t}
    ensures |s'| == |s| - One(t in s) + One(t in s')
  {
    assert t in s ==> s == (s - {t}) + {t};
    assert t !in s ==> s == s - {t};
    assert t in s' ==> s' == (s' - {t}) + {t};
    assert t !in s' ==> s' == s' - {t};
  }

  lemma WaitingMoves(th: map<nat, Pc>, th': map<nat, Pc>, t: nat, h: nat)
    requires Moved(th, th', t)
    ensures |Waiting(th', h)| == |Waiting(th, h)| - One(WaitsAt(th, t, h)) + One(WaitsAt(th', t, h))
  {
    assert Waiting(th', h) - {t} == Waiting(th, h) - {t};
    OneOff(Waiting(th, h), Waiting(th', h), t);
  }

  lemma HoldingMoves(th: map<nat, Pc>, th': map<nat, Pc>, t: nat, h: nat)
    requires Moved(th, th', t)
    ensures |Holding(th', h)| == |Holding(th, h)| - One(HoldsAt(th, t, h)) + One(HoldsAt(th', t, h))
  {
    assert Holding(th', h) - {t} == Holding(th, h) - {t};
    OneOff(Holding(th, h), Holding(th', h), t);
  }

  lemma DispatchedMoves(th: map<nat, Pc>, th': map<nat, Pc>, t: nat)
    requires Moved(th, th', t)
    ensures |Dispatched(th')| == |Dispatched(th)| - One(ServesAt(th, t)) + One(ServesAt(th', t))
  {
    assert Dispatched(th') - {t} == Dispatched(th) - {t};
    OneOff(Dispatched(th), Dispatched(th'), t);
  }

  lemma FlightMoves(recs: map<nat, Rec>, recs': map<nat, Rec>, th: map<nat, Pc>, th': map<nat, Pc>, t: nat)
    requires FlightInv(recs, th) && Moved(th, th', t) && recs.Keys == recs'.Keys
    requires forall h :: h in recs ==>
      recs'[h].inFlight == recs[h].inFlight - One(HoldsAt(th, t, h)) + One(HoldsAt(th', t, h))
    ensures FlightInv(recs', th')
  {
    forall h | h in recs' ensures recs'[h].inFlight == |Holding(th', h)| { HoldingMoves(th, th', t, h); }
  }

  lemma PendingMoves(tab: Table, tab': Table, th: map<nat, Pc>, th': map<nat, Pc>, t: nat)
    requires PendingInv(tab, th) && Moved(th, th', t) && tab.recs.Keys == tab'.recs.Keys
    requires tab'.sessions.Values <= tab.sessions.Values
    requires forall h :: h in tab.recs && h in tab'.sessions.Values ==>
      tab'.recs[h].pending == tab.recs[h].pending - One(WaitsAt(th, t, h)) + One(WaitsAt(th', t, h))
    ensures PendingInv(tab', th')
  {
    forall h | h in tab'.recs && h in tab'.sessions.Values ensures tab'.recs[h].pending == |Waiting(th', h)| {
      WaitingMoves(th, th', t, h);
    }
  }

  // ----- every section keeps what it is responsible for

  lemma TrackKeeps(cfg: Config, tab: Table, active: int, th: map<nat, Pc>, id: string, now: int)
    requires TableInv(cfg, tab) && RefsInv(tab, active, th)
    requires id in tab.upstream || cfg.maxSessions <= 0 || tab.refCount < cfg.maxSessions
    ensures TableInv(cfg, Track(tab, id, now)) && RefsInv(Track(tab, id, now), active, th)
    ensures Track(tab, id, now).refCount >= 1
    ensures id in Track(tab, id, now).sessions && Track(tab, id, now).sessions[id] in Track(tab, id, now).recs
  {
    if id in tab.upstream {
      assert id in tab.sessions;
      assert |tab.sessions| > 0;
    } else {
      TrackKeepsTable(cfg, tab, id, now);
      TrackKeepsRefs(cfg, tab, active, th, id, now);
    }
  }

  lemma TrackKeepsTable(cfg: Config, tab: Table, id: string, now: int)
    requires TableInv(cfg, tab) && id !in tab.upstream
    requires cfg.maxSessions <= 0 || tab.refCount < cfg.maxSessions
    ensures TableInv(cfg, Track(tab, id, now)) && Track(tab, id, now).refCount >= 1
  {
    var tab' := Track(tab, id, now);
    assert tab'.sessions.Keys == tab.sessions.Keys + {id};
    assert |tab'.sessions| == |tab'.sessions.Keys|;
    assert tab.nextRec !in tab.recs;
  }

  lemma TrackKeepsRefs(cfg: Config, tab: Table, active: int, th: map<nat, Pc>, id: string, now: int)
    requires TableInv(cfg, tab) && RefsInv(tab, active, th) && id !in tab.upstream
    ensures RefsInv(Track(tab, id, now), active, th)
  {
    hide TableInv, ThreadInv, FlightInv, PendingInv;
    TrackKeepsThreads(cfg, tab, th, id, now);
    TrackKeepsCounts(cfg, tab, th, id, now);
  }

  lemma ValuesGrow(m: map<string, nat>, id: string, v: nat)
    requires id !in m
    ensures m[id := v].Values == m.Values + {v}
  {
    forall k | k in m.Values + {v} ensures k in m[id := v].Values {
      if k == v {
        assert m[id := v][id] == k;
      } else {
        var i :| i in m && m[i] == k;
        assert m[id := v][i] == k;
      }
    }
  }

  lemma FreshRecord(cfg: Config, tab: Table, id: string)
    requires TableInv(cfg, tab) && id !in tab.upstream
    ensures tab.nextRec !in tab.recs && id !in tab.sessions
  {
  }

  lemma TrackKeepsThreads(cfg: Config, tab: Table, th: map<nat, Pc>, id: string, now: int)
    requires TableInv(cfg, tab) && ThreadInv(tab, th) && id !in tab.upstream
    ensures ThreadInv(Track(tab, id, now), th)
    ensures Track(tab, id, now).sessions.Values == tab.sessions.Values + {tab.nextRec}
  {
    hide TableInv;
    FreshRecord(cfg, tab, id);
    ValuesGrow(tab.sessions, id, tab.nextRec);
  }

  lemma TrackKeepsCounts(cfg: Config, tab: Table, th: map<nat, Pc>, id: string, now: int)
    requires TableInv(cfg, tab) && ThreadInv(tab, th) && id !in tab.upstream
    requires FlightInv(tab.recs, th) && PendingInv(tab, th)
    ensures FlightInv(Track(tab, id, now).recs, th) && PendingInv(Track(tab, id, now), th)
  {
    hide TableInv;
    FreshRecord(cfg, tab, id);
    TrackKeepsThreads(cfg, tab, th, id, now);
    assert Holding(th, tab.nextRec) == {} && Waiting(th, tab.nextRec) == {};
  }

  // A table with the same records and no new sessions.
  ghost predicate Shrunk(tab: Table, tab': Table) {
    && tab.recs.Keys == tab'.recs.Keys
    && (forall id :: id in tab'.sessions ==> id in tab.sessions && tab.sessions[id] == tab'.sessions[id])
  }

  lemma ThreadsShrink(cfg: Config, tab: Table, tab': Table, th: map<nat, Pc>, th': map<nat, Pc>, t: nat)
    requires TableInv(cfg, tab) && ThreadInv(tab, th) && Shrunk(tab, tab') && Moved(th, th', t)
    requires t in th' ==> WellPlaced(tab', th'[t])
    ensures ThreadInv(tab', th') && tab'.sessions.Values <= tab.sessions.Values
  {
    forall h | h in tab'.sessions.Values ensures h in tab.sessions.Values {
      var id :| id in tab'.sessions && tab'.sessions[id] == h;
      assert tab.sessions[id] == h;
    }
    forall u | u in th' ensures WellPlaced(tab', th'[u]) {
      if u != t && !th[u].Probing? && IsWaiter(th[u]) && th[u].rec in tab'.sessions.Values {
        var id :| id in tab'.sessions && tab'.sessions[id] == th[u].rec;
        assert tab.sessions[th[u].id] == tab.sessions[id];
      }
    }
  }

  lemma RefsMove(cfg: Config, tab: Table, tab': Table, active: int, active': int,
                 th: map<nat, Pc>, th': map<nat, Pc>, t: nat)
    requires TableInv(cfg, tab) && RefsInv(tab, active, th) && Shrunk(tab, tab') && Moved(th, th', t)
    requires t in th' ==> WellPlaced(tab', th'[t])
    requires active' == active - One(ServesAt(th, t)) + One(ServesAt(th', t))
    requires forall h :: h in tab.recs ==>
      tab'.recs[h].inFlight == tab.recs[h].inFlight - One(HoldsAt(th, t, h)) + One(HoldsAt(th', t, h))
    requires forall h :: h in tab.recs && h in tab'.sessions.Values ==>
      tab'.recs[h].pending == tab.recs[h].pending - One(WaitsAt(th, t, h)) + One(WaitsAt(th', t, h))
    ensures RefsInv(tab', active', th')
  {
    ThreadsShrink(cfg, tab, tab', th, th', t);
    DispatchedMoves(th, th', t);
    FlightMoves(tab.recs, tab'.recs, th, th', t);
    PendingMoves(tab, tab', th, th', t);
  }

  lemma UntrackKeepsTable(cfg: Config, tab: Table, id: string)
    requires TableInv(cfg, tab) && id in tab.upstream
    ensures TableInv(cfg, Untrack(tab, id)) && Shrunk(tab, Untrack(tab, id)) && Untrack(tab, id).refCount >= 0
  {
    var tab' := Untrack(tab, id);
    assert tab.sessions.Keys == tab'.sessions.Keys + {id};
    assert |tab.sessions| == |tab.sessions.Keys| && |tab'.sessions| == |tab'.sessions.Keys|;
  }

  lemma ArmKeeps(cfg: Config, closed: bool, refCount: int, tm: Timers)
    requires TimerInv(tm)
    ensures TimerInv(Arm(cfg, closed, refCount, tm))
    ensures refCount == 0 && cfg.idleTimeout > 0 && !closed ==> ReapDue(Arm(cfg, closed, refCount, tm))
  {}

  lemma GetDownstreamKeeps(s: State)
    requires Inv(s)
    ensures var p := GetDownstream(s.p, DoneSeen(s)).0;
      ProcInv(p) && DrainInv(s.flow, p.boot, p.closed, s.dead) && p.closed == s.p.closed
      && (p == s.p || p.starting.Some?)
  {}

  // A new waiter on a tracked record.
  lemma PendKeeps(cfg: Config, tab: Table, active: int, th: map<nat, Pc>, t: nat, id: string)
    requires TableInv(cfg, tab) && RefsInv(tab, active, th) && id in tab.sessions && t !in th
    ensures var h := tab.sessions[id];
      var tab' := SetRec(tab, h, tab.recs[h].(pending := tab.recs[h].pending + 1));
      TableInv(cfg, tab') && RefsInv(tab', active, th[t := WantDownstream(id, h)])
  {
    var h := tab.sessions[id];
    UpstreamTracked(cfg, tab, id);
    var r := tab.recs[h].(pending := tab.recs[h].pending + 1);
    SetRecKeepsTable(cfg, tab, h, r);
    RefsMove(cfg, tab, SetRec(tab, h, r), active, active, th, th[t := WantDownstream(id, h)], t);
  }

  lemma AdmitKeeps(s: State, t: nat, id: string, now: int)
    requires Inv(s)
    ensures Inv(Admit(s, t, id, now))
  {
    hide ProcInv, FlowInv, DrainInv, RefsInv, TableInv, Track;
    if t !in s.threads && !s.p.closed && (id in s.tab.upstream || s.cfg.maxSessions <= 0 || s.tab.refCount < s.cfg.maxSessions) {
      var tab := Track(s.tab, id, now);
      TrackKeeps(s.cfg, s.tab, s.flow.active, s.threads, id, now);
      PendKeeps(s.cfg, tab, s.flow.active, s.threads, t, id);
    }
  }

  // A goroutine that moves on without changing what it holds or waits for.
  ghost predicate SameDuty(pc: Pc, pc': Pc) {
    pc.Probing? == pc'.Probing? && IsWaiter(pc) == IsWaiter(pc')
    && (!pc.Probing? ==> pc.rec == pc'.rec) && (IsWaiter(pc) ==> pc.id == pc'.id)
  }

  lemma RefsContinue(cfg: Config, tab: Table, active: int, th: map<nat, Pc>, t: nat, pc': Pc)
    requires TableInv(cfg, tab) && RefsInv(tab, active, th) && t in th && SameDuty(th[t], pc')
    ensures RefsInv(tab, active - One(th[t].Serving?) + One(pc'.Serving?), th[t := pc'])
  {
    RefsMove(cfg, tab, tab, active, active - One(th[t].Serving?) + One(pc'.Serving?), th, th[t := pc'], t);
  }

  lemma AdmitEnsureKeeps(s: State, t: nat)
    requires Inv(s)
    ensures Inv(AdmitEnsure(s, t))
  {
    if t in s.threads && s.threads[t].WantDownstream? {
      GetDownstreamKeeps(s);
      RefsContinue(s.cfg, s.tab, s.flow.active, s.threads, t, AdmitEnsure(s, t).threads[t]);
    }
  }

  lemma AdmitWakeKeeps(s: State, t: nat, cancelled: bool)
    requires Inv(s)
    ensures Inv(AdmitWake(s, t, cancelled))
  {
    if AdmitWake(s, t, cancelled) != s {
      RefsContinue(s.cfg, s.tab, s.flow.active, s.threads, t, AdmitWake(s, t, cancelled).threads[t]);
    }
  }

  lemma SetRecKeepsTable(cfg: Config, tab: Table, h: nat, r: Rec)
    requires TableInv(cfg, tab) && h in tab.recs && (r.expiring ==> r.inFlight == 0)
    ensures TableInv(cfg, SetRec(tab, h, r)) && Shrunk(tab, SetRec(tab, h, r))
  {}

  lemma UpstreamTracked(cfg: Config, tab: Table, id: string)
    requires TableInv(cfg, tab) && id in tab.sessions
    ensures id in tab.upstream && tab.sessions[id] in tab.recs
    ensures var r := tab.recs[tab.sessions[id]]; r.expiring ==> r.inFlight == 0
  {
  }

  lemma SettleKeepsTable(cfg: Config, tab: Table, id: string, h: nat, ok: bool, now: int)
    requires TableInv(cfg, tab) && id in tab.sessions && tab.sessions[id] == h
    ensures var tab' := Settle(tab, id, h, ok, now);
      TableInv(cfg, tab') && Shrunk(tab, tab') && (id in tab'.sessions ==> tab'.refCount == tab.refCount)
  {
    hide TableInv;
    UpstreamTracked(cfg, tab, id);
    var r := tab.recs[h].(pending := tab.recs[h].pending - 1);
    if ok {
      SetRecKeepsTable(cfg, tab, h, r.(admitted := true, lastActivity := now));
    } else {
      SetRecKeepsTable(cfg, tab, h, r);
      UntrackKeepsTable(cfg, SetRec(tab, h, r), id);
    }
  }

  // One waiter stops waiting on a tracked record.
  lemma UnpendKeepsRefs(cfg: Config, tab: Table, active: int, th: map<nat, Pc>, t: nat)
    requires TableInv(cfg, tab) && RefsInv(tab, active, th) && t in th && th[t].Decided?
    requires th[t].id in tab.sessions && tab.sessions[th[t].id] == th[t].rec
    ensures var h := th[t].rec;
      RefsInv(SetRec(tab, h, tab.recs[h].(pending := tab.recs[h].pending - 1)), active, th - {t})
  {
    var h := th[t].rec;
    var mid := SetRec(tab, h, tab.recs[h].(pending := tab.recs[h].pending - 1));
    RefsMove(cfg, tab, mid, active, active, th, th - {t}, t);
  }

  lemma SettleKeepsRefs(cfg: Config, tab: Table, active: int, th: map<nat, Pc>, t: nat, now: int)
    requires TableInv(cfg, tab) && RefsInv(tab, active, th) && t in th && th[t].Decided?
    requires th[t].id in tab.sessions && tab.sessions[th[t].id] == th[t].rec
    ensures RefsInv(Settle(tab, th[t].id, th[t].rec, th[t].ok, now), active, th - {t})
  {
    var h := th[t].rec;
    UpstreamTracked(cfg, tab, th[t].id);
    var r := tab.recs[h].(pending := tab.recs[h].pending - 1);
    UnpendKeepsRefs(cfg, tab, active, th, t);
    SetRecKeepsTable(cfg, tab, h, r);
    SettledKeepsRefs(cfg, SetRec(tab, h, r), active, th - {t}, th[t].id, h, th[t].ok, now);
    hide TableInv, RefsInv;
    SettleInParts(tab, th[t].id, h, th[t].ok, now);
  }

  // What the end of an admission does after it has stopped waiting: it admits the record,
  // untracks it, or leaves it.
  function Settled(tab: Table, id: string, h: nat, ok: bool, now: int): Table
    requires h in tab.recs
  {
    if ok then SetRec(tab, h, tab.recs[h].(admitted := true, lastActivity := now))
    else if !tab.recs[h].admitted && tab.recs[h].pending == 0 then Untrack(tab, id)
    else tab
  }

  lemma SettleInParts(tab: Table, id: string, h: nat, ok: bool, now: int)
    requires h in tab.recs
    ensures Settle(tab, id, h, ok, now) ==
            Settled(SetRec(tab, h, tab.recs[h].(pending := tab.recs[h].pending - 1)), id, h, ok, now)
  {
    var r := tab.recs[h].(pending := tab.recs[h].pending - 1);
    var done := r.(admitted := true, lastActivity := now);
    assert tab.recs[h := r][h := done] == tab.recs[h := done];
  }

  lemma SettledKeepsRefs(cfg: Config, tab: Table, active: int, th: map<nat, Pc>, id: string, h: nat, ok: bool, now: int)
    requires TableInv(cfg, tab) && RefsInv(tab, active, th) && h in tab.recs
    ensures RefsInv(Settled(tab, id, h, ok, now), active, th)
  {
    var tab' := Settled(tab, id, h, ok, now);
    assert Shrunk(tab, tab');
    RecsKeepRefs(cfg, tab, tab', active, th);
  }

  // No goroutine moves, and the counters stay.
  lemma RecsKeepRefs(cfg: Config, tab: Table, tab': Table, active: int, th: map<nat, Pc>)
    requires TableInv(cfg, tab) && RefsInv(tab, active, th) && Shrunk(tab, tab')
    requires forall h <- tab.recs :: tab'.recs[h].inFlight == tab.recs[h].inFlight && tab'.recs[h].pending == tab.recs[h].pending
    ensures RefsInv(tab', active, th)
  {
    RefsMove(cfg, tab, tab', active, active, th, th, 0);
  }

  lemma AdmitTailKeeps(s: State, t: nat, now: int)
    requires Inv(s)
    ensures Inv(AdmitTail(s, t, now))
  {
    if t in s.threads && s.threads[t].Decided? {
      var pc := s.threads[t];
      if pc.id in s.tab.sessions && s.tab.sessions[pc.id] == pc.rec {
        SettleKeepsTable(s.cfg, s.tab, pc.id, pc.rec, pc.ok, now);
        SettleKeepsRefs(s.cfg, s.tab, s.flow.active, s.threads, t, now);
        ArmKeeps(s.cfg, s.p.closed, Settle(s.tab, pc.id, pc.rec, pc.ok, now).refCount, s.tm);
      } else {
        RefsMove(s.cfg, s.tab, s.tab, s.flow.active, s.flow.active, s.threads, s.threads - {t}, t);
      }
    }
  }

  lemma EnsureReadyKeeps(s: State)
    requires Inv(s)
    ensures Inv(EnsureReady(s))
  {
    GetDownstreamKeeps(s);
  }

  lemma RemoveSessionKeeps(s: State, id: string)
    requires Inv(s)
    ensures Inv(RemoveSession(s, id))
  {
    if id in s.tab.upstream {
      var z := RemoveSession(s, id);
      UntrackKeepsTable(s.cfg, s.tab, id);
      ArmKeeps(s.cfg, s.p.closed, z.tab.refCount, s.tm);
      RefsMove(s.cfg, s.tab, z.tab, s.flow.active, s.flow.active, s.threads, s.threads, 0);
    }
  }

  lemma TouchSessionKeeps(s: State, id: string, now: int)
    requires Inv(s)
    ensures Inv(TouchSession(s, id, now))
  {
    hide ProcInv, TimerInv, FlowInv, DrainInv, TableInv, FlightInv, PendingInv;
    if id in s.tab.sessions && s.tab.sessions[id] in s.tab.recs && !s.tab.recs[s.tab.sessions[id]].expiring {
      var h := s.tab.sessions[id];
      var tab' := SetRec(s.tab, h, s.tab.recs[h].(lastActivity := now));
      SetRecKeepsTable(s.cfg, s.tab, h, s.tab.recs[h].(lastActivity := now));
      RefsMove(s.cfg, s.tab, tab', s.flow.active, s.flow.active, s.threads, s.threads, 0);
    }
  }

  lemma BeginRequestKeeps(s: State, t: nat, id: string)
    requires Inv(s)
    ensures Inv(BeginRequest(s, t, id))
  {
    hide ProcInv, FlowInv, DrainInv, TimerInv, TableInv, RefsInv;
    if t !in s.threads && !s.p.closed && id in s.tab.sessions && s.tab.sessions[id] in s.tab.recs {
      var h := s.tab.sessions[id];
      if !s.tab.recs[h].expiring {
        EnterKeeps(s.cfg, s.tab, s.flow.active, s.threads, t, id, h);
      }
    }
  }

  // A new request on a record that is not expiring.
  lemma EnterKeeps(cfg: Config, tab: Table, active: int, th: map<nat, Pc>, t: nat, id: string, h: nat)
    requires TableInv(cfg, tab) && RefsInv(tab, active, th) && h in tab.recs && t !in th && !tab.recs[h].expiring
    ensures var tab' := SetRec(tab, h, tab.recs[h].(inFlight := tab.recs[h].inFlight + 1));
      TableInv(cfg, tab') && RefsInv(tab', active, th[t := RequestLoop(id, h)])
  {
    var r := tab.recs[h].(inFlight := tab.recs[h].inFlight + 1);
    SetRecKeepsTable(cfg, tab, h, r);
    RefsMove(cfg, tab, SetRec(tab, h, r), active, active, th, th[t := RequestLoop(id, h)], t);
  }

  // A dispatch happens only while no replacement is reserved.
  lemma DispatchKeeps(s: State)
    requires Inv(s) && s.p.starting.None?
    ensures var f := s.flow.(active := s.flow.active + 1);
      FlowInv(f) && DrainInv(f, s.p.boot, s.p.closed, s.dead)
  {}

  lemma RequestPassKeeps(s: State, t: nat, cancelled: bool)
    requires Inv(s)
    ensures Inv(RequestPass(s, t, cancelled))
  {
    hide ProcInv, TableInv, TimerInv, RefsInv;
    if t in s.threads && s.threads[t].RequestLoop? {
      var z := RequestPass(s, t, cancelled);
      RefsContinue(s.cfg, s.tab, s.flow.active, s.threads, t, z.threads[t]);
      if z.threads[t].Serving? { DispatchKeeps(s); }
    }
  }

  lemma RequestGetKeeps(s: State, t: nat)
    requires Inv(s)
    ensures Inv(RequestGet(s, t))
  {
    if t in s.threads && s.threads[t].RequestEnsure? {
      GetDownstreamKeeps(s);
      RefsContinue(s.cfg, s.tab, s.flow.active, s.threads, t, RequestGet(s, t).threads[t]);
    }
  }

  lemma RequestWakeKeeps(s: State, t: nat, cancelled: bool)
    requires Inv(s)
    ensures Inv(RequestWake(s, t, cancelled))
  {
    if RequestWake(s, t, cancelled) != s {
      RefsContinue(s.cfg, s.tab, s.flow.active, s.threads, t, RequestWake(s, t, cancelled).threads[t]);
    }
  }

  lemma FinishedKeeps(f: Flow, boot: Boot, closed: bool, dead: set<nat>)
    requires FlowInv(f) && f.active > 0 && DrainInv(f, boot, closed, dead)
    ensures FlowInv(Finished(f)) && DrainInv(Finished(f), boot, closed, dead)
    ensures Finished(f).active == f.active - 1
  {}

  lemma PlacedAt(tab: Table, th: map<nat, Pc>, t: nat)
    requires ThreadInv(tab, th) && t in th
    ensures WellPlaced(tab, th[t])
  {
  }

  lemma HolderCounted(recs: map<nat, Rec>, th: map<nat, Pc>, t: nat)
    requires FlightInv(recs, th) && t in th && !th[t].Probing? && th[t].rec in recs && HoldsFlight(th[t], th[t].rec)
    ensures recs[th[t].rec].inFlight > 0
  {
    assert t in Holding(th, th[t].rec);
  }

  // The hypothesis of RefsMove about the counters, under one name.
  ghost predicate RefsMoved(tab: Table, tab': Table, th: map<nat, Pc>, th': map<nat, Pc>, t: nat)
    requires tab.recs.Keys == tab'.recs.Keys
  {
    && (forall h :: h in tab.recs ==>
          tab'.recs[h].inFlight == tab.recs[h].inFlight - One(HoldsAt(th, t, h)) + One(HoldsAt(th', t, h)))
    && (forall h :: h in tab.recs && h in tab'.sessions.Values ==>
          tab'.recs[h].pending == tab.recs[h].pending - One(WaitsAt(th, t, h)) + One(WaitsAt(th', t, h)))
  }

  lemma RefsMoveAll(cfg: Config, tab: Table, tab': Table, active: int, active': int,
                    th: map<nat, Pc>, th': map<nat, Pc>, t: nat)
    requires TableInv(cfg, tab) && RefsInv(tab, active, th) && Shrunk(tab, tab') && Moved(th, th', t) && t !in th'
    requires active' == active - One(ServesAt(th, t)) && RefsMoved(tab, tab', th, th', t)
    ensures RefsInv(tab', active', th')
  {
    RefsMove(cfg, tab, tab', active, active', th, th', t);
  }

  lemma ReleasedRecord(cfg: Config, tab: Table, h: nat)
    requires TableInv(cfg, tab) && h in tab.recs && tab.recs[h].inFlight > 0
    ensures var tab' := SetRec(tab, h, tab.recs[h].(inFlight := tab.recs[h].inFlight - 1));
      TableInv(cfg, tab') && Shrunk(tab, tab')
  {
    SetRecKeepsTable(cfg, tab, h, tab.recs[h].(inFlight := tab.recs[h].inFlight - 1));
  }

  lemma ReleaseMoves(tab: Table, th: map<nat, Pc>, t: nat)
    requires t in th && (th[t].RequestRefused? || th[t].Serving?) && th[t].rec in tab.recs
    ensures var r := tab.recs[th[t].rec];
      RefsMoved(tab, SetRec(tab, th[t].rec, r.(inFlight := r.inFlight - 1)), th, th - {t}, t)
  {
  }

  lemma MovedAway(th: map<nat, Pc>, t: nat)
    ensures Moved(th, th - {t}, t)
  {
  }

  lemma ReleaserCounted(tab: Table, active: int, th: map<nat, Pc>, t: nat)
    requires RefsInv(tab, active, th) && t in th && (th[t].RequestRefused? || th[t].Serving?)
    ensures th[t].rec in tab.recs && tab.recs[th[t].rec].inFlight > 0
    ensures th[t].Serving? ==> active > 0
  {
    hide FlightInv, PendingInv;
    PlacedAt(tab, th, t);
    HolderCounted(tab.recs, th, t);
    assert th[t].Serving? ==> t in Dispatched(th);
  }

  lemma ReleaseKeepsRefs(cfg: Config, tab: Table, active: int, th: map<nat, Pc>, t: nat)
    requires TableInv(cfg, tab) && RefsInv(tab, active, th) && t in th && (th[t].RequestRefused? || th[t].Serving?)
    ensures var r := tab.recs[th[t].rec];
      var tab' := SetRec(tab, th[t].rec, r.(inFlight := r.inFlight - 1));
      TableInv(cfg, tab') && RefsInv(tab', active - One(th[t].Serving?), th - {t}) && (th[t].Serving? ==> active > 0)
  {
    hide TableInv, RefsInv, RefsMoved, Moved;
    ReleaserCounted(tab, active, th, t);
    MovedAway(th, t);
    var r := tab.recs[th[t].rec];
    var tab' := SetRec(tab, th[t].rec, r.(inFlight := r.inFlight - 1));
    ReleasedRecord(cfg, tab, th[t].rec);
    ReleaseMoves(tab, th, t);
    RefsMoveAll(cfg, tab, tab', active, active - One(th[t].Serving?), th, th - {t}, t);
  }

  lemma ReleaseKeeps(s: State, t: nat)
    requires Inv(s)
    ensures Inv(Release(s, t))
  {
    hide ProcInv, TableInv, TimerInv, FlowInv, DrainInv, RefsInv;
    if t in s.threads && (s.threads[t].RequestRefused? || s.threads[t].Serving?) {
      ReleaseKeepsRefs(s.cfg, s.tab, s.flow.active, s.threads, t);
      if s.threads[t].Serving? { FinishedKeeps(s.flow, s.p.boot, s.p.closed, s.dead); }
    }
  }

  lemma MarkExpiredKeeps(s: State, now: int)
    requires Inv(s)
    ensures Inv(MarkExpired(s, now))
  {
    var z := MarkExpired(s, now);
    RefsMove(s.cfg, s.tab, z.tab, s.flow.active, s.flow.active, s.threads, s.threads, 0);
  }

  lemma TimerFiresKeeps(s: State, k: nat)
    requires Inv(s)
    ensures Inv(TimerFires(s, k))
  {}

  lemma IdleCallbackKeeps(s: State, k: nat)
    requires Inv(s)
    ensures Inv(IdleCallback(s, k))
  {
    hide TableInv, RefsInv;
    ArmKeeps(s.cfg, s.p.closed, s.tab.refCount, s.tm.(fired := s.tm.fired - {k}));
  }

  lemma HealthSnapshotKeeps(s: State, t: nat)
    requires Inv(s)
    ensures Inv(HealthSnapshot(s, t))
  {
    var z := HealthSnapshot(s, t);
    RefsMove(s.cfg, s.tab, s.tab, s.flow.active, s.flow.active, s.threads, z.threads, t);
  }

  lemma HealthAbortKeeps(s: State, t: nat)
    requires Inv(s)
    ensures Inv(HealthAbort(s, t))
  {
    var z := HealthAbort(s, t);
    RefsMove(s.cfg, s.tab, s.tab, s.flow.active, s.flow.active, s.threads, z.threads, t);
  }

  lemma OpenDrainKeeps(f: Flow)
    requires FlowInv(f) && f.active != 0
    ensures FlowInv(OpenDrain(f)) && OpenDrain(f).drained.Some? && OpenDrain(f).active == f.active
  {}

  lemma JudgeKeeps(p: Proc, f: Flow, doneSeen: bool, v: Verdict, dead: set<nat>)
    requires ProcInv(p) && FlowInv(f) && !p.closed && p.starting.None?
    requires (doneSeen || v.ConnectionClosed?) && p.downstream.Some? ==> p.downstream.value in dead
    ensures var (p', f') := Judge(p, f, doneSeen, v);
      ProcInv(p') && FlowInv(f') && f'.active == f.active && DrainInv(f', p'.boot, p'.closed, dead)
      && p'.downstream == p.downstream && p'.closed == p.closed
  {
    if f.active != 0 { OpenDrainKeeps(f); }
  }

  lemma HealthVerdictKeeps(s: State, t: nat, v: Verdict)
    requires Inv(s)
    ensures Inv(HealthVerdict(s, t, v))
  {
    if HealthVerdict(s, t, v) != s {
      RefsMove(s.cfg, s.tab, s.tab, s.flow.active, s.flow.active, s.threads, s.threads - {t}, t);
      if !s.p.closed && s.p.downstream == Some(s.threads[t].ds) && s.p.starting.None? {
        JudgeKeeps(s.p, s.flow, DoneSeen(s), v, s.dead);
      }
    }
  }

  lemma EnvironmentKeeps(s: State, ds: nat)
    requires Inv(s)
    ensures Inv(TransportDies(s, ds)) && Inv(WaitReturns(s, ds))
  {}

  lemma BootDetachKeeps(s: State)
    requires Inv(s)
    ensures Inv(BootDetach(s))
  {}

  lemma BootCloseKeeps(s: State)
    requires Inv(s)
    ensures Inv(BootClose(s))
  {}

  lemma BootCheckKeeps(p: Proc)
    requires ProcInv(p)
    ensures ProcInv(BootCheck(p))
  {}

  lemma BootConnectKeeps(p: Proc, ok: bool)
    requires ProcInv(p)
    ensures ProcInv(BootConnect(p, ok))
  {}

  lemma BootPublishKeeps(p: Proc)
    requires ProcInv(p)
    ensures ProcInv(BootPublish(p))
  {}

  lemma ConnectingKeeps(s: State, ok: bool)
    requires Inv(s)
    ensures Inv(s.(p := BootCheck(s.p))) && Inv(s.(p := BootConnect(s.p, ok))) && Inv(s.(p := BootPublish(s.p)))
  {
    hide TableInv, RefsInv, FlowInv, TimerInv;
    BootCheckKeeps(s.p);
    BootConnectKeeps(s.p, ok);
    BootPublishKeeps(s.p);
  }

  lemma BootDiscardKeeps(s: State)
    requires Inv(s)
    ensures Inv(BootDiscard(s))
  {}

  lemma BootFinishKeeps(s: State)
    requires Inv(s)
    ensures Inv(BootFinish(s))
  {
    ArmKeeps(s.cfg, s.p.closed, s.tab.refCount, s.tm);
  }

  lemma CloseAllKeepsRefs(cfg: Config, tab: Table, active: int, th: map<nat, Pc>)
    requires TableInv(cfg, tab) && RefsInv(tab, active, th)
    ensures var tab' := tab.(upstream := {}, sessions := map[], refCount := 0);
      TableInv(cfg, tab') && RefsInv(tab', active, th)
  {}

  lemma CloseAllKeeps(s: State)
    requires Inv(s)
    ensures Inv(CloseAll(s))
  {
    CloseAllKeepsRefs(s.cfg, s.tab, s.flow.active, s.threads);
  }

  lemma CloseAllProcessKeeps(s: State)
    requires Inv(s)
    ensures Inv(CloseAllProcess(s))
  {}

  lemma CloseAllReturnKeeps(p: Proc)
    requires ProcInv(p)
    ensures ProcInv(CloseAllReturn(p)) && CloseAllReturn(p).(shutdown := p.shutdown) == p
  {}

  lemma ReturningKeeps(s: State)
    requires Inv(s)
    ensures Inv(s.(p := CloseAllReturn(s.p)))
  {
    CloseAllReturnKeeps(s.p);
  }

  // Which part of the manager an action belongs to.
  datatype Part = Admission | Requests | Probes | Process

  function PartOf(a: Action): Part {
    match a
    case AAdmit(_, _, _) => Admission
    case AAdmitEnsure(_) => Admission
    case AAdmitWake(_, _) => Admission
    case AAdmitTail(_, _) => Admission
    case AEnsureReady => Admission
    case ARemoveSession(_) => Admission
    case ATouch(_, _) => Admission
    case ABeginRequest(_, _) => Requests
    case ARequestPass(_, _) => Requests
    case ARequestGet(_) => Requests
    case ARequestWake(_, _) => Requests
    case ARelease(_) => Requests
    case AMarkExpired(_) => Requests
    case ATimerFires(_) => Probes
    case AIdleCallback(_) => Probes
    case AHealthSnapshot(_) => Probes
    case AHealthAbort(_) => Probes
    case AHealthVerdict(_, _) => Probes
    case ATransportDies(_) => Probes
    case AWaitReturns(_) => Probes
    case _ => Process
  }

  lemma AdmissionStepKeeps(s: State, a: Action)
    requires Inv(s) && PartOf(a) == Admission
    ensures Inv(Step(s, a))
  {
    hide Inv;
    match a
    case AAdmit(t, id, now) => AdmitKeeps(s, t, id, now);
    case AAdmitEnsure(t) => AdmitEnsureKeeps(s, t);
    case AAdmitWake(t, c) => AdmitWakeKeeps(s, t, c);
    case AAdmitTail(t, now) => AdmitTailKeeps(s, t, now);
    case AEnsureReady => EnsureReadyKeeps(s);
    case ARemoveSession(id) => RemoveSessionKeeps(s, id);
    case ATouch(id, now) => TouchSessionKeeps(s, id, now);
    case _ =>
  }

  lemma RequestStepKeeps(s: State, a: Action)
    requires Inv(s) && PartOf(a) == Requests
    ensures Inv(Step(s, a))
  {
    hide Inv;
    match a
    case ABeginRequest(t, id) => BeginRequestKeeps(s, t, id);
    case ARequestPass(t, c) => RequestPassKeeps(s, t, c);
    case ARequestGet(t) => RequestGetKeeps(s, t);
    case ARequestWake(t, c) => RequestWakeKeeps(s, t, c);
    case ARelease(t) => ReleaseKeeps(s, t);
    case AMarkExpired(now) => MarkExpiredKeeps(s, now);
    case _ =>
  }

  lemma ProbeStepKeeps(s: State, a: Action)
    requires Inv(s) && PartOf(a) == Probes
    ensures Inv(Step(s, a))
  {
    hide Inv;
    match a
    case ATimerFires(k) => TimerFiresKeeps(s, k);
    case AIdleCallback(k) => IdleCallbackKeeps(s, k);
    case AHealthSnapshot(t) => HealthSnapshotKeeps(s, t);
    case AHealthAbort(t) => HealthAbortKeeps(s, t);
    case AHealthVerdict(t, v) => HealthVerdictKeeps(s, t, v);
    case ATransportDies(ds) => EnvironmentKeeps(s, ds);
    case AWaitReturns(ds) => EnvironmentKeeps(s, ds);
    case _ =>
  }

  lemma ProcessStepKeeps(s: State, a: Action)
    requires Inv(s) && PartOf(a) == Process
    ensures Inv(Step(s, a))
  {
    hide Inv;
    match a
    case ABootDetach => BootDetachKeeps(s);
    case ABootClose => BootCloseKeeps(s);
    case ABootCheck => ConnectingKeeps(s, true);
    case ABootConnect(ok) => ConnectingKeeps(s, ok);
    case ABootPublish => ConnectingKeeps(s, true);
    case ABootDiscard => BootDiscardKeeps(s);
    case ABootFinish => BootFinishKeeps(s);
    case ACloseAll => CloseAllKeeps(s);
    case ACloseAllProcess => CloseAllProcessKeeps(s);
    case ACloseAllReturn => ReturningKeeps(s);
    case _ =>
  }

  lemma StepKeeps(s: State, a: Action)
    requires Inv(s)
    ensures Inv(Step(s, a))
  {
    match PartOf(a)
    case Admission => AdmissionStepKeeps(s, a);
    case Requests => RequestStepKeeps(s, a);
    case Probes => ProbeStepKeeps(s, a);
    case Process => ProcessStepKeeps(s, a);
  }

  lemma {:induction false} RunKeeps(s: State, run: seq<Action>)
    requires Inv(s)
    ensures Inv(Run(s, run))
    decreases |run|
  {
    if run != [] {
      StepKeeps(s, run[0]);
      RunKeeps(Step(s, run[0]), run[1..]);
    }
  }

  // ----- what holds in every run

  lemma InitKeeps(cfg: Config)
    ensures Inv(Init(cfg))
  {}

  function Reached(cfg: Config, run: seq<Action>): State { Run(Init(cfg), run) }

  lemma ReachedKeeps(cfg: Config, run: seq<Action>)
    ensures Inv(Reached(cfg, run))
  {
    InitKeeps(cfg);
    RunKeeps(Init(cfg), run);
  }

  // At most one spawned process is not yet closed.
  lemma AtMostOneProcess(cfg: Config, run: seq<Action>)
    ensures |Reached(cfg, run).p.open| <= 1
  {
    ReachedKeeps(cfg, run);
    var p := Reached(cfg, run).p;
    assert exists d :: p.open <= {d} by {
      match p.boot
      case NoBoot => if p.closed { assert p.open <= {OrZero(if p.shutdown.ClosingProcess? then p.shutdown.ds else None)}; }
                     else { assert p.open <= {OrZero(p.downstream)}; }
      case Draining(o, _) => assert p.open <= {OrZero(o)};
      case Closing(o) => assert p.open <= {OrZero(o)};
      case Connected(ds) => assert p.open <= {ds};
      case Discarding(ds) => assert p.open <= {ds};
      case Published(ds) => assert p.open <= {ds};
      case _ => assert p.open <= {0};
    }
    var d :| p.open <= {d};
    if d in p.open { assert p.open == {d}; } else { assert p.open == {}; }
  }

  function OrZero(o: Option<nat>): nat { if o.Some? then o.value else 0 }

  ghost predicate ShutDown(s: State, startups: nat, spawns: nat) {
    s.p.shutdown.Returned? && s.p.open == {} && s.p.starting.None?
    && s.p.nextStartup == startups && s.p.nextDs == spawns
  }

  lemma ShutDownStays(s: State, a: Action, startups: nat, spawns: nat)
    requires Inv(s) && ShutDown(s, startups, spawns)
    ensures ShutDown(Step(s, a), startups, spawns)
  {
    assert s.p.closed && s.p.downstream.None? && s.p.boot.NoBoot?;
    hide Inv, Step;
    match PartOf(a)
    case Admission => AdmissionAfterShutdown(s, a);
    case Requests => RequestAfterShutdown(s, a);
    case Probes => ProbeAfterShutdown(s, a);
    case Process => ProcessAfterShutdown(s, a);
  }

  lemma AdmissionAfterShutdown(s: State, a: Action)
    requires PartOf(a) == Admission && s.p.closed
    ensures Step(s, a).p == s.p
  {
    hide Track, Settle, Untrack, Arm;
  }

  lemma RequestAfterShutdown(s: State, a: Action)
    requires PartOf(a) == Requests && s.p.closed
    ensures Step(s, a).p == s.p
  {
    hide Finished, Expirable;
  }

  lemma ProbeAfterShutdown(s: State, a: Action)
    requires PartOf(a) == Probes && s.p.closed
    ensures Step(s, a).p == s.p
  {
    hide Judge, Arm;
  }

  lemma ProcessAfterShutdown(s: State, a: Action)
    requires PartOf(a) == Process && s.p.closed && s.p.boot.NoBoot? && s.p.shutdown.Returned?
    ensures Step(s, a).p == s.p
  {
    hide Arm;
  }

  lemma {:induction false} ShutDownStaysInRun(s: State, run: seq<Action>, startups: nat, spawns: nat)
    requires Inv(s) && ShutDown(s, startups, spawns)
    ensures ShutDown(Run(s, run), startups, spawns)
    decreases |run|
  {
    if run != [] {
      StepKeeps(s, run[0]);
      ShutDownStays(s, run[0], startups, spawns);
      ShutDownStaysInRun(Step(s, run[0]), run[1..], startups, spawns);
    }
  }

  // Once the first CloseAll has returned, every process ever spawned is closed, and nothing
  // that happens later reserves a startup or spawns a process.
  lemma ShutdownIsFinal(cfg: Config, run: seq<Action>, more: seq<Action>)
    requires Reached(cfg, run).p.shutdown.Returned?
    ensures var s := Reached(cfg, run); ShutDown(Run(s, more), s.p.nextStartup, s.p.nextDs)
  {
    ReachedKeeps(cfg, run);
    var s := Reached(cfg, run);
    ShutDownStaysInRun(s, more, s.p.nextStartup, s.p.nextDs);
  }

  // A process whose transport is alive is closed, shutdown excepted, only when no request
  // is dispatched.
  lemma LiveProcessClosedOnlyWhenQuiet(cfg: Config, run: seq<Action>, a: Action, ds: nat)
    requires var s := Reached(cfg, run);
      ds in s.p.open && ds !in Step(s, a).p.open && ds !in s.dead && !s.p.closed
    ensures Reached(cfg, run).flow.active == 0
  {
    ReachedKeeps(cfg, run);
    ClosedInStep(Reached(cfg, run), a, ds);
  }

  lemma ClosedInStep(s: State, a: Action, ds: nat)
    requires ProcInv(s.p) && DrainInv(s.flow, s.p.boot, s.p.closed, s.dead)
    requires ds in s.p.open && ds !in Step(s, a).p.open && ds !in s.dead && !s.p.closed
    ensures s.flow.active == 0
  {}

  // While a replacement is reserved, the number of dispatched requests never rises.
  lemma ReservedReplacementStopsDispatch(s: State, a: Action)
    requires s.p.starting.Some?
    ensures Step(s, a).flow.active <= s.flow.active
  {
    hide Step;
    match PartOf(a)
    case Admission => AdmissionDispatchesNothing(s, a);
    case Requests => ReservedPassWaits(s, a);
    case Probes => ProbeDispatchesNothing(s, a);
    case Process => ProcessDispatchesNothing(s, a);
  }

  lemma AdmissionDispatchesNothing(s: State, a: Action)
    requires PartOf(a) == Admission
    ensures Step(s, a).flow == s.flow
  {
    hide Track, Settle, Untrack, Arm, GetDownstream;
  }

  lemma ReservedPassWaits(s: State, a: Action)
    requires PartOf(a) == Requests && s.p.starting.Some?
    ensures Step(s, a).flow.active <= s.flow.active
  {
    hide GetDownstream, Expirable;
  }

  lemma ProbeDispatchesNothing(s: State, a: Action)
    requires PartOf(a) == Probes
    ensures Step(s, a).flow.active == s.flow.active
  {
    hide Arm, Reserve;
  }

  lemma ProcessDispatchesNothing(s: State, a: Action)
    requires PartOf(a) == Process
    ensures Step(s, a).flow == s.flow
  {
    hide Arm;
  }

  // So a drain ends: from every reachable state in which a channel waits for the dispatched
  // requests, their releases, one each, close it.
  lemma DrainEnds(cfg: Config, run: seq<Action>) returns (releases: seq<Action>)
    requires Reached(cfg, run).flow.drained.Some?
    ensures var s := Reached(cfg, run);
            var f := Run(s, releases).flow;
            && |releases| == s.flow.active == |Dispatched(s.threads)| && (forall a <- releases :: a.ARelease?)
            && f.active == 0 && f.drained.None? && s.flow.drained.value in f.closings
  {
    ReachedKeeps(cfg, run);
    releases := EverybodyReleases(Reached(cfg, run));
  }

  lemma {:induction false} EverybodyReleases(s: State) returns (releases: seq<Action>)
    requires Inv(s) && s.flow.drained.Some?
    ensures var f := Run(s, releases).flow;
            && |releases| == s.flow.active && (forall a <- releases :: a.ARelease?)
            && f.active == 0 && f.drained.None? && s.flow.drained.value in f.closings
    ensures OnlyReleased(s, Run(s, releases))
    decreases s.flow.active
  {
    var t := SomebodyServes(s);
    ReleaseKeeps(s, t);
    ReleaseFlows(s, t);
    StepReleases(s, t);
    hide Inv, Step, Run, OnlyReleased, Release;
    var u := Release(s, t);
    var rest := [];
    if u.flow.drained.Some? {
      rest := EverybodyReleases(u);
      ReleasedOn(s, u, Run(u, rest));
    } else {
      RunNothing(u);
    }
    releases := [ARelease(t)] + rest;
    FirstOf(s, ARelease(t), rest);
  }

  lemma StepReleases(s: State, t: nat)
    ensures Step(s, ARelease(t)) == Release(s, t)
  {
  }

  lemma RunNothing(s: State)
    ensures Run(s, []) == s
  {
  }

  lemma FirstOf(s: State, a: Action, rest: seq<Action>)
    ensures Run(s, [a] + rest) == Run(Step(s, a), rest)
  {
    assert ([a] + rest)[1..] == rest;
  }

  lemma ReleasedOn(s: State, u: State, v: State)
    requires OnlyReleased(s, u) && OnlyReleased(u, v)
    ensures OnlyReleased(s, v)
  {
  }

  // Between s and u requests were released and nothing else happened.
  ghost predicate OnlyReleased(s: State, u: State) {
    && u.p == s.p && u.tab.sessions == s.tab.sessions && u.tab.recs.Keys == s.tab.recs.Keys
    && forall t <- s.threads :: !s.threads[t].Serving? ==> t in u.threads && u.threads[t] == s.threads[t]
  }

  lemma SomebodyServes(s: State) returns (t: nat)
    requires Inv(s) && s.flow.drained.Some?
    ensures t in s.threads && s.threads[t].Serving? && s.threads[t].rec in s.tab.recs
  {
    assert s.flow.active == |Dispatched(s.threads)| > 0;
    assert Dispatched(s.threads) != {};
    t :| t in Dispatched(s.threads);
    PlacedAt(s.tab, s.threads, t);
  }

  lemma ReleaseFlows(s: State, t: nat)
    requires t in s.threads && s.threads[t].Serving? && s.threads[t].rec in s.tab.recs && s.flow.drained.Some?
    ensures var f := Release(s, t).flow;
            && f.active == s.flow.active - 1
            && if f.active == 0 then f.drained.None? && s.flow.drained.value in f.closings else f.drained == s.flow.drained
    ensures OnlyReleased(s, Release(s, t))
  {
  }

  // The drain channel exists only while requests are dispatched; every channel made is
  // either that one, still open, or has been closed exactly once.
  lemma DrainChannelClosedOnce(cfg: Config, run: seq<Action>, c: nat)
    ensures var f := Reached(cfg, run).flow;
      && (f.drained.Some? ==> f.active > 0)
      && f.closings[c] == (if c < f.nextChan && f.drained != Some(c) then 1 else 0)
  {
    ReachedKeeps(cfg, run);
  }

  // With idle reaping enabled, a process nothing refers to has a reap coming.
  lemma UnreferencedProcessIsReaped(cfg: Config, run: seq<Action>)
    requires Unreferenced(Reached(cfg, run))
    ensures ReapDue(Reached(cfg, run).tm)
  {
    ReachedKeeps(cfg, run);
  }

  // The reference count is the number of tracked sessions, within the limit.
  lemma RefCountIsSessionCount(cfg: Config, run: seq<Action>)
    ensures var tab := Reached(cfg, run).tab;
      && tab.refCount == |tab.sessions| == |tab.upstream|
      && (cfg.maxSessions > 0 ==> tab.refCount <= cfg.maxSessions)
  {
    ReachedKeeps(cfg, run);
    var tab := Reached(cfg, run).tab;
    assert |tab.sessions| == |tab.sessions.Keys|;
    ConfigStays(Init(cfg), run);
  }

  lemma {:induction false} ConfigStays(s: State, run: seq<Action>)
    ensures Run(s, run).cfg == s.cfg
    decreases |run|
  {
    if run != [] { ConfigStays(Step(s, run[0]), run[1..]); }
  }

  // A failed waiter removes a session exactly when the session is still the record it
  // joined, no waiter has ever been admitted on it, and it is the last one waiting.
  lemma FailedWaiterRemovesOnlyItsOwn(s: State, t: nat, now: int)
    requires Inv(s) && t in s.threads && s.threads[t].Decided? && !s.threads[t].ok
    ensures var pc := s.threads[t]; var z := AdmitTail(s, t, now).tab.sessions;
      if pc.id in s.tab.sessions && s.tab.sessions[pc.id] == pc.rec && !s.tab.recs[pc.rec].admitted
         && Waiting(s.threads, pc.rec) == {t}
      then z == s.tab.sessions - {pc.id}
      else z == s.tab.sessions
  {
    var pc := s.threads[t];
    if pc.id in s.tab.sessions && s.tab.sessions[pc.id] == pc.rec {
      var w := Waiting(s.threads, pc.rec);
      assert t in w;
      assert s.tab.recs[pc.rec].pending == |w|;
      assert w == {t} + (w - {t});
      assert |w| == 1 <==> w - {t} == {};
    }
  }

  ghost predicate AdmittedAs(tab: Table, id: string, h: nat) {
    id in tab.sessions && tab.sessions[id] == h && h in tab.recs && tab.recs[h].admitted
  }

  lemma AdmissionKeepsAdmitted(s: State, t: nat, now: int, id: string, h: nat, other: string)
    requires TableInv(s.cfg, s.tab) && AdmittedAs(s.tab, id, h)
    ensures AdmittedAs(Admit(s, t, other, now).tab, id, h)
    ensures AdmittedAs(AdmitTail(s, t, now).tab, id, h)
  {}

  lemma AdmittedStaysThroughAdmission(s: State, a: Action, id: string, h: nat)
    requires Inv(s) && AdmittedAs(s.tab, id, h) && a != ARemoveSession(id) && PartOf(a) == Admission
    ensures AdmittedAs(Step(s, a).tab, id, h)
  {
    hide ProcInv, TableInv, RefsInv, FlowInv, DrainInv, TimerInv, GetDownstream, Admit, AdmitTail;
    match a
    case AAdmit(t, other, now) => AdmissionKeepsAdmitted(s, t, now, id, h, other);
    case AAdmitTail(t, now) => AdmissionKeepsAdmitted(s, t, now, id, h, id);
    case _ =>
  }

  lemma AdmittedStaysOtherwise(s: State, a: Action, id: string, h: nat)
    requires Inv(s) && AdmittedAs(s.tab, id, h) && !a.ACloseAll? && PartOf(a) != Admission
    ensures AdmittedAs(Step(s, a).tab, id, h)
  {
    hide Inv, GetDownstream, Judge, Arm;
  }

  // An admitted session stays until it is removed by name or everything is closed.
  lemma AdmittedSessionStays(s: State, a: Action, id: string, h: nat)
    requires Inv(s) && AdmittedAs(s.tab, id, h) && a != ARemoveSession(id) && !a.ACloseAll?
    ensures AdmittedAs(Step(s, a).tab, id, h)
  {
    hide Inv, Step;
    if PartOf(a) == Admission {
      AdmittedStaysThroughAdmission(s, a, id, h);
    } else {
      AdmittedStaysOtherwise(s, a, id, h);
    }
  }

  // A session marked for expiry has no request in flight and never gets one.
  lemma ExpiringSessionHasNoRequest(cfg: Config, run: seq<Action>, h: nat)
    requires h in Reached(cfg, run).tab.recs && Reached(cfg, run).tab.recs[h].expiring
    ensures Holding(Reached(cfg, run).threads, h) == {}
  {
    ReachedKeeps(cfg, run);
  }
}

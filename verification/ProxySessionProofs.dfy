/**
 The invariants of one proxy session survive every step, and what follows about every run.
*/
module ProxySessionProofs {
  import opened Wrappers
  import opened ProxyMachine

  // ----- each step keeps the invariants

  lemma StartReservingKeeps(s: State, ok: bool)
    requires Inv(s)
    ensures Inv(StartReserving(s, ok))
    ensures StartReserving(s, ok).shared == s.shared
  {
    hide OutsideRespawn, OutsideStartup, OnlyCloses, RespawnMoves;
  }

  lemma StartConnectingKeeps(s: State, ok: bool)
    requires Inv(s)
    ensures Inv(StartConnecting(s, ok))
    ensures StartConnecting(s, ok).shared == s.shared
  {
    hide OutsideRespawn, OutsideStartup, OnlyCloses, RespawnMoves;
  }

  lemma StartStoringKeeps(s: State)
    requires Inv(s)
    ensures Inv(StartStoring(s))
    ensures StartStoring(s).shared == s.shared
  {
    hide OutsideRespawn, OutsideStartup, OnlyCloses, RespawnMoves;
  }

  lemma StartListingKeeps(s: State, ok: bool)
    requires Inv(s)
    ensures Inv(StartListing(s, ok))
    ensures StartListing(s, ok).shared == s.shared
  {
    hide OutsideRespawn, OutsideStartup, OnlyCloses, RespawnMoves;
  }

  lemma StartDroppingKeeps(s: State)
    requires Inv(s)
    ensures Inv(StartDropping(s))
    ensures StartDropping(s).shared == s.shared
  {
    hide OutsideRespawn, OutsideStartup, OnlyCloses, RespawnMoves;
  }

  lemma BeginCloseKeeps(s: State, n: nat)
    requires Inv(s)
    ensures Inv(BeginClose(s, n))
    ensures BeginClose(s, n).shared == s.shared
  {
    hide OutsideRespawn, OutsideStartup, OnlyCloses, RespawnMoves;
  }

  lemma CloseLockKeeps(s: State, c: Closer)
    requires Inv(s)
    ensures Inv(CloseLock(s, c))
    ensures CloseLock(s, c).shared == s.shared
  {
    hide OutsideRespawn, OutsideStartup, OnlyCloses, RespawnMoves;
  }

  lemma CloseReleaseKeeps(s: State)
    requires Inv(s)
    ensures Inv(CloseRelease(s))
    ensures CloseRelease(s).shared == s.shared
  {
    hide OutsideRespawn, OutsideStartup, OnlyCloses, RespawnMoves;
  }

  lemma CloseMarkingKeeps(s: State)
    requires Inv(s)
    ensures Inv(CloseMarking(s))
    ensures CloseMarking(s).shared == s.shared
  {
    hide OutsideRespawn, OutsideStartup, OnlyCloses, RespawnMoves;
  }

  lemma CloseReadingKeeps(s: State)
    requires Inv(s)
    ensures Inv(CloseReading(s))
    ensures CloseReading(s).shared == s.shared
  {
    hide OutsideRespawn, OutsideStartup, OnlyCloses, RespawnMoves;
  }

  lemma CloseDownIndexKeeps(s: State)
    requires Inv(s)
    ensures Inv(CloseDownIndex(s))
    ensures CloseDownIndex(s).shared == s.shared
  {
    hide OutsideRespawn, OutsideStartup, OnlyCloses, RespawnMoves;
  }

  lemma CloseUpIndexKeeps(s: State)
    requires Inv(s)
    ensures Inv(CloseUpIndex(s))
    ensures CloseUpIndex(s).shared == s.shared
  {
    hide OutsideRespawn, OutsideStartup, OnlyCloses, RespawnMoves;
  }

  lemma ManagerDropsKeeps(s: State, d: nat)
    requires Inv(s)
    ensures Inv(ManagerDrops(s, d))
    ensures ManagerDrops(s, d).shared == s.shared
  {
    hide OutsideRespawn, OutsideStartup, OnlyCloses, RespawnMoves;
  }

  lemma ManagerForgetsKeeps(s: State, d: nat)
    requires Inv(s)
    ensures Inv(ManagerForgets(s, d))
    ensures ManagerForgets(s, d).shared == s.shared
  {
    hide OutsideRespawn, OutsideStartup, OnlyCloses, RespawnMoves;
  }

  lemma LeaseExpiresKeeps(s: State, n: nat)
    requires Inv(s)
    ensures Inv(LeaseExpires(s, n))
    ensures LeaseExpires(s, n).shared == s.shared
  {
    hide OutsideRespawn, OutsideStartup, OnlyCloses, RespawnMoves;
  }

  lemma RemovalLookupKeeps(s: State, d: nat)
    requires Inv(s)
    ensures Inv(RemovalLookup(s, d))
    ensures RemovalLookup(s, d).shared == s.shared
  {
    hide OutsideRespawn, OutsideStartup, FreshInv, GenInv;
    if !s.shared {
      RemovalLookupIsFresh(s, d);
      if !s.raced {
        RemovalLookupHolds(s, d);
      }
    }
  }

  lemma RemovalLookupIsFresh(s: State, d: nat)
    requires Inv(s) && !s.shared
    ensures FreshInv(RemovalLookup(s, d))
  {
    hide OutsideRespawn, OutsideStartup, GenInv;
  }

  lemma RemovalLookupHolds(s: State, d: nat)
    requires Inv(s) && !s.shared && !s.raced
    ensures GenInv(RemovalLookup(s, d))
  {
    hide OutsideRespawn, OutsideStartup;
  }

  lemma ExpiryLookupKeeps(s: State, n: nat)
    requires Inv(s)
    ensures Inv(ExpiryLookup(s, n))
    ensures ExpiryLookup(s, n).shared == s.shared
  {
    hide OutsideRespawn, OutsideStartup, OnlyCloses, RespawnMoves;
  }

  lemma InitializeKeeps(s: State)
    requires Inv(s)
    ensures Inv(Initialize(s))
    ensures Initialize(s).shared == s.shared
  {
    hide OutsideRespawn, OutsideStartup, OnlyCloses, RespawnMoves;
  }

  lemma PublishCheckKeeps(s: State)
    requires Inv(s)
    ensures Inv(PublishCheck(s))
    ensures PublishCheck(s).shared == s.shared
  {
    hide OutsideRespawn, OutsideStartup, OnlyCloses, RespawnMoves;
  }

  lemma PublishInsertKeeps(s: State)
    requires Inv(s)
    ensures Inv(PublishInsert(s))
    ensures PublishInsert(s).shared == s.shared
  {
    hide OutsideRespawn, OutsideStartup, OnlyCloses, RespawnMoves;
  }

  lemma PublishRecheckKeeps(s: State)
    requires Inv(s)
    ensures Inv(PublishRecheck(s))
    ensures PublishRecheck(s).shared == s.shared
  {
    hide OutsideRespawn, OutsideStartup, OnlyCloses, RespawnMoves;
  }

  lemma OnRespawnKeeps(s: State, ds: nat)
    requires Inv(s)
    ensures Inv(OnRespawn(s, ds))
    ensures OnRespawn(s, ds).shared == s.shared
  {
    hide OutsideRespawn, OutsideStartup, OnlyCloses, RespawnMoves;
  }

  lemma BeginRespawnKeeps(s: State)
    requires Inv(s)
    ensures Inv(BeginRespawn(s))
    ensures BeginRespawn(s).shared == s.shared
  {
    hide OutsideRespawn, OutsideStartup, OnlyCloses, RespawnMoves;
  }

  lemma RespawnCheckingKeeps(s: State)
    requires Inv(s)
    ensures Inv(RespawnChecking(s))
    ensures RespawnChecking(s).shared == s.shared
  {
    hide OutsideRespawn, OutsideStartup, OnlyCloses, RespawnMoves;
  }

  lemma RespawnReservingKeeps(s: State, ok: bool)
    requires Inv(s)
    ensures Inv(RespawnReserving(s, ok))
    ensures RespawnReserving(s, ok).shared == s.shared
  {
    hide OutsideRespawn, OutsideStartup, OnlyCloses, RespawnMoves;
  }

  lemma RespawnConnectingKeeps(s: State, ok: bool)
    requires Inv(s)
    ensures Inv(RespawnConnecting(s, ok))
    ensures RespawnConnecting(s, ok).shared == s.shared
  {
    hide OutsideRespawn, OutsideStartup, OnlyCloses, RespawnMoves;
  }

  lemma RespawnListingKeeps(s: State, ok: bool)
    requires Inv(s)
    ensures Inv(RespawnListing(s, ok))
    ensures RespawnListing(s, ok).shared == s.shared
  {
    hide OutsideRespawn, OutsideStartup, OnlyCloses, RespawnMoves;
  }

  lemma RespawnReadingKeeps(s: State)
    requires Inv(s)
    ensures Inv(RespawnReading(s))
    ensures RespawnReading(s).shared == s.shared
  {
    hide OutsideRespawn, OutsideStartup, OnlyCloses, RespawnMoves;
  }

  lemma RespawnRekeyingKeeps(s: State)
    requires Inv(s)
    ensures Inv(RespawnRekeying(s))
    ensures RespawnRekeying(s).shared == s.shared
  {
    hide OutsideRespawn, OutsideStartup, OnlyCloses, RespawnMoves;
  }

  lemma RespawnLockKeeps(s: State)
    requires Inv(s)
    ensures Inv(RespawnLock(s))
    ensures RespawnLock(s).shared == s.shared
  {
    hide OutsideRespawn, OutsideStartup, OnlyCloses, RespawnMoves;
  }

  lemma RespawnSurvivingKeeps(s: State)
    requires Inv(s)
    ensures Inv(RespawnSurviving(s))
    ensures RespawnSurviving(s).shared == s.shared
  {
    hide OutsideRespawn, OutsideStartup, OnlyCloses, RespawnMoves;
  }

  lemma RespawnCreditingKeeps(s: State)
    requires Inv(s)
    ensures Inv(RespawnCrediting(s))
    ensures RespawnCrediting(s).shared == s.shared
  {
    hide OutsideRespawn, OutsideStartup, OnlyCloses, RespawnMoves;
  }

  lemma RespawnStoringKeeps(s: State)
    requires Inv(s)
    ensures Inv(RespawnStoring(s))
    ensures RespawnStoring(s).shared == s.shared
  {
    hide OutsideRespawn, OutsideStartup, OnlyCloses, RespawnMoves;
  }

  lemma RespawnDroppingKeeps(s: State)
    requires Inv(s)
    ensures Inv(RespawnDropping(s))
    ensures RespawnDropping(s).shared == s.shared
  {
    hide OutsideRespawn, OutsideStartup, OnlyCloses, RespawnMoves;
  }

  lemma RespawnLeavingKeeps(s: State)
    requires Inv(s) && s.resp.RespUnlock?
    ensures Inv(s.(resp := RespIdle))
  {
  }

  lemma CloseStepKeeps(s: State)
    requires Inv(s)
    ensures Inv(CloseStep(s))
    ensures CloseStep(s).shared == s.shared
  {
    hide Inv;
    if s.closing.Inside? {
      match s.closing.phase
      case CloseOnce => CloseReleaseKeeps(s);
      case CloseMark => CloseMarkingKeeps(s);
      case CloseTail => CloseReadingKeeps(s);
      case CloseDown(_, _) => CloseDownIndexKeeps(s);
      case CloseUp => CloseUpIndexKeeps(s);
    }
  }

  lemma RespawnStepKeeps(s: State, ok: bool)
    requires Inv(s)
    ensures Inv(RespawnStep(s, ok))
    ensures RespawnStep(s, ok).shared == s.shared
  {
    hide Inv;
    match s.resp
    case RespIdle =>
    case RespCheck => RespawnCheckingKeeps(s);
    case RespReserve(_) => RespawnReservingKeeps(s, ok);
    case RespConnect(_) => RespawnConnectingKeeps(s, ok);
    case RespRead(_) => RespawnReadingKeeps(s);
    case RespRekey(_, _) => RespawnRekeyingKeeps(s);
    case RespList(_) => RespawnListingKeeps(s, ok);
    case RespWant(_) => RespawnLockKeeps(s);
    case RespSurvive(_) => RespawnSurvivingKeeps(s);
    case RespCredit(_) => RespawnCreditingKeeps(s);
    case RespStore(_) => RespawnStoringKeeps(s);
    case RespDrop(_) => RespawnDroppingKeeps(s);
    case RespUnlock => RespawnLeavingKeeps(s);
  }

  lemma StepKeeps(s: State, a: Action)
    requires Inv(s)
    ensures Inv(Step(s, a))
    ensures Step(s, a).shared == s.shared
  {
    hide Inv;
    match a
    case AStartReserve(ok) => StartReservingKeeps(s, ok);
    case AStartConnect(ok) => StartConnectingKeeps(s, ok);
    case AStartStore => StartStoringKeeps(s);
    case AStartList(ok) => StartListingKeeps(s, ok);
    case AStartDrop => StartDroppingKeeps(s);
    case ABeginClose(n) => BeginCloseKeeps(s, n);
    case ACloseLock(c) => CloseLockKeeps(s, c);
    case AClose => CloseStepKeeps(s);
    case AManagerDrops(d) => ManagerDropsKeeps(s, d);
    case AManagerForgets(d) => ManagerForgetsKeeps(s, d);
    case ALeaseExpires(n) => LeaseExpiresKeeps(s, n);
    case ARemovalLookup(d) => RemovalLookupKeeps(s, d);
    case AExpiryLookup(n) => ExpiryLookupKeeps(s, n);
    case AInitialize => InitializeKeeps(s);
    case APublishCheck => PublishCheckKeeps(s);
    case APublishInsert => PublishInsertKeeps(s);
    case APublishRecheck => PublishRecheckKeeps(s);
    case AOnRespawn(ds) => OnRespawnKeeps(s, ds);
    case ABeginRespawn => BeginRespawnKeeps(s);
    case ARespawn(ok) => RespawnStepKeeps(s, ok);
  }

  lemma {:induction false} RunKeeps(s: State, run: seq<Action>)
    requires Inv(s)
    ensures Inv(Run(s, run))
    ensures Run(s, run).shared == s.shared
    decreases |run|
  {
    hide Inv;
    if run != [] {
      StepKeeps(s, run[0]);
      RunKeeps(Step(s, run[0]), run[1..]);
    }
  }

  lemma {:induction false} RunConcat(s: State, first: seq<Action>, second: seq<Action>)
    ensures Run(s, first + second) == Run(Run(s, first), second)
    decreases |first|
  {
    if first == [] {
      assert first + second == second;
    } else {
      assert (first + second)[1..] == first[1..] + second;
      RunConcat(Step(s, first[0]), first[1..], second);
    }
  }

  lemma ReachedKeeps(shared: bool, run: seq<Action>)
    ensures Inv(Reached(shared, run))
    ensures Reached(shared, run).shared == shared
  {
    RunKeeps(Init(shared), run);
  }

  // ----- the credit

  // Whenever closeMu is free a held credit belongs to a live generation and a live
  // generation has an unused closeOnce; from publishInitialized's liveness check on the
  // session holds a credit exactly while it is live. The gauge counts it: 0 or 1, always.
  lemma CreditFollowsGeneration(shared: bool, run: seq<Action>)
    ensures var s := Reached(shared, run);
            && s.gauge == (if s.counted then 1 else 0)
            && (CloseMuFree(s) && s.counted ==> Live(s))
            && (CloseMuFree(s) && Live(s) ==> !s.onceUsed)
            && (CloseMuFree(s) && Checked(s) && s.upstream ==> (s.counted <==> Live(s)))
  {
    ReachedKeeps(shared, run);
  }

  // ----- shared mode

  // Once no closer is waiting or inside closeMu and publishInitialized is not between its
  // publication and its recheck, a closed shared proxy is in neither index. That holds
  // although the publication runs outside closeMu.
  lemma ClosedSharedProxyIsUnindexed(run: seq<Action>)
    requires Reached(true, run).closed && Reached(true, run).waiting == {}
    requires Reached(true, run).closing.Nobody? && !Reached(true, run).pub.PubRecheck?
    ensures Reached(true, run).byDown == {} && !Reached(true, run).byUp
  {
    ReachedKeeps(true, run);
  }

  // Nothing, and in particular no respawn notification, brings a closed shared proxy back.
  lemma ClosedSharedProxyStaysClosed(run: seq<Action>, more: seq<Action>)
    requires Reached(true, run).closed
    ensures Reached(true, run + more).closed && Reached(true, run + more).downstream.None?
  {
    ReachedKeeps(true, run);
    RunConcat(Init(true), run, more);
    SharedRunStaysClosed(Reached(true, run), more);
    ReachedKeeps(true, run + more);
  }

  lemma {:induction false} SharedRunStaysClosed(s: State, run: seq<Action>)
    requires Inv(s) && s.shared && s.closed
    ensures Run(s, run).closed
    decreases |run|
  {
    hide Inv;
    if run != [] {
      StepKeeps(s, run[0]);
      SharedStepStaysClosed(s, run[0]);
      SharedRunStaysClosed(Step(s, run[0]), run[1..]);
    }
  }

  lemma SharedStepStaysClosed(s: State, a: Action)
    requires Inv(s) && s.shared && s.closed
    ensures Step(s, a).closed && Step(s, a).shared
  {
    assert s.resp.RespIdle?;
  }

  // ----- generations of a stateful proxy

  // As long as no respawn passes its double check before the startup goroutine stored its
  // pointer, a live generation is held by the manager under the proxy's own identifier with
  // the index leading to the proxy, or a removal of it is under way that will close it.
  lemma LiveGenerationIsHeld(run: seq<Action>)
    requires !Reached(false, run).raced && Live(Reached(false, run))
    ensures var s := Reached(false, run); s.downstream == Some(s.sid) && Held(s, s.sid)
  {
    ReachedKeeps(false, run);
  }

  // What "will close it" means: any closer that gets closeMu leaves the proxy closed, without
  // a credit, and out of both indexes.
  lemma CloserClosesTheProxy(s: State, c: Closer)
    requires Inv(s) && c in s.waiting && CloseMuFree(s)
    ensures var t := Drained(CloseLock(s, c));
            && t.closing.Nobody? && t.closed && t.downstream.None? && !t.counted && t.gauge == 0
            && t.sid !in t.byDown && (t.upstream ==> !t.byUp)
  {
    var s0 := CloseLock(s, c);
    CloseLockKeeps(s, c);
    CloseStepKeeps(s0);
    var s1 := CloseStep(s0);
    if s0.onceUsed {
      DrainTail(s1);
    } else {
      CloseStepKeeps(s1);
      DrainTail(CloseStep(s1));
    }
  }

  // Enough steps of the goroutine inside closeMu to bring it out.
  function Drained(s: State): State { CloseStep(CloseStep(CloseStep(CloseStep(CloseStep(s))))) }

  lemma DrainTail(s: State)
    requires InPhase(s, CloseTail)
    ensures var t := CloseStep(CloseStep(CloseStep(s)));
            && t == s.(closing := Nobody, byDown := t.byDown, byUp := t.byUp) && CloseStep(t) == t
            && t.byDown <= s.byDown - {s.sid} && (s.upstream ==> !t.byUp)
  {
    var s1 := CloseReading(s);
    assert CloseStep(s) == s1;
    var s2 := CloseDownIndex(s1);
    assert CloseStep(s1) == s2;
    if s.upstream {
      assert CloseStep(s2) == CloseUpIndex(s2);
    }
  }

  // ----- where the generation property stops

  ghost predicate Leads(s: State, t: State) { exists run :: Run(s, run) == t }

  lemma Onward(s: State, t: State, a: Action)
    requires Leads(s, t)
    ensures Leads(s, Step(t, a))
  {
    var run :| Run(s, run) == t;
    RunConcat(s, run, [a]);
    assert Run(t, [a]) == Step(t, a);
    assert Run(s, run + [a]) == Step(t, a);
  }

  // closeMu is free and the proxy dispatches to a generation that nobody will ever close
  // through it.
  predicate Orphaned(s: State) { CloseMuFree(s) && Live(s) && !Held(s, s.downstream.value) }

  // The goroutine inside respawnMu runs undisturbed and everything it asks for succeeds.
  lemma RespawnRuns(s0: State, s: State) returns (t: State)
    requires Leads(s0, s) && s.resp.RespReserve? && s.closing.Nobody? && s.sid == 0 && s.resp.id >= 1
    ensures Leads(s0, t)
    ensures t.start == s.start && t.lookups == s.lookups && t.waiting == s.waiting && t.closing.Nobody?
    ensures t.resp.RespUnlock? && !t.closed && 0 !in t.byDown && t.shared == s.shared
    ensures t.sid == s.resp.id && (0 in s.mgr ==> 0 in t.mgr)
  {
    hide Leads;
    t := RespawnSurvives(s0, s);
    Onward(s0, t, ARespawn(true));
    t := RespawnCrediting(t);
    Onward(s0, t, ARespawn(true));
    t := RespawnStoring(t);
  }

  lemma RespawnSurvives(s0: State, s: State) returns (t: State)
    requires Leads(s0, s) && s.resp.RespReserve? && s.closing.Nobody? && s.sid == 0 && s.resp.id >= 1
    ensures Leads(s0, t) && t.resp == RespCredit(s.resp.id) && Tracks(t, s.resp.id) && 0 !in t.byDown && t.raced == s.raced
    ensures t.sid == s.resp.id && (0 in s.mgr ==> 0 in t.mgr)
    ensures t.start == s.start && t.lookups == s.lookups && t.waiting == s.waiting && t.closing.Nobody?
    ensures t.shared == s.shared
  {
    hide Leads;
    t := ReservedRespawnRekeys(s0, s);
    Onward(s0, t, ARespawn(true));
    t := RespawnListing(t, true);
    Onward(s0, t, ARespawn(true));
    t := RespawnLock(t);
    Onward(s0, t, ARespawn(true));
    t := RespawnSurviving(t);
  }

  lemma ReservedRespawnRekeys(s0: State, s: State) returns (t: State)
    requires Leads(s0, s) && s.resp.RespReserve? && s.closing.Nobody? && s.sid == 0 && s.resp.id >= 1
    ensures Leads(s0, t) && t.resp == RespList(s.resp.id) && Tracks(t, s.resp.id) && 0 !in t.byDown && t.raced == s.raced
    ensures 0 in s.mgr ==> 0 in t.mgr
    ensures t.start == s.start && t.lookups == s.lookups && t.waiting == s.waiting && t.closing.Nobody?
    ensures t.shared == s.shared
  {
    hide Leads;
    Onward(s0, s, ARespawn(true));
    t := RespawnReserving(s, true);
    Onward(s0, t, ARespawn(true));
    t := RespawnConnecting(t, true);
    Onward(s0, t, ARespawn(true));
    t := RespawnReading(t);
    Onward(s0, t, ARespawn(true));
    t := RespawnRekeying(t);
  }

  // The startup goroutine runs to its store, which overwrites whatever pointer is there.
  lemma StartupStores(s0: State, s: State) returns (t: State)
    requires Leads(s0, s) && PreStore(s.start) && !s.shared && !s.closed && s.closing.Nobody?
    requires s.resp.RespUnlock? && 0 !in s.byDown && !Removing(s, 0)
    ensures Leads(s0, t) && Orphaned(t)
  {
    hide Leads;
    t := s;
    if t.start.StartReserve? {
      Onward(s0, t, AStartReserve(true));
      t := StartReserving(t, true);
    }
    if t.start.StartConnect? {
      Onward(s0, t, AStartConnect(true));
      t := StartConnecting(t, true);
    }
    Onward(s0, t, AStartStore);
    t := StartStoring(t);
  }

  // The goroutine inside closeMu always gets out.
  lemma ClosingEnds(s0: State, s: State) returns (t: State)
    requires Leads(s0, s) && Inv(s)
    ensures Leads(s0, t) && Inv(t) && t.closing.Nobody? && t.raced == s.raced && t.shared == s.shared
    ensures t.start == s.start && t.resp == s.resp && t.sid == s.sid && t.lookups == s.lookups && t.waiting == s.waiting
    ensures t.mgr == s.mgr && (s.closed || InPhase(s, CloseOnce) ==> t.closed)
  {
    hide Leads, Inv, CloseStep;
    t := s;
    while t.closing.Inside?
      invariant Leads(s0, t) && Inv(t) && t.raced == s.raced && t.shared == s.shared
      invariant t.start == s.start && t.resp == s.resp && t.sid == s.sid
      invariant t.lookups == s.lookups && t.waiting == s.waiting && t.mgr == s.mgr
      invariant s.closed ==> t.closed
      invariant InPhase(s, CloseOnce) ==> t.closed || t == s || InPhase(t, CloseMark)
      decreases PhasesLeft(t.closing)
    {
      Onward(s0, t, AClose);
      CloseStepKeeps(t);
      PhasesFall(t);
      OnceCloses(t);
      t := CloseStep(t);
    }
  }

  lemma PhasesFall(s: State)
    requires s.closing.Inside?
    ensures PhasesLeft(CloseStep(s).closing) < PhasesLeft(s.closing)
  {
    hide CloseRelease, CloseMarking, CloseReading, CloseDownIndex, CloseUpIndex;
  }

  lemma OnceCloses(s: State)
    requires Inv(s)
    ensures InPhase(s, CloseOnce) ==> CloseStep(s).closed || InPhase(CloseStep(s), CloseMark)
    ensures InPhase(s, CloseMark) ==> CloseStep(s).closed
  {
    hide CloseReading, CloseDownIndex, CloseUpIndex;
  }

  // A pending removal of generation 0 can run to its end before anything else happens.
  lemma RemovalSettles(s0: State, s: State) returns (t: State)
    requires Leads(s0, s) && Inv(s) && s.resp.RespReserve?
    ensures Leads(s0, t) && Inv(t) && t.closing.Nobody? && !Removing(t, 0)
    ensures t.start == s.start && t.resp == s.resp && t.sid == s.sid && t.shared == s.shared
  {
    hide Leads, Inv;
    var u := ClosingEnds(s0, s);
    var v := RemovalStarts(s0, u);
    t := ClosingEnds(s0, v);
  }

  lemma RemovalStarts(s0: State, s: State) returns (t: State)
    requires Leads(s0, s) && Inv(s) && s.resp.RespReserve? && s.closing.Nobody?
    ensures Leads(s0, t) && Inv(t) && ByRemoval(0) !in t.lookups && ByRemoval(0) !in t.waiting
    ensures t.start == s.start && t.resp == s.resp && t.sid == s.sid && t.shared == s.shared
  {
    hide Leads, Inv, RemovalLookup, CloseLock;
    Onward(s0, s, ARemovalLookup(0));
    RemovalLookupKeeps(s, 0);
    var u := RemovalLookup(s, 0);
    Onward(s0, u, ACloseLock(ByRemoval(0)));
    CloseLockKeeps(u, ByRemoval(0));
    t := CloseLock(u, ByRemoval(0));
    RemovalFound(s, 0);
    RemovalEnters(u, 0);
  }

  lemma RemovalFound(s: State, d: nat)
    requires s.resp.RespReserve? && s.closing.Nobody?
    ensures var t := RemovalLookup(s, d);
            && ByRemoval(d) !in t.lookups && t.closing.Nobody?
            && t.start == s.start && t.resp == s.resp && t.sid == s.sid
  {
  }

  lemma RemovalEnters(s: State, d: nat)
    requires s.resp.RespReserve? && s.closing.Nobody? && ByRemoval(d) !in s.lookups
    ensures var t := CloseLock(s, ByRemoval(d));
            && ByRemoval(d) !in t.lookups && ByRemoval(d) !in t.waiting
            && t.start == s.start && t.resp == s.resp && t.sid == s.sid
  {
    if ByRemoval(d) in s.waiting {
      assert CloseMuFree(s);
    }
  }

  // The condition of LiveGenerationIsHeld cannot be weakened: from the first respawn that
  // passes its double check before the startup goroutine has stored its pointer, some
  // continuation ends in an orphaned generation.
  lemma RacedRespawnOrphansTheStartup(run: seq<Action>, ok: bool)
    requires !Reached(false, run).raced && Reached(false, run).resp.RespCheck?
    requires PreStore(Reached(false, run).start) && !Live(Reached(false, run))
    ensures exists more :: Orphaned(Reached(false, run + [ARespawn(ok)] + more))
  {
    hide Orphaned;
    var s, u := Reached(false, run), Reached(false, run + [ARespawn(ok)]);
    RunConcat(Init(false), run, [ARespawn(ok)]);
    assert Run(s, [ARespawn(ok)]) == Step(s, ARespawn(ok)) == RespawnChecking(s);
    ReachedKeeps(false, run);
    ReachedKeeps(false, run + [ARespawn(ok)]);
    var t := RacedRunOrphans(u);
    var more :| Run(u, more) == t;
    RunConcat(Init(false), run + [ARespawn(ok)], more);
  }

  lemma RacedRunOrphans(u: State) returns (t: State)
    requires Inv(u) && !u.shared && u.resp.RespReserve? && PreStore(u.start) && u.sid == 0
    ensures Leads(u, t) && Orphaned(t)
  {
    assert Run(u, []) == u;
    assert Leads(u, u) && u.resp.id >= 1;
    hide Leads, Inv, Orphaned;
    t := RemovalSettles(u, u);
    t := RespawnRuns(u, t);
    t := StartupStores(u, t);
  }

  // ----- what a respawn publishes

  // Until the respawn of generation id has stored its pointer ...
  predicate Publishing(r: Respawn, id: nat) { r == RespCredit(id) || r == RespStore(id) }

  // ... and afterwards: it never comes back, because identifiers are fresh.
  predicate Past(s: State, id: nat) {
    id < s.nextId && (Working(s.resp) && !s.resp.RespDrop? ==> s.resp.id > id)
  }

  // GetSession and the pointer store are two sections: the manager may drop the generation
  // between them. It is exactly then that the published generation is one the manager no
  // longer holds, whatever else happens in between.
  lemma PublishedGenerationIsTracked(run: seq<Action>, ok0: bool, more: seq<Action>, ok1: bool, id: nat)
    requires Reached(false, run).resp == RespSurvive(id)
    requires Reached(false, run + [ARespawn(ok0)] + more).resp == RespStore(id)
    ensures var t := Reached(false, run + [ARespawn(ok0)] + more + [ARespawn(ok1)]);
            && Live(t) && t.downstream == Some(id) && CloseMuFree(t)
            && (Tracks(t, id) <==> AManagerDrops(id) !in more)
  {
    hide Inv, RespawnSurviving, RespawnStoring, Past, Run;
    var s, u := Reached(false, run), Reached(false, run + [ARespawn(ok0)]);
    var v := Reached(false, run + [ARespawn(ok0)] + more);
    ReachedOneMore(run, ARespawn(ok0));
    ReachedOneMore(run + [ARespawn(ok0)] + more, ARespawn(ok1));
    RunConcat(Init(false), run + [ARespawn(ok0)], more);
    ReachedKeeps(false, run);
    ReachedKeeps(false, run + [ARespawn(ok0)]);
    ReachedKeeps(false, run + [ARespawn(ok0)] + more);
    SurvivalDecides(s, id);
    if Past(u, id) {
      PastStays(u, more, id);
      PastIsNotStoring(v, id);
    } else {
      TrackedUntilDropped(u, more, id);
      StoreFrees(v, id);
    }
  }

  lemma ReachedOneMore(run: seq<Action>, a: Action)
    ensures Reached(false, run + [a]) == Step(Reached(false, run), a)
  {
    RunConcat(Init(false), run, [a]);
    assert Run(Reached(false, run), [a]) == Step(Reached(false, run), a);
  }

  lemma SurvivalDecides(s: State, id: nat)
    requires Inv(s) && !s.shared && s.resp == RespSurvive(id)
    ensures var u := RespawnSurviving(s); Past(u, id) || (u.resp == RespCredit(id) && Tracks(u, id))
  {
  }

  lemma StoreFrees(s: State, id: nat)
    requires Inv(s) && s.resp == RespStore(id)
    ensures var t := RespawnStoring(s); Live(t) && t.downstream == Some(id) && CloseMuFree(t) && t.mgr == s.mgr
  {
  }

  lemma {:induction false} PastStays(s: State, run: seq<Action>, id: nat)
    requires Past(s, id)
    ensures Past(Run(s, run), id)
    decreases |run|
  {
    if run != [] {
      StepStaysPast(s, run[0], id);
      PastStays(Step(s, run[0]), run[1..], id);
    }
  }

  lemma StepStaysPast(s: State, a: Action, id: nat)
    requires Past(s, id)
    ensures Past(Step(s, a), id)
  {
    hide RespawnStep, BeginRespawn;
    if !a.ARespawn? && !a.ABeginRespawn? {
      SectionsOutside(s, a);
    }
  }

  // Only the goroutine inside respawnMu moves its own section.
  lemma SectionsOutside(s: State, a: Action)
    requires !a.ARespawn? && !a.ABeginRespawn?
    ensures OutsideRespawn(s, Step(s, a))
    ensures Step(s, a).closed ==> s.closed || (a.AClose? && InPhase(s, CloseMark))
  {
    hide StartReserving, StartConnecting, StartStoring, StartListing, StartDropping;
    hide BeginClose, CloseLock, CloseStep, ManagerDrops, ManagerForgets, LeaseExpires, RemovalLookup, ExpiryLookup;
    hide Initialize, PublishCheck, PublishInsert, PublishRecheck, OnRespawn, OutsideRespawn;
  }

  lemma {:induction false} TrackedUntilDropped(s: State, run: seq<Action>, id: nat)
    requires Inv(s) && !s.shared && Publishing(s.resp, id) && Run(s, run).resp == RespStore(id)
    ensures Tracks(Run(s, run), id) <==> Tracks(s, id) && AManagerDrops(id) !in run
    decreases |run|
  {
    hide Inv, Past;
    if run != [] {
      var u := Step(s, run[0]);
      StepKeeps(s, run[0]);
      PublishingStep(s, run[0], id);
      if Past(u, id) {
        PastStays(u, run[1..], id);
        PastIsNotStoring(Run(s, run), id);
      } else {
        TrackedUntilDropped(u, run[1..], id);
        assert run == [run[0]] + run[1..];
      }
    }
  }

  lemma PastIsNotStoring(s: State, id: nat)
    requires Past(s, id)
    ensures s.resp != RespStore(id)
  {
  }

  lemma PublishingStep(s: State, a: Action, id: nat)
    requires Inv(s) && !s.shared && Publishing(s.resp, id)
    ensures var u := Step(s, a);
            Past(u, id) || (Publishing(u.resp, id) && (Tracks(u, id) <==> Tracks(s, id) && a != AManagerDrops(id)))
  {
    assert 1 <= id < s.nextId;
    hide Inv;
    if a.ARespawn? {
      assert s.resp.RespCredit? ==> Step(s, a) == RespawnCrediting(s);
      assert s.resp.RespStore? ==> Step(s, a) == RespawnStoring(s);
    } else if !a.ABeginRespawn? {
      SectionsOutside(s, a);
      OthersLeaveSlot(s, a, id);
    }
  }

  lemma OthersLeaveSlot(s: State, a: Action, id: nat)
    requires id >= 1 && !a.ARespawn? && !a.ABeginRespawn?
    ensures Tracks(Step(s, a), id) <==> Tracks(s, id) && a != AManagerDrops(id)
  {
    hide Step;
    if a.AStartReserve? || a.AStartConnect? {
      StartupLeavesSlot(s, a, id);
    } else if a.AManagerDrops? || a.AManagerForgets? {
      ManagerDropsOne(s, a, id);
    } else {
      OthersLeaveSlots(s, a);
    }
  }

  lemma StartupLeavesSlot(s: State, a: Action, id: nat)
    requires id >= 1 && (a.AStartReserve? || a.AStartConnect?)
    ensures Tracks(Step(s, a), id) <==> Tracks(s, id)
  {
    hide OutsideRespawn, StartReserving, StartConnecting, Gets;
  }

  lemma ManagerDropsOne(s: State, a: Action, id: nat)
    requires a.AManagerDrops? || a.AManagerForgets?
    ensures Tracks(Step(s, a), id) <==> Tracks(s, id) && a != AManagerDrops(id)
  {
    hide OutsideRespawn, ManagerDrops, ManagerForgets, Gets;
  }

  lemma OthersLeaveSlots(s: State, a: Action)
    requires !a.ARespawn? && !a.ABeginRespawn?
    requires !a.AStartReserve? && !a.AStartConnect? && !a.AManagerDrops? && !a.AManagerForgets?
    ensures Step(s, a).mgr == s.mgr
  {
    hide StartStoring, StartListing, StartDropping, OutsideRespawn;
    hide BeginClose, CloseLock, CloseStep, LeaseExpires, RemovalLookup, ExpiryLookup;
    hide Initialize, PublishCheck, PublishInsert, PublishRecheck, OnRespawn;
  }

  // So the promise that only a generation proven live in the manager is published is broken
  // in some run; what remains true is LiveGenerationIsHeld: its removal is waiting for closeMu.
  predicate PublishesDropped(s: State) {
    && !s.raced && s.resp.RespStore? && s.resp.id !in s.mgr
    && Live(RespawnStoring(s)) && CloseMuFree(RespawnStoring(s))
  }

  lemma DroppedGenerationIsPublished()
    ensures exists run :: PublishesDropped(Reached(false, run))
  {
    hide Leads;
    var s := ReachableClosed();
    s := ReachableIdle(s);
    s := ReachableCheck(s);
    s := ReachableStore(s);
    Onward(Init(false), s, AManagerDrops(s.resp.id));
    DropReached(ManagerDrops(s, s.resp.id));
  }

  lemma DropReached(s: State)
    requires Leads(Init(false), s) && PublishesDropped(s)
    ensures exists run :: PublishesDropped(Reached(false, run))
  {
    var run :| Run(Init(false), run) == s;
    assert PublishesDropped(Reached(false, run));
  }

  // A started session ...
  lemma ReachableStarted() returns (s: State)
    ensures Leads(Init(false), s) && s == Init(false).(start := StartDone, stored := true, mgr := map[0 := Tracked], downstream := Some(0))
  {
    var i := Init(false);
    assert Run(i, []) == i;
    hide Leads;
    Onward(i, i, AStartReserve(true));
    s := i.(start := StartConnect, mgr := map[0 := Reserved]);
    Onward(i, s, AStartConnect(true));
    s := s.(start := StartStore, mgr := map[0 := Tracked]);
    Onward(i, s, AStartStore);
    s := s.(start := StartList, stored := true, downstream := Some(0));
    Onward(i, s, AStartList(true));
    s := s.(start := StartDone);
  }

  // ... with a caller about to close it ...
  lemma ReachableClosed() returns (s: State)
    ensures Leads(Init(false), s) && !s.raced && s.resp.RespIdle? && !s.shared
    ensures s.closing == Inside(ByCaller(0), CloseOnce) && !s.onceUsed && s.sid == 0 && s.nextId == 1
    ensures !s.upstream && s.start.StartDone?
  {
    hide Leads;
    var i := Init(false);
    s := ReachableStarted();
    Onward(i, s, ABeginClose(0));
    s := BeginClose(s, 0);
    Onward(i, s, ACloseLock(ByCaller(0)));
    s := CloseLock(s, ByCaller(0));
  }

  // ... is closed ...
  lemma ReachableIdle(s0: State) returns (s: State)
    requires Leads(Init(false), s0) && !s0.raced && s0.resp.RespIdle? && !s0.shared
    requires s0.closing == Inside(ByCaller(0), CloseOnce) && !s0.onceUsed && s0.sid == 0 && s0.nextId == 1
    requires !s0.upstream && s0.start.StartDone?
    ensures Leads(Init(false), s) && !s.raced && s.resp.RespIdle? && s.closing.Nobody? && !s.shared
    ensures s.closed && s.sid == 0 && s.nextId == 1 && s.start.StartDone?
  {
    hide Leads;
    var i := Init(false);
    Onward(i, s0, AClose);
    s := CloseRelease(s0);
    Onward(i, s, AClose);
    s := CloseMarking(s);
    Onward(i, s, AClose);
    s := CloseReading(s);
    Onward(i, s, AClose);
    s := CloseDownIndex(s);
  }

  // ... and about to respawn ...
  lemma ReachableCheck(s0: State) returns (s: State)
    requires Leads(Init(false), s0) && !s0.raced && s0.resp.RespIdle? && s0.closing.Nobody? && !s0.shared
    requires s0.closed && s0.sid == 0 && s0.nextId == 1 && s0.start.StartDone?
    ensures Leads(Init(false), s) && !s.raced && s.resp == RespReserve(1) && s.closing.Nobody? && s.sid == 0
  {
    hide Leads;
    var i := Init(false);
    Onward(i, s0, ABeginRespawn);
    s := BeginRespawn(s0);
    Onward(i, s, ARespawn(true));
    s := RespawnChecking(s);
  }

  // ... and has a new generation that survived the check.
  lemma ReachableStore(s0: State) returns (s: State)
    requires Leads(Init(false), s0) && !s0.raced && s0.resp == RespReserve(1) && s0.closing.Nobody? && s0.sid == 0
    ensures Leads(Init(false), s) && !s.raced && s.resp == RespStore(1) && s.closing.Nobody? && Tracks(s, 1)
  {
    hide Leads;
    s := RespawnSurvives(Init(false), s0);
    Onward(Init(false), s, ARespawn(true));
    s := RespawnCrediting(s);
  }
}

/**
 The lease of one proxy in shared mode: whether SharedSessionManager tracks its session. The
 manager of module SharedSession counts the sessions it tracks, so a lease that is not
 returned keeps the subprocess alive.
*/
module ProxyLease {
  import opened Wrappers
  import opened ProxyMachine
  import opened ProxySessionProofs

  // `expiries` are the expiry callbacks that have not yet made their own call of RemoveSession;
  // `expired` and `cleared` remember that the reaper or CloseAll has been there.
  datatype System = System(proxy: State, lease: bool, expiries: set<nat>, expired: bool, cleared: bool)

  function Start(): System { System(Init(true), false, {}, false, false) }

  // GetOrCreateSession tracks the session and, when it fails, removes it again.
  function LeaseAfter(s: System, a: Action): bool {
    if a == AStartReserve(true) && s.proxy.start.StartReserve? then true
    else if a == AStartConnect(false) && s.proxy.start.StartConnect? then false
    else s.lease
  }

  // Nobody else knows the proxy before its lease exists, and no caller before its startup is
  // over; inside closeOnce the lease is returned before the generation is marked closed.
  predicate Blocked(s: System, a: Action) {
    || (s.proxy.start.StartReserve? && !a.AStartReserve?)
    || (a.ABeginClose? && !s.proxy.start.StartDone?)
    || a.ALeaseExpires?
    || (a.AClose? && InPhase(s.proxy, CloseMark) && s.lease)
  }

  function Proceed(s: System, a: Action): System {
    if Blocked(s, a) then s else s.(proxy := ProxyMachine.Step(s.proxy, a), lease := LeaseAfter(s, a))
  }

  // closeOnce calls RemoveSession.
  function CloseReturns(s: System): System {
    if InPhase(s.proxy, CloseMark) then s.(lease := false) else s
  }

  // The reaper marks the session and calls back ...
  function Expires(s: System, n: nat): System {
    if !s.lease || n in s.expiries then s
    else s.(proxy := LeaseExpires(s.proxy, n), expiries := s.expiries + {n}, expired := true)
  }

  predicate CallbackClosing(p: State, n: nat) {
    ByExpiry(n) in p.lookups || ByExpiry(n) in p.waiting || (p.closing.Inside? && p.closing.who == ByExpiry(n))
  }

  // ... and the callback calls RemoveSession itself, whatever closeDownstream has done.
  function ExpiryEnds(s: System, n: nat): System {
    if n !in s.expiries || CallbackClosing(s.proxy, n) then s
    else s.(expiries := s.expiries - {n}, lease := false)
  }

  // CloseAll of the shared manager forgets every session.
  function Cleared(s: System): System { s.(lease := false, cleared := true) }

  datatype Event = Section(a: Action) | Return | Expire(n: nat) | EndExpiry(n: nat) | Clear

  function Next(s: System, e: Event): System {
    match e
    case Section(a) => Proceed(s, a)
    case Return => CloseReturns(s)
    case Expire(n) => Expires(s, n)
    case EndExpiry(n) => ExpiryEnds(s, n)
    case Clear => Cleared(s)
  }

  function Runs(s: System, run: seq<Event>): System
    decreases |run|
  {
    if run == [] then s else Runs(Next(s, run[0]), run[1..])
  }

  // The lease is tracked once, before anybody can close the proxy, and never again.
  ghost predicate Kept(s: System) {
    && Inv(s.proxy) && s.proxy.shared
    && (s.proxy.start.StartReserve? ==> s.proxy == Init(true) && !s.expired && !s.lease)
    && (s.proxy.closed ==> !s.lease)
    && (!PreStore(s.proxy.start) && !s.proxy.stored ==> !s.lease)
    && (s.expired && s.expiries == {} ==> !s.lease)
    && (s.expiries != {} ==> s.expired)
    && (!s.lease ==> s.expired || s.cleared || s.proxy.start.StartReserve? || GivenUp(s.proxy))
  }

  // The proxy is closed or inside closeOnce, or its startup has failed before it had a downstream.
  predicate GivenUp(p: State) { p.closed || InPhase(p, CloseMark) || (!PreStore(p.start) && !p.stored) }

  lemma SharedHasNoRespawn(p: State, a: Action)
    requires Inv(p) && p.shared && (a.ARespawn? || a.ABeginRespawn?)
    ensures ProxyMachine.Step(p, a) == p
  {
  }

  // Startup passes its store section or gives the lease up.
  lemma StartupStores(p: State, a: Action)
    requires !a.ARespawn? && !a.ABeginRespawn?
    ensures var t := ProxyMachine.Step(p, a);
            PreStore(p.start) && !PreStore(t.start) ==>
              (a == AStartReserve(false) && p.start.StartReserve?) || (a == AStartConnect(false) && p.start.StartConnect?) || t.stored
  {
    hide StartReserving, StartConnecting, StartStoring, StartListing, StartDropping;
    hide BeginClose, CloseLock, CloseStep, ManagerDrops, ManagerForgets, LeaseExpires, RemovalLookup, ExpiryLookup;
    hide Initialize, PublishCheck, PublishInsert, PublishRecheck, OnRespawn;
    hide OutsideRespawn, PreStore;
  }

  lemma NotYetStored(p: State)
    requires Inv(p)
    ensures PreStore(p.start) ==> !p.stored
  {
  }

  lemma StartupBegins(p: State, admitted: bool)
    requires p == Init(true)
    ensures var t := ProxyMachine.Step(p, AStartReserve(admitted));
            !t.start.StartReserve? && !t.closed && !t.stored && (PreStore(t.start) <==> admitted)
  {
  }

  lemma ConnectFails(p: State)
    requires p.start.StartConnect?
    ensures var t := ProxyMachine.Step(p, AStartConnect(false)); t.start.StartDrop? && t.stored == p.stored
  {
  }

  lemma ProceedKeeps(s: System, a: Action)
    requires Kept(s)
    ensures Kept(Proceed(s, a))
  {
    hide Inv, RespawnStep, BeginRespawn, ProxyMachine.Step;
    StepKeeps(s.proxy, a);
    NotYetStored(s.proxy);
    if a.AStartReserve? && s.proxy.start.StartReserve? {
      StartupBegins(s.proxy, a.ok);
    }
    if a.ARespawn? || a.ABeginRespawn? {
      SharedHasNoRespawn(s.proxy, a);
    } else {
      SectionsOutside(s.proxy, a);
      StartupStores(s.proxy, a);
      if s.proxy.start.StartConnect? {
        ConnectFails(s.proxy);
      }
    }
  }

  lemma NextKeeps(s: System, e: Event)
    requires Kept(s)
    ensures Kept(Next(s, e))
  {
    hide Inv;
    match e
    case Section(a) => ProceedKeeps(s, a);
    case Expire(n) => LeaseExpiresKeeps(s.proxy, n);
    case _ =>
  }

  lemma {:induction false} RunsKeep(s: System, run: seq<Event>)
    requires Kept(s)
    ensures Kept(Runs(s, run))
    decreases |run|
  {
    hide Kept;
    if run != [] {
      NextKeeps(s, run[0]);
      RunsKeep(Next(s, run[0]), run[1..]);
    }
  }

  // A shared proxy without a live downstream has returned its lease: a closed one always, one
  // whose startup failed when startup is over, and one that expired when the callback is
  // over, even if its close path had been used before. Conversely, a live one whose lease
  // neither expired nor was cleared by CloseAll holds it until it is being closed.
  lemma DeadProxyHoldsNoLease(run: seq<Event>)
    ensures var s := Runs(Start(), run);
            && (s.proxy.closed ==> !s.lease)
            && (s.proxy.start.StartDone? && !Live(s.proxy) ==> !s.lease)
            && (s.expired && s.expiries == {} ==> !s.lease)
            && (Live(s.proxy) && s.proxy.closing.Nobody? && !s.expired && !s.cleared ==> s.lease)
  {
    ReachedKeeps(true, []);
    RunsKeep(Start(), run);
  }

  // ----- what each flow does to the lease

  lemma RunsConcat(s: System, run: seq<Event>, e: Event)
    ensures Runs(s, run + [e]) == Next(Runs(s, run), e)
    decreases |run|
  {
    if run == [] {
      assert run + [e] == [e];
      assert Runs(Next(s, e), [e][1..]) == Next(s, e);
    } else {
      assert (run + [e])[1..] == run[1..] + [e];
      RunsConcat(Next(s, run[0]), run[1..], e);
    }
  }

  // A startup that is admitted takes the lease at once, keeps it if it gets a process, and
  // gives it back if it does not.
  lemma StartupTakesTheLease(ok: bool)
    ensures var s := Runs(Start(), [Section(AStartReserve(true))]);
            var u := Next(s, Section(AStartConnect(ok)));
            s.lease && s.proxy.start.StartConnect? && u.lease == ok && (ok ==> Live(Next(u, Section(AStartStore)).proxy))
    ensures !Next(Start(), Section(AStartReserve(false))).lease
  {
    RunsConcat(Start(), [], Section(AStartReserve(true)));
    assert [] + [Section(AStartReserve(true))] == [Section(AStartReserve(true))];
  }

  // Whoever closes a live proxy returns its lease on the way.
  lemma CloserReturnsTheLease(run: seq<Event>, c: Closer)
    requires var s := Runs(Start(), run); Live(s.proxy) && c in s.proxy.waiting && CloseMuFree(s.proxy)
    ensures var s := Runs(Start(), run);
            var a := Next(Next(s, Section(ACloseLock(c))), Section(AClose));
            var b := Next(Next(a, Return), Section(AClose));
            && InPhase(a.proxy, CloseMark) && a.lease == s.lease && (a.lease ==> Next(a, Section(AClose)) == a)
            && !b.lease && b.proxy.closed
  {
    ReachedKeeps(true, []);
    RunsKeep(Start(), run);
    var s := Runs(Start(), run);
    LiveIsOnceUnused(s.proxy);
    hide Kept, Runs;
    CloseReaches(s, c);
  }

  lemma LiveIsOnceUnused(p: State)
    requires Inv(p) && p.shared && Live(p) && CloseMuFree(p)
    ensures !p.onceUsed && !p.start.StartReserve?
  {
  }

  lemma CloseReaches(s: System, c: Closer)
    requires c in s.proxy.waiting && CloseMuFree(s.proxy) && !s.proxy.onceUsed && !s.proxy.start.StartReserve?
    ensures var a := Next(Next(s, Section(ACloseLock(c))), Section(AClose));
            var b := Next(Next(a, Return), Section(AClose));
            && InPhase(a.proxy, CloseMark) && a.lease == s.lease && (a.lease ==> Next(a, Section(AClose)) == a)
            && !b.lease && b.proxy.closed
  {
    hide OutsideRespawn, OutsideStartup, KeepsPointer, OnlyCloses;
    var l := Next(s, Section(ACloseLock(c)));
    assert l == s.(proxy := s.proxy.(waiting := s.proxy.waiting - {c}, closing := Inside(c, CloseOnce)));
  }

  // The reaper of the shared manager starts exactly one callback for a held lease; the end of
  // the callback returns the lease even if the proxy was closed before.
  lemma ExpiryReturnsTheLease(s: System, n: nat)
    ensures var u := Next(s, Expire(n));
            if s.lease && n !in s.expiries then
              u.expiries == s.expiries + {n} && u.expired && (s.proxy.shared ==> ByExpiry(n) in u.proxy.lookups) && u.lease
            else u == s
    ensures var u := Next(s, EndExpiry(n));
            if n in s.expiries && !CallbackClosing(s.proxy, n) then !u.lease && u.expiries == s.expiries - {n} && u.proxy == s.proxy
            else u == s
    ensures !Next(s, Clear).lease && Next(s, Clear).proxy == s.proxy
  {
  }
}

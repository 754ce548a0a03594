/**
 The calls of Manager.RemoveSession around the machine of one stateful proxy: who is about to
 make one, and with which identifier. RemoveSession deletes the slot and then reads the start
 time of what was in it (internal/session/manager.go:220-234), so on a slot that is only
 reserved it dereferences nil.
*/
module ProxyRemovals {
  import opened Wrappers
  import opened ProxyMachine
  import opened ProxySessionProofs

  // `calls` are the identifiers RemoveSession is about to be called with.
  datatype System = System(proxy: State, calls: set<nat>, crashed: bool)

  function Start(): System { System(Init(false), {}, false) }

  // Which call a section of the proxy decides on: after a failed tools/list the session just
  // spawned, and at the end of a respawn, published or abandoned, the generation before it.
  function Decided(p: State, a: Action): set<nat> {
    if a == AStartList(false) && p.start.StartList? then {0}
    else if a == ARespawn(false) && p.resp.RespList? then {p.resp.id}
    else if a.ARespawn? && p.resp.RespSurvive? then {p.sid}
    else {}
  }

  function Proceed(s: System, a: Action): System {
    s.(proxy := ProxyMachine.Step(s.proxy, a), calls := s.calls + Decided(s.proxy, a))
  }

  // The handler of a DELETE removes the session under the identifier it reads.
  function DeleteReads(s: System): System {
    s.(calls := if s.proxy.upstream then s.calls + {s.proxy.sid} else s.calls)
  }

  function RemoveSession(s: System, d: nat): System {
    if d !in s.calls then s
    else System(ManagerForgets(ManagerDrops(s.proxy, d), d), s.calls - {d},
                s.crashed || (d in s.proxy.mgr && s.proxy.mgr[d].Reserved?))
  }

  datatype Event = Section(a: Action) | Delete | Remove(d: nat)

  function Next(s: System, e: Event): System {
    match e
    case Section(a) => Proceed(s, a)
    case Delete => DeleteReads(s)
    case Remove(d) => RemoveSession(s, d)
  }

  function Runs(s: System, run: seq<Event>): System
    decreases |run|
  {
    if run == [] then s else Runs(Next(s, run[0]), run[1..])
  }

  // Nobody is about to remove a slot whose SpawnSession still runs, except after a raced respawn.
  ghost predicate Kept(s: System) {
    && Inv(s.proxy) && !s.proxy.shared
    && (forall d <- s.calls :: d < s.proxy.nextId)
    && (s.proxy.resp.RespReserve? || s.proxy.resp.RespConnect? ==> s.proxy.resp.id !in s.calls)
    && (0 in s.calls && PreStore(s.proxy.start) ==> s.proxy.raced)
    && (s.crashed ==> s.proxy.raced)
  }

  lemma RespawnIsFresh(p: State)
    requires Inv(p) && !p.shared
    ensures p.sid < p.nextId && (p.start.StartList? ==> 0 < p.nextId)
    ensures Working(p.resp) ==> 1 <= p.resp.id < p.nextId
    ensures p.resp.RespReserve? || p.resp.RespConnect? ==> p.resp.id != p.sid
    ensures p.resp.RespSurvive? && PreStore(p.start) ==> p.raced
    ensures p.upstream ==> !PreStore(p.start)
    ensures p.start.StartConnect? && 0 in p.mgr ==> p.mgr[0].Reserved?
    ensures forall d <- p.mgr :: p.mgr[d].Reserved? ==> (d == 0 && p.start.StartConnect?) || p.resp == RespConnect(d)
  {
  }

  lemma ProceedKeeps(s: System, a: Action)
    requires Kept(s)
    ensures Kept(Proceed(s, a))
  {
    hide Inv, RespawnStep, BeginRespawn;
    RespawnIsFresh(s.proxy);
    StepKeeps(s.proxy, a);
    if !a.ARespawn? && !a.ABeginRespawn? {
      SectionsOutside(s.proxy, a);
    }
  }

  lemma RemoveKeeps(s: System, d: nat)
    requires Kept(s)
    ensures Kept(RemoveSession(s, d))
  {
    hide Inv, ManagerDrops, ManagerForgets;
    RespawnIsFresh(s.proxy);
    ManagerDropsKeeps(s.proxy, d);
    ManagerForgetsKeeps(ManagerDrops(s.proxy, d), d);
  }

  lemma NextKeeps(s: System, e: Event)
    requires Kept(s)
    ensures Kept(Next(s, e))
  {
    hide Inv;
    match e
    case Section(a) => ProceedKeeps(s, a);
    case Delete => RespawnIsFresh(s.proxy);
    case Remove(d) => RemoveKeeps(s, d);
  }

  lemma {:induction false} RunsKeep(s: System, run: seq<Event>)
    requires Kept(s)
    ensures Kept(Runs(s, run))
    decreases |run|
  {
    hide Kept;
    if run != [] {
      NextKeeps(s, run[0]);
      RunsKeep(Next(s, run[0]), run[1..]);
    }
  }

  lemma StartsKept()
    ensures Kept(Start())
  {
    ReachedKeeps(false, []);
  }

  // As long as no respawn passes its double check before the startup goroutine has stored its
  // pointer, RemoveSession is never called on a slot that is only reserved.
  lemma NilRemovalNeedsRacedRespawn(run: seq<Event>)
    ensures Runs(Start(), run).crashed ==> Runs(Start(), run).proxy.raced
  {
    StartsKept();
    RunsKeep(Start(), run);
  }

  // Every run of the proxy with its calls is a run of the proxy alone, in which the removals
  // happen at some time, so what is proved there holds here.
  lemma {:induction false} RemovalsRefineProxy(s: System, run: seq<Event>) returns (sections: seq<Action>)
    ensures Runs(s, run).proxy == ProxyMachine.Run(s.proxy, sections)
    decreases |run|
  {
    if run == [] {
      sections := [];
    } else {
      var rest := RemovalsRefineProxy(Next(s, run[0]), run[1..]);
      var first := SectionsOf(s, run[0]);
      RunConcat(s.proxy, first, rest);
      SectionsRun(s, run[0]);
      sections := first + rest;
    }
  }

  function SectionsOf(s: System, e: Event): seq<Action> {
    match e
    case Section(a) => [a]
    case Delete => []
    case Remove(d) => if d in s.calls then [AManagerDrops(d), AManagerForgets(d)] else []
  }

  lemma SectionsRun(s: System, e: Event)
    ensures ProxyMachine.Run(s.proxy, SectionsOf(s, e)) == Next(s, e).proxy
  {
    hide ManagerDrops, ManagerForgets;
    match e
    case Section(a) => assert SectionsOf(s, e)[1..] == [];
    case Delete =>
    case Remove(d) =>
      if d in s.calls {
        assert SectionsOf(s, e)[1..] == [AManagerForgets(d)];
        assert ProxyMachine.Run(ManagerDrops(s.proxy, d), [AManagerForgets(d)]) == Next(s, e).proxy;
      }
  }

  // ----- exactly when the nil can be dereferenced

  // The slot of the first generation is reserved, or still will be.
  predicate Exposed(p: State) { p.start.StartReserve? || (p.start.StartConnect? && 0 in p.mgr) }

  lemma {:induction false} UnexposedNeverCrashes(s: System, run: seq<Event>)
    requires Kept(s) && !Exposed(s.proxy) && !s.crashed
    ensures !Runs(s, run).crashed
    decreases |run|
  {
    hide Kept, Exposed;
    if run != [] {
      NextKeeps(s, run[0]);
      UnexposedStays(s, run[0]);
      UnexposedNeverCrashes(Next(s, run[0]), run[1..]);
    }
  }

  lemma UnexposedStays(s: System, e: Event)
    requires Kept(s) && !Exposed(s.proxy) && !s.crashed
    ensures !Exposed(Next(s, e).proxy) && !Next(s, e).crashed
  {
    hide Inv, RespawnStep, BeginRespawn, ManagerDrops, ManagerForgets;
    RespawnIsFresh(s.proxy);
    match e
    case Section(a) =>
      if !a.ARespawn? && !a.ABeginRespawn? {
        SectionsOutside(s.proxy, a);
      }
    case Delete =>
    case Remove(d) =>
  }

  // The proxy runs on and nobody removes anything meanwhile.
  function Sections(run: seq<Action>): (events: seq<Event>)
    ensures |events| == |run| && forall i :: 0 <= i < |run| ==> events[i] == Section(run[i])
  {
    if run == [] then [] else [Section(run[0])] + Sections(run[1..])
  }

  // Once the identifier has changed, the removal of the first generation has been decided.
  lemma {:induction false} SectionsDecide(s: System, run: seq<Action>)
    requires s.proxy.sid == 0 || 0 in s.calls
    ensures var t := Runs(s, Sections(run));
            t.proxy == ProxyMachine.Run(s.proxy, run) && (t.proxy.sid == 0 || 0 in t.calls)
    decreases |run|
  {
    if run != [] {
      var a := run[0];
      assert Sections(run)[0] == Section(a);
      hide ProxyMachine.Step;
      IdentifierMoves(s.proxy, a);
      SectionsDecide(Proceed(s, a), run[1..]);
      assert Sections(run)[1..] == Sections(run[1..]);
    }
  }

  // Only the survival check of a respawn changes the identifier.
  lemma IdentifierMoves(p: State, a: Action)
    ensures ProxyMachine.Step(p, a).sid == p.sid || (a.ARespawn? && p.resp.RespSurvive?)
  {
    hide RespawnStep;
    if !a.ARespawn? && !a.ABeginRespawn? {
      SectionsOutside(p, a);
    }
  }

  lemma {:induction false} RunsConcat(s: System, first: seq<Event>, second: seq<Event>)
    ensures Runs(s, first + second) == Runs(Runs(s, first), second)
    decreases |first|
  {
    if first == [] {
      assert first + second == second;
    } else {
      assert (first + second)[1..] == first[1..] + second;
      RunsConcat(Next(s, first[0]), first[1..], second);
    }
  }

  // The respawn publishes while the slot of the first generation is reserved.
  lemma RespawnOvertakesStartup(p: State) returns (t: State)
    requires Inv(p) && !p.shared && p.resp.RespReserve? && p.sid == 0 && Exposed(p)
    ensures Leads(p, t) && t.sid != 0 && t.start.StartConnect? && 0 in t.mgr && t.mgr[0].Reserved?
  {
    RespawnIsFresh(p);
    assert ProxyMachine.Run(p, []) == p;
    assert Leads(p, p);
    hide Leads, Inv;
    t := ClosingEnds(p, p);
    t := RespawnRuns(p, t);
    if t.start.StartReserve? {
      Onward(p, t, AStartReserve(true));
      t := StartReserving(t, true);
    } else {
      LeadsKeeps(p, t);
      RespawnIsFresh(t);
    }
  }

  lemma LeadsKeeps(p: State, t: State)
    requires Inv(p) && Leads(p, t)
    ensures Inv(t) && t.shared == p.shared
  {
    var run :| ProxyMachine.Run(p, run) == t;
    RunKeeps(p, run);
  }

  lemma ExposedCrashes(s: System)
    requires Kept(s) && s.proxy.resp.RespReserve? && s.proxy.sid == 0 && Exposed(s.proxy)
    ensures exists more :: Runs(s, more).crashed
  {
    var t := RespawnOvertakesStartup(s.proxy);
    var run :| ProxyMachine.Run(s.proxy, run) == t;
    SectionsDecide(s, run);
    RunsConcat(s, Sections(run), [Remove(0)]);
    assert Runs(Runs(s, Sections(run)), [Remove(0)]) == RemoveSession(Runs(s, Sections(run)), 0);
    assert Runs(s, Sections(run) + [Remove(0)]).crashed;
  }

  // When a respawn passes its double check before startup has stored its pointer, a nil can
  // be dereferenced later on if and only if the slot of the startup is reserved or still to
  // be reserved; it is, when the respawn comes of a notification during the first connect.
  lemma RacedRespawnDereferencesNil(run: seq<Event>, ok: bool)
    requires var s := Runs(Start(), run);
             !s.crashed && s.proxy.resp.RespCheck? && !Live(s.proxy) && s.proxy.sid == 0
    ensures (exists more :: Runs(Start(), run + [Section(ARespawn(ok))] + more).crashed) <==> Exposed(Runs(Start(), run).proxy)
  {
    hide Exposed, Kept;
    var s := Runs(Start(), run);
    var u := Proceed(s, ARespawn(ok));
    StartsKept();
    RunsKeep(Start(), run);
    NextKeeps(s, Section(ARespawn(ok)));
    RunsConcat(Start(), run, [Section(ARespawn(ok))]);
    assert Runs(s, [Section(ARespawn(ok))]) == u;
    CheckExposes(s, ok);
    forall more ensures Runs(Start(), run + [Section(ARespawn(ok))] + more) == Runs(u, more) {
      RunsConcat(Start(), run + [Section(ARespawn(ok))], more);
    }
    if Exposed(u.proxy) {
      ExposedCrashes(u);
      var more :| Runs(u, more).crashed;
      assert Runs(Start(), run + [Section(ARespawn(ok))] + more).crashed;
    } else {
      forall more ensures !Runs(Start(), run + [Section(ARespawn(ok))] + more).crashed {
        UnexposedNeverCrashes(u, more);
      }
    }
  }

  // It happens: the downstream notifies while it is being connected.
  lemma NilIsDereferenced()
    ensures exists run :: Runs(Start(), run).crashed
  {
    hide Kept;
    var run := [Section(AStartReserve(true)), Section(ABeginRespawn)];
    assert run[1..] == [Section(ABeginRespawn)];
    assert run[1..][1..] == [];
    var s := Proceed(Start(), AStartReserve(true));
    assert Runs(Start(), run) == Runs(s, [Section(ABeginRespawn)]) == Proceed(s, ABeginRespawn);
    RacedRespawnDereferencesNil(run, true);
  }

  lemma CheckExposes(s: System, ok: bool)
    requires s.proxy.resp.RespCheck? && !Live(s.proxy)
    ensures var u := Proceed(s, ARespawn(ok));
            && u.proxy.resp.RespReserve? && u.proxy.sid == s.proxy.sid && u.crashed == s.crashed
            && (Exposed(u.proxy) <==> Exposed(s.proxy))
  {
    assert ProxyMachine.Step(s.proxy, ARespawn(ok)) == RespawnChecking(s.proxy);
  }

  // Which calls are made: for the session spawned before a failed tools/list, for the previous
  // generation at the end of a respawn, and for an initialized session under DELETE; and no
  // other section makes one.
  lemma CallsExactlyWhen(s: System, a: Action, d: nat)
    ensures d in Next(s, Section(a)).calls <==>
              || d in s.calls
              || (d == 0 && a == AStartList(false) && s.proxy.start.StartList?)
              || (a == ARespawn(false) && s.proxy.resp == RespList(d))
              || (d == s.proxy.sid && a.ARespawn? && s.proxy.resp.RespSurvive?)
    ensures d in Next(s, Delete).calls <==> d in s.calls || (s.proxy.upstream && d == s.proxy.sid)
    ensures Next(s, Section(a)).proxy == ProxyMachine.Step(s.proxy, a)
  {
    hide ProxyMachine.Step;
  }

  // A call that is made takes the slot out and calls back for a session that was there.
  lemma CallRemoves(s: System, d: nat)
    requires d in s.calls
    ensures var u := Next(s, Remove(d));
            && d !in u.proxy.mgr && d !in u.calls && u.proxy.mgr == s.proxy.mgr - {d}
            && (Tracks(s.proxy, d) ==> ByRemoval(d) in u.proxy.lookups)
            && (u.crashed <==> s.crashed || (d in s.proxy.mgr && s.proxy.mgr[d].Reserved?))
  {
    SlotLeaves(s.proxy, d);
    hide ManagerDrops, ManagerForgets;
  }

  lemma SlotLeaves(p: State, d: nat)
    ensures var u := ManagerForgets(ManagerDrops(p, d), d);
            u.mgr == p.mgr - {d} && (Tracks(p, d) ==> ByRemoval(d) in u.lookups)
  {
    DropTakes(p, d);
    ForgetTakes(ManagerDrops(p, d), d);
    hide ManagerDrops, ManagerForgets;
    if !Tracks(p, d) && !(d in p.mgr && p.mgr[d].Reserved?) {
      assert p.mgr - {d} == p.mgr;
    } else {
      assert p.mgr - {d} - {d} == p.mgr - {d};
    }
  }

  lemma DropTakes(p: State, d: nat)
    ensures var v := ManagerDrops(p, d);
            if Tracks(p, d) then v.mgr == p.mgr - {d} && ByRemoval(d) in v.lookups else v == p
  {
    hide OutsideRespawn, OutsideStartup, KeepsPointer;
  }

  lemma ForgetTakes(p: State, d: nat)
    ensures var v := ManagerForgets(p, d);
            v.lookups == p.lookups && v.mgr == if d in p.mgr && p.mgr[d].Reserved? then p.mgr - {d} else p.mgr
  {
    hide OutsideRespawn, OutsideStartup, KeepsPointer;
  }
}

/**
 What a proxy session achieves: which process it points at, and that startup, initialization,
 respawn and removal do what they are for.
*/
module ProxyOutcomes {
  import opened Wrappers
  import opened ProxyMachine
  import opened ProxySessionProofs

  // ----- the pointer of a shared proxy

  // Step i is the startup goroutine's store.
  ghost predicate StoresAt(run: seq<Action>, i: nat) {
    i < |run| && run[i] == AStartStore && Reached(true, run[..i]).start.StartStore?
  }

  // Since step i the last notification of the shared manager named process ds, and if there
  // was none, ds is the process the startup got.
  ghost predicate LastNotified(run: seq<Action>, i: nat, ds: nat) {
    || (exists j :: i < j < |run| && run[j] == AOnRespawn(ds) && forall k :: j < k < |run| ==> !run[k].AOnRespawn?)
    || (ds == 0 && forall k :: i < k < |run| ==> !run[k].AOnRespawn?)
  }

  lemma PointerMoves(s: State, a: Action)
    requires Inv(s) && s.shared
    ensures var t := Step(s, a);
            && (a.AOnRespawn? && s.stored && !s.closed ==> t.downstream == Some(a.ds))
            && (a == AStartStore && s.start.StartStore? && !s.closed ==> t.downstream == Some(0))
            && (!a.AOnRespawn? && !(a == AStartStore && s.start.StartStore?) ==> t.downstream == s.downstream || t.closed)
            && (a.AOnRespawn? && !s.stored ==> t.downstream == s.downstream)
            && (s.closed ==> t.closed)
            && (t.stored ==> s.stored || (a == AStartStore && s.start.StartStore?))
  {
    hide StartReserving, StartConnecting, StartListing, StartDropping;
    hide BeginClose, CloseLock, CloseStep, ManagerDrops, ManagerForgets, LeaseExpires, RemovalLookup, ExpiryLookup;
    hide Initialize, PublishCheck, PublishInsert, PublishRecheck;
    if a.ARespawn? || a.ABeginRespawn? {
      assert Step(s, a) == s;
    }
  }

  lemma StoredOnce(s: State)
    requires Inv(s)
    ensures s.start.StartStore? ==> !s.stored
    ensures s.shared && s.downstream.Some? ==> s.stored
  {
  }

  // A live shared proxy points at the process of the last notification since its startup
  // stored the pointer, or at the process startup got if there was none.
  lemma {:induction false} LivePointerIsLastNotified(run: seq<Action>)
    requires Live(Reached(true, run))
    ensures exists i: nat :: StoresAt(run, i) && LastNotified(run, i, Reached(true, run).downstream.value)
    decreases |run|
  {
    hide Inv, Step;
    if run == [] {
    } else {
      var n := |run| - 1;
      var before, a := run[..n], run[n];
      var s := Reached(true, before);
      assert run == before + [a];
      RunConcat(Init(true), before, [a]);
      assert Run(s, [a]) == Step(s, a);
      ReachedKeeps(true, before);
      ReachedKeeps(true, run);
      StoredOnce(s);
      StoredOnce(Reached(true, run));
      PointerMoves(s, a);
      PrefixesAgree(run);
      if a == AStartStore && s.start.StartStore? {
        assert StoresAt(run, n) && LastNotified(run, n, 0);
      } else {
        StoredLive(s);
        LivePointerIsLastNotified(before);
        var i: nat :| StoresAt(before, i) && LastNotified(before, i, s.downstream.value);
        StoresExtend(run, i);
        NoticesExtend(run, i, s.downstream.value);
      }
    }
  }

  lemma PrefixesAgree(run: seq<Action>)
    requires run != []
    ensures forall i :: 0 <= i < |run| ==> run[..|run| - 1][..i] == run[..i]
  {
  }

  lemma StoredLive(s: State)
    requires Inv(s) && s.shared && s.stored && !s.closed
    ensures Live(s)
  {
  }

  lemma StoresExtend(run: seq<Action>, i: nat)
    requires run != [] && StoresAt(run[..|run| - 1], i)
    ensures StoresAt(run, i)
  {
    PrefixesAgree(run);
  }

  lemma NoticesExtend(run: seq<Action>, i: nat, ds: nat)
    requires run != [] && i < |run| - 1 && LastNotified(run[..|run| - 1], i, ds)
    ensures LastNotified(run, i, if run[|run| - 1].AOnRespawn? then run[|run| - 1].ds else ds)
  {
    var n := |run| - 1;
    var before := run[..n];
    if run[n].AOnRespawn? {
      assert run[n] == AOnRespawn(run[n].ds);
    } else if exists j :: i < j < n && before[j] == AOnRespawn(ds) && forall k :: j < k < n ==> !before[k].AOnRespawn? {
      var j :| i < j < n && before[j] == AOnRespawn(ds) && forall k :: j < k < n ==> !before[k].AOnRespawn?;
      assert run[j] == AOnRespawn(ds);
      forall k | j < k < |run| ensures !run[k].AOnRespawn? {
        if k < n {
          assert before[k] == run[k];
        }
      }
    } else {
      forall k | i < k < |run| ensures !run[k].AOnRespawn? {
        if k < n {
          assert before[k] == run[k];
        }
      }
    }
  }

  // ----- what each flow leads to

  lemma OneMore(s: State, run: seq<Action>, a: Action)
    ensures Run(s, run + [a]) == Step(Run(s, run), a)
  {
    RunConcat(s, run, [a]);
    assert Run(Run(s, run), [a]) == Step(Run(s, run), a);
  }

  lemma RunTwo(s: State, a: Action, b: Action)
    ensures Run(s, [a, b]) == Step(Step(s, a), b)
  {
    hide Step;
    OneMore(s, [a], b);
    assert [a] + [b] == [a, b];
  }

  lemma RunFour(s: State, a: Action, b: Action, c: Action, d: Action)
    ensures Run(s, [a, b, c, d]) == Step(Step(Step(Step(s, a), b), c), d)
  {
    hide Step;
    RunTwo(s, a, b);
    OneMore(s, [a, b], c);
    OneMore(s, [a, b, c], d);
    assert [a, b] + [c] == [a, b, c] && [a, b, c] + [d] == [a, b, c, d];
  }

  // A startup whose every call succeeds ends with a live proxy on its own process, and in
  // stateful mode with a session the manager tracks.
  lemma StartupConnects(s: State)
    requires s.start.StartReserve? && !s.closed
    ensures var t := Run(s, [AStartReserve(true), AStartConnect(true), AStartStore, AStartList(true)]);
            && t == s.(start := StartDone, stored := true, downstream := Some(0), mgr := t.mgr)
            && t.mgr == (if s.shared then s.mgr else s.mgr[0 := Tracked])
  {
    hide Run, Step;
    RunFour(s, AStartReserve(true), AStartConnect(true), AStartStore, AStartList(true));
    StartupHasProcess(s);
    var u := Step(Step(s, AStartReserve(true)), AStartConnect(true));
    StartupPublishes(u);
  }

  lemma StartupHasProcess(s: State)
    requires s.start.StartReserve?
    ensures var u := Step(Step(s, AStartReserve(true)), AStartConnect(true));
            u == s.(start := StartStore, mgr := if s.shared then s.mgr else s.mgr[0 := Tracked])
  {
    hide OutsideRespawn, KeepsPointer;
    var t := Step(s, AStartReserve(true));
    assert t == s.(start := StartConnect, mgr := if s.shared then s.mgr else s.mgr[0 := Reserved]);
    assert !s.shared ==> t.mgr[0 := Tracked] == s.mgr[0 := Tracked];
  }

  lemma StartupPublishes(s: State)
    requires s.start.StartStore? && !s.closed
    ensures Step(Step(s, AStartStore), AStartList(true)) == s.(start := StartDone, stored := true, downstream := Some(0))
  {
    hide OutsideRespawn, KeepsPointer;
  }

  // A process that cannot be had leaves no trace, however far the startup came, and one that
  // does not answer tools/list makes the startup close what it opened.
  lemma FailedStartupCleansUp(s: State)
    ensures s.start.StartReserve? ==>
              Run(s, [AStartReserve(false), AStartDrop]) == s.(start := StartDone, pub := PubOver, byDown := s.byDown - {0})
    ensures s.start.StartConnect? ==>
              Run(s, [AStartConnect(false), AStartDrop])
              == s.(start := StartDone, pub := PubOver, byDown := s.byDown - {0}, mgr := s.mgr - {0})
    ensures s.start.StartList? ==>
              Step(s, AStartList(false)) == s.(start := StartDone, pub := PubOver, waiting := s.waiting + {ByStartup})
  {
    hide OutsideRespawn, OutsideStartup, KeepsPointer, Run;
    if s.start.StartReserve? {
      RunTwo(s, AStartReserve(false), AStartDrop);
      assert Step(s, AStartReserve(false)) == s.(start := StartDrop);
    } else if s.start.StartConnect? {
      RunTwo(s, AStartConnect(false), AStartDrop);
      assert Step(s, AStartConnect(false)) == s.(start := StartDrop, mgr := s.mgr - {0});
    }
  }

  // An initialized live session is counted once and found under both identifiers.
  lemma InitializationCounts(s: State)
    requires Inv(s) && s.start.StartDone? && s.pub.PubNotYet? && Live(s) && CloseMuFree(s)
    ensures var t := Run(s, [AInitialize, APublishCheck, APublishInsert, APublishRecheck]);
            && t == s.(upstream := true, counted := true, gauge := 1, pub := PubOver, byUp := true, byDown := s.byDown + {s.sid})
  {
    assert s.gauge == if s.counted then 1 else 0;
    hide Inv;
    RunFour(s, AInitialize, APublishCheck, APublishInsert, APublishRecheck);
    hide Run, Step;
    SessionIsCredited(s);
    var u := s.(upstream := true, pub := PubInsert(true), counted := true, gauge := 1);
    SessionIsIndexed(u);
  }

  lemma SessionIsCredited(s: State)
    requires s.start.StartDone? && s.pub.PubNotYet? && Live(s) && CloseMuFree(s)
    requires s.gauge == if s.counted then 1 else 0
    ensures Step(Step(s, AInitialize), APublishCheck) == s.(upstream := true, pub := PubInsert(true), counted := true, gauge := 1)
  {
    hide OutsideRespawn, OutsideStartup, KeepsPointer;
  }

  lemma SessionIsIndexed(s: State)
    requires s.pub == PubInsert(true) && Live(s) && CloseMuFree(s)
    ensures Step(Step(s, APublishInsert), APublishRecheck) == s.(pub := PubOver, byUp := true, byDown := s.byDown + {s.sid})
  {
    hide OutsideRespawn, OutsideStartup, KeepsPointer;
  }

  // The credit is taken exactly for a live session; a dead shared one closes itself, a dead
  // stateful one is only indexed.
  lemma CheckDecides(s: State)
    requires s.pub.PubCheck? && CloseMuFree(s)
    ensures var t := Step(s, APublishCheck);
            && t.counted == (s.counted || Live(s))
            && t.gauge == (if Live(s) && !s.counted then s.gauge + 1 else s.gauge)
            && t.pub == (if !Live(s) && s.shared then PubOver else PubInsert(Live(s)))
            && t.waiting == (if !Live(s) && s.shared then s.waiting + {ByPublisher} else s.waiting)
  {
  }

  // A generation that died while it was being published is closed by its publisher.
  lemma DeadGenerationIsClosedAgain(s: State)
    requires s.pub == PubRecheck(true) && CloseMuFree(s)
    ensures var t := Step(s, APublishRecheck); t.pub.PubOver? && (ByPublisher in t.waiting <==> !Live(s) || ByPublisher in s.waiting)
  {
  }

  // A call on a live session respawns nothing.
  lemma LiveGenerationIsNotRespawned(s: State)
    requires !s.shared && s.resp.RespIdle? && Live(s)
    ensures Run(s, [ABeginRespawn, ARespawn(true), ARespawn(true)]) == s
  {
    hide Run, RespawnStep, Step;
    RunTwo(s, ABeginRespawn, ARespawn(true));
    OneMore(s, [ABeginRespawn, ARespawn(true)], ARespawn(true));
    assert [ABeginRespawn, ARespawn(true)] + [ARespawn(true)] == [ABeginRespawn, ARespawn(true), ARespawn(true)];
    RespawnBegins(s);
    LiveIsKept(s.(resp := RespCheck));
    UnlockIdles(s.(resp := RespUnlock));
    RespawnSection(s.(resp := RespCheck));
    RespawnSection(s.(resp := RespUnlock));
  }

  lemma LiveIsKept(s: State)
    requires s.resp.RespCheck? && Live(s)
    ensures RespawnStep(s, true) == s.(resp := RespUnlock)
  {
    hide RespawnMoves;
  }

  lemma RespawnSection(s: State)
    ensures Step(s, ARespawn(true)) == RespawnStep(s, true)
  {
    hide RespawnStep;
  }

  function Rounds(n: nat): seq<Action>
    ensures |Rounds(n)| == n
  {
    if n == 0 then [] else Rounds(n - 1) + [ARespawn(true)]
  }

  // A dead stateful session gets a fresh generation that the manager tracks, that the index
  // leads to it instead of the old one, and that the gauge counts if a client initialized it.
  lemma RespawnRevives(s: State)
    requires Inv(s) && !s.shared && s.resp.RespIdle? && s.closing.Nobody? && !Live(s)
    ensures var t := Run(s, [ABeginRespawn] + Rounds(11));
            && t == s.(resp := RespIdle, downstream := Some(s.nextId), closed := false, onceUsed := false,
                       sid := s.nextId, nextId := s.nextId + 1, mgr := s.mgr[s.nextId := Tracked],
                       byDown := s.byDown - {s.sid} + {s.nextId}, byUp := s.byUp || s.upstream,
                       counted := s.upstream, gauge := if s.upstream then 1 else 0, raced := t.raced)
  {
    hide Inv, Run, Step, Rounds;
    DeadIsUncounted(s);
    var u := RespawnConnects(s);
    RespawnPublishes(u, s.nextId);
    RespawnTakes(s, 4, 7);
    RespawnReplaces(s, u);
  }

  lemma RespawnReplaces(s: State, u: State)
    requires u == s.(resp := RespRekey(s.nextId, s.upstream), nextId := s.nextId + 1,
                     mgr := s.mgr[s.nextId := Tracked], raced := u.raced)
    ensures u.(resp := RespIdle, downstream := Some(s.nextId), closed := false, onceUsed := false, sid := s.nextId,
               byDown := u.byDown - {u.sid} + {s.nextId}, byUp := u.byUp || u.upstream,
               counted := u.upstream, gauge := if u.upstream then 1 else 0)
         == s.(resp := RespIdle, downstream := Some(s.nextId), closed := false, onceUsed := false,
               sid := s.nextId, nextId := s.nextId + 1, mgr := s.mgr[s.nextId := Tracked],
               byDown := s.byDown - {s.sid} + {s.nextId}, byUp := s.byUp || s.upstream,
               counted := s.upstream, gauge := if s.upstream then 1 else 0, raced := u.raced)
  {
  }

  lemma RespawnTakes(s: State, m: nat, n: nat)
    ensures Run(s, [ABeginRespawn] + Rounds(m + n)) == Run(Run(Step(s, ABeginRespawn), Rounds(m)), Rounds(n))
  {
    RunConcat(s, [ABeginRespawn], Rounds(m + n));
    assert Run(s, [ABeginRespawn]) == Step(s, ABeginRespawn);
    RoundsConcat(Step(s, ABeginRespawn), m, n);
  }

  lemma DeadIsUncounted(s: State)
    requires Inv(s) && s.resp.RespIdle? && !Live(s)
    ensures !s.counted && s.gauge == 0
  {
  }

  lemma RoundsConcat(s: State, m: nat, n: nat)
    ensures Run(s, Rounds(m + n)) == Run(Run(s, Rounds(m)), Rounds(n))
  {
    hide Step;
    if n > 0 {
      RoundsConcat(s, m, n - 1);
      OneMore(s, Rounds(m + n - 1), ARespawn(true));
      OneMore(Run(s, Rounds(m)), Rounds(n - 1), ARespawn(true));
    }
  }

  lemma FirstRound(s: State, n: nat)
    requires n > 0
    ensures Run(s, Rounds(n)) == Run(RespawnStep(s, true), Rounds(n - 1))
    ensures n == 1 ==> Run(s, Rounds(n)) == RespawnStep(s, true)
  {
    RoundsConcat(s, 1, n - 1);
    assert Rounds(1) == [ARespawn(true)];
    assert Run(s, [ARespawn(true)]) == Step(s, ARespawn(true));
  }

  lemma RespawnConnects(s: State) returns (t: State)
    requires !s.shared && s.resp.RespIdle? && !Live(s)
    ensures t == Run(Step(s, ABeginRespawn), Rounds(4))
    ensures t == s.(resp := RespRekey(s.nextId, s.upstream), nextId := s.nextId + 1,
                    mgr := s.mgr[s.nextId := Tracked], raced := t.raced)
  {
    var id := s.nextId;
    hide Run, Step, RespawnStep, Rounds, RespawnMoves;
    var b := s.(resp := RespCheck);
    RespawnBegins(s);
    ThreeRounds(b, 4);
    SpawnIsTracked(b);
    t := RespawnStep(RespawnStep(RespawnStep(b, true), true), true);
    UpstreamIsRead(t, s.nextId);
    FirstRound(t, 1);
    t := RespawnStep(t, true);
  }

  lemma RespawnBegins(s: State)
    requires !s.shared && s.resp.RespIdle?
    ensures Step(s, ABeginRespawn) == s.(resp := RespCheck)
  {
  }

  lemma SpawnIsTracked(s: State)
    requires s.resp.RespCheck? && !Live(s)
    ensures RespawnStep(RespawnStep(RespawnStep(s, true), true), true)
         == s.(resp := RespRead(s.nextId), nextId := s.nextId + 1, mgr := s.mgr[s.nextId := Tracked],
               raced := s.raced || PreStore(s.start))
  {
    hide RespawnMoves;
    assert s.mgr[s.nextId := Reserved][s.nextId := Tracked] == s.mgr[s.nextId := Tracked];
  }

  lemma UpstreamIsRead(s: State, id: nat)
    requires s.resp == RespRead(id)
    ensures RespawnStep(s, true) == s.(resp := RespRekey(id, s.upstream))
  {
  }

  lemma RespawnPublishes(s: State, id: nat)
    requires s.resp == RespRekey(id, s.upstream) && s.closing.Nobody? && Tracks(s, id) && !s.counted && s.gauge == 0
    ensures Run(s, Rounds(7)) == s.(resp := RespIdle, downstream := Some(id), closed := false, onceUsed := false, sid := id,
                                    byDown := s.byDown - {s.sid} + {id}, byUp := s.byUp || s.upstream,
                                    counted := s.upstream, gauge := if s.upstream then 1 else 0)
  {
    hide Run, RespawnStep, Rounds, RespawnMoves;
    var b := s.(resp := RespSurvive(id), byDown := s.byDown - {s.sid} + {id}, byUp := s.byUp || s.upstream);
    GenerationIsIndexed(s, id);
    ThreeRounds(s, 7);
    SurvivorIsStored(b, id);
    ThreeRounds(b, 4);
    UnlockIdles(RespawnStep(RespawnStep(RespawnStep(b, true), true), true));
    FirstRound(RespawnStep(RespawnStep(RespawnStep(b, true), true), true), 1);
  }

  lemma ThreeRounds(s: State, n: nat)
    requires n > 3
    ensures Run(s, Rounds(n)) == Run(RespawnStep(RespawnStep(RespawnStep(s, true), true), true), Rounds(n - 3))
  {
    hide Run, Rounds, RespawnStep;
    FirstRound(s, n);
    FirstRound(RespawnStep(s, true), n - 1);
    FirstRound(RespawnStep(RespawnStep(s, true), true), n - 2);
  }

  lemma GenerationIsIndexed(s: State, id: nat)
    requires s.resp == RespRekey(id, s.upstream) && s.closing.Nobody?
    ensures RespawnStep(RespawnStep(RespawnStep(s, true), true), true)
         == s.(resp := RespSurvive(id), byDown := s.byDown - {s.sid} + {id}, byUp := s.byUp || s.upstream)
  {
    IndexMoves(s, id);
    var t := s.(resp := RespList(id), byDown := s.byDown - {s.sid} + {id}, byUp := s.byUp || s.upstream);
    LockIsTaken(t, id);
    hide RespawnStep;
  }

  lemma IndexMoves(s: State, id: nat)
    requires s.resp == RespRekey(id, s.upstream)
    ensures RespawnStep(s, true) == s.(resp := RespList(id), byDown := s.byDown - {s.sid} + {id}, byUp := s.byUp || s.upstream)
  {
    hide RespawnMoves;
  }

  lemma LockIsTaken(s: State, id: nat)
    requires s.resp == RespList(id) && s.closing.Nobody?
    ensures RespawnStep(RespawnStep(s, true), true) == s.(resp := RespSurvive(id))
  {
    hide RespawnMoves;
    var t := s.(resp := RespWant(id));
    assert RespawnStep(s, true) == t;
    assert RespawnStep(t, true) == s.(resp := RespSurvive(id));
  }

  lemma SurvivorIsStored(s: State, id: nat)
    requires s.resp == RespSurvive(id) && Tracks(s, id) && !s.counted && s.gauge == 0
    ensures RespawnStep(RespawnStep(RespawnStep(s, true), true), true)
         == s.(resp := RespUnlock, sid := id, onceUsed := false, downstream := Some(id), closed := false,
               counted := s.upstream, gauge := if s.upstream then 1 else 0)
  {
    GenerationSurvives(s, id);
    var t := s.(resp := RespCredit(id), sid := id, onceUsed := false);
    CreditIsTaken(t, id);
    var u := t.(resp := RespStore(id), counted := s.upstream, gauge := if s.upstream then 1 else 0);
    PointerIsStored(u, id);
    hide RespawnStep;
  }

  lemma GenerationSurvives(s: State, id: nat)
    requires s.resp == RespSurvive(id) && Tracks(s, id)
    ensures RespawnStep(s, true) == s.(resp := RespCredit(id), sid := id, onceUsed := false)
  {
    hide RespawnMoves;
  }

  lemma CreditIsTaken(s: State, id: nat)
    requires s.resp == RespCredit(id) && !s.counted && s.gauge == 0
    ensures RespawnStep(s, true) == s.(resp := RespStore(id), counted := s.upstream, gauge := if s.upstream then 1 else 0)
  {
    hide RespawnMoves;
  }

  lemma PointerIsStored(s: State, id: nat)
    requires s.resp == RespStore(id)
    ensures RespawnStep(s, true) == s.(resp := RespUnlock, downstream := Some(id), closed := false)
  {
    hide RespawnMoves;
  }

  lemma UnlockIdles(s: State)
    requires s.resp.RespUnlock?
    ensures RespawnStep(s, true) == s.(resp := RespIdle)
  {
  }

  // A generation the manager no longer holds is not published: the proxy stays dead and the
  // index forgets it.
  lemma LostGenerationIsDropped(s: State, id: nat)
    requires s.resp == RespSurvive(id) && !Tracks(s, id)
    ensures Run(s, Rounds(3)) == s.(resp := RespIdle, byDown := s.byDown - {id})
  {
    FirstRound(s, 3);
    assert RespawnStep(s, true) == s.(resp := RespDrop(id));
    DropEnds(s.(resp := RespDrop(id)), id);
  }

  lemma DropEnds(s: State, id: nat)
    requires s.resp == RespDrop(id)
    ensures Run(s, Rounds(2)) == s.(resp := RespIdle, byDown := s.byDown - {id})
  {
    hide Run;
    FirstRound(s, 2);
    var t := s.(resp := RespUnlock, byDown := s.byDown - {id});
    assert RespawnStep(s, true) == t;
    hide RespawnStep;
    FirstRound(t, 1);
    UnlockIdles(t);
  }

  // So is one whose tools cannot be listed, and a session that cannot be spawned leaves no slot.
  lemma FailedRespawnLeavesNothing(s: State, id: nat)
    ensures s.resp == RespList(id) ==>
              Run(s, [ARespawn(false)] + Rounds(2)) == s.(resp := RespIdle, byDown := s.byDown - {id})
    ensures s.resp == RespReserve(id) ==> Run(s, [ARespawn(false)] + Rounds(1)) == s.(resp := RespIdle)
    ensures s.resp == RespConnect(id) ==> Run(s, [ARespawn(false)] + Rounds(1)) == s.(resp := RespIdle, mgr := s.mgr - {id})
  {
    FailureEnds(s, id);
    hide Run, RespawnStep, Rounds, RespawnMoves;
    var t := RespawnStep(s, false);
    FailedRound(s, 2);
    FailedRound(s, 1);
    if t.resp == RespDrop(id) {
      DropEnds(t, id);
    } else if t.resp.RespUnlock? {
      FirstRound(t, 1);
      UnlockIdles(t);
    }
  }

  lemma FailedRound(s: State, n: nat)
    ensures Run(s, [ARespawn(false)] + Rounds(n)) == Run(RespawnStep(s, false), Rounds(n))
  {
    RunConcat(s, [ARespawn(false)], Rounds(n));
    assert Run(s, [ARespawn(false)]) == Step(s, ARespawn(false));
  }

  lemma FailureEnds(s: State, id: nat)
    ensures s.resp == RespList(id) ==> RespawnStep(s, false) == s.(resp := RespDrop(id))
    ensures s.resp == RespReserve(id) ==> RespawnStep(s, false) == s.(resp := RespUnlock)
    ensures s.resp == RespConnect(id) ==> RespawnStep(s, false) == s.(resp := RespUnlock, mgr := s.mgr - {id})
  {
  }

  // When the manager drops the generation of a live proxy, its callback closes the proxy.
  lemma RemovalCloses(s: State, d: nat)
    requires Inv(s) && Tracks(s, d) && d in s.byDown && CloseMuFree(s)
    ensures var t := Run(s, [AManagerDrops(d), ARemovalLookup(d), ACloseLock(ByRemoval(d))] + Closes(5));
            && t.closing.Nobody? && t.closed && t.downstream.None? && !t.counted && t.gauge == 0
            && d !in t.mgr && d !in t.byDown && t.sid !in t.byDown && (t.upstream ==> !t.byUp) && !Removing(t, d)
  {
    hide OutsideRespawn, OutsideStartup, KeepsPointer, Inv, Drained;
    var first := [AManagerDrops(d), ARemovalLookup(d)];
    var u := Run(s, first);
    RunTwo(s, AManagerDrops(d), ARemovalLookup(d));
    RemovalFinds(s, d);
    ManagerDropsKeeps(s, d);
    RemovalLookupKeeps(ManagerDrops(s, d), d);
    CloserRuns(s, first, u, ByRemoval(d));
    assert first + [ACloseLock(ByRemoval(d))] == [AManagerDrops(d), ARemovalLookup(d), ACloseLock(ByRemoval(d))];
  }

  lemma RemovalFinds(s: State, d: nat)
    requires Tracks(s, d) && d in s.byDown
    ensures var t := RemovalLookup(ManagerDrops(s, d), d);
            && t == s.(mgr := s.mgr - {d}, lookups := s.lookups - {ByRemoval(d)}, byDown := s.byDown - {d},
                       waiting := s.waiting + {ByRemoval(d)})
  {
  }

  // When the lease of a live shared proxy expires, the callback closes the proxy.
  lemma ExpiryCloses(s: State, n: nat)
    requires Inv(s) && s.shared && s.sid in s.byDown && CloseMuFree(s)
    ensures var t := Run(s, [ALeaseExpires(n), AExpiryLookup(n), ACloseLock(ByExpiry(n))] + Closes(5));
            && t.closing.Nobody? && t.closed && t.downstream.None? && !t.counted && t.gauge == 0
            && t.sid !in t.byDown && (t.upstream ==> !t.byUp) && !(ByExpiry(n) in t.lookups || ByExpiry(n) in t.waiting)
  {
    hide OutsideRespawn, OutsideStartup, KeepsPointer, Inv, Drained;
    var first := [ALeaseExpires(n), AExpiryLookup(n)];
    var u := Run(s, first);
    RunTwo(s, ALeaseExpires(n), AExpiryLookup(n));
    LeaseExpiresKeeps(s, n);
    ExpiryLookupKeeps(LeaseExpires(s, n), n);
    assert u.waiting == s.waiting + {ByExpiry(n)} && u.closing == s.closing && u.resp == s.resp;
    CloserRuns(s, first, u, ByExpiry(n));
    assert first + [ACloseLock(ByExpiry(n))] == [ALeaseExpires(n), AExpiryLookup(n), ACloseLock(ByExpiry(n))];
  }

  // So does whoever calls closeDownstream: a DELETE, the health probe, a disconnect.
  lemma CallerCloses(s: State, n: nat)
    requires Inv(s) && CloseMuFree(s)
    ensures var t := Run(s, [ABeginClose(n), ACloseLock(ByCaller(n))] + Closes(5));
            && t.closing.Nobody? && t.closed && t.downstream.None? && !t.counted && t.gauge == 0
            && t.sid !in t.byDown && (t.upstream ==> !t.byUp)
  {
    BeginCloseKeeps(s, n);
    hide OutsideRespawn, OutsideStartup, KeepsPointer, Inv, Drained;
    assert Run(s, [ABeginClose(n)]) == BeginClose(s, n);
    CloserRuns(s, [ABeginClose(n)], BeginClose(s, n), ByCaller(n));
    assert [ABeginClose(n)] + [ACloseLock(ByCaller(n))] == [ABeginClose(n), ACloseLock(ByCaller(n))];
  }

  function Closes(n: nat): seq<Action>
    ensures |Closes(n)| == n
  {
    if n == 0 then [] else Closes(n - 1) + [AClose]
  }

  lemma CloserRuns(s: State, first: seq<Action>, u: State, c: Closer)
    requires u == Run(s, first) && Inv(u) && c in u.waiting && CloseMuFree(u)
    ensures var t := Run(s, first + [ACloseLock(c)] + Closes(5));
            && t == Drained(CloseLock(u, c))
            && t.closing.Nobody? && t.closed && t.downstream.None? && !t.counted && t.gauge == 0
            && t.sid !in t.byDown && (t.upstream ==> !t.byUp)
            && t.mgr == u.mgr && t.byDown <= u.byDown && t.lookups == u.lookups && t.waiting == u.waiting - {c}
  {
    hide Drained, CloseLock, Inv;
    CloserClosesTheProxy(u, c);
    OneMore(s, first, ACloseLock(c));
    RunConcat(s, first + [ACloseLock(c)], Closes(5));
    ClosesDrain(CloseLock(u, c));
    ClosingKeeps(u, c);
  }

  lemma ClosesDrain(s: State)
    ensures Run(s, Closes(5)) == Drained(s)
  {
    hide CloseStep;
    assert Closes(0) == [];
    forall n: nat | n < 5 ensures Run(s, Closes(n + 1)) == CloseStep(Run(s, Closes(n))) {
      OneMore(s, Closes(n), AClose);
    }
    assert Run(s, Closes(1)) == CloseStep(s);
    assert Run(s, Closes(2)) == CloseStep(CloseStep(s));
    assert Run(s, Closes(3)) == CloseStep(CloseStep(CloseStep(s)));
    assert Run(s, Closes(4)) == CloseStep(CloseStep(CloseStep(CloseStep(s))));
  }

  lemma ClosingKeeps(s: State, c: Closer)
    requires c in s.waiting && CloseMuFree(s)
    ensures var t := Drained(CloseLock(s, c));
            t.mgr == s.mgr && t.byDown <= s.byDown && t.lookups == s.lookups && t.waiting == s.waiting - {c}
  {
    hide CloseStep;
  }
}

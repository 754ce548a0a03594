/**
 proxySession with its fields, one method per lock section of internal/mcp/proxy.go. `View`
 is the state of the machine in module ProxyMachine.
*/
module ProxySessionClass {
  import opened Wrappers
  import opened ProxyMachine
  import opened ProxySessionProofs

  // What surrounds the fields: goroutines, the manager's table and fresh identifiers.
  datatype Runtime = Runtime(
    mgr: map<nat, Slot>, start: Start, pub: Publish, resp: Respawn,
    lookups: set<Closer>, waiting: set<Closer>, closing: Holder, nextId: nat, stored: bool, raced: bool)

  // closeDownstream after closeOnce.Do.
  function Opened(s: State): State { if s.onceUsed then CloseStep(s) else CloseStep(CloseStep(s)) }

  lemma DrainedInParts(s: State)
    requires InPhase(s, CloseOnce)
    ensures Drained(s) == CloseStep(CloseStep(CloseStep(Opened(s))))
  {
    if s.onceUsed {
      DrainTail(CloseStep(s));
    }
  }

  lemma NobodyRests(s: State)
    requires s.closing.Nobody?
    ensures CloseStep(s) == s
  {
  }

  class ProxySession {
    const sharedMode: bool

    // guarded by downstreamMu
    var downstream: Option<nat>
    var downstreamClosed: bool

    // guarded by closeMu
    var closeOnceUsed: bool

    // guarded by mu
    var sessionID: nat
    var sessionCounted: bool
    var upstreamSession: bool

    // metrics and the entries of the two indexes that lead here
    var activeSessions: int
    var byDownstream: set<nat>
    var byUpstream: bool

    var rt: Runtime

    ghost function View(): State
      reads this
    {
      State(sharedMode, sessionID, downstream, downstreamClosed, closeOnceUsed, sessionCounted, upstreamSession,
            activeSessions, rt.mgr, byDownstream, byUpstream, rt.start, rt.pub, rt.resp,
            rt.lookups, rt.waiting, rt.closing, rt.nextId, rt.stored, rt.raced)
    }

    ghost predicate Valid()
      reads this
    {
      Inv(View())
    }

    constructor (shared: bool)
      ensures Valid() && View() == Init(shared)
    {
      sharedMode := shared;
      downstream, downstreamClosed, closeOnceUsed, sessionID := None, false, false, 0;
      sessionCounted, upstreamSession, activeSessions, byDownstream, byUpstream := false, false, 0, {0}, false;
      rt := Runtime(map[], StartReserve, PubNotYet, RespIdle, {}, {}, Nobody, 1, false, false);
      new;
      ReachedKeeps(shared, []);
    }

    method AcquireActiveSession()
      modifies this`sessionCounted, this`activeSessions
      ensures View() == Acquire(old(View()))
    {
      if sessionCounted {
        return;
      }
      sessionCounted := true;
      activeSessions := activeSessions + 1;
    }

    method ReleaseActiveSession()
      modifies this`sessionCounted, this`activeSessions
      ensures View() == ReleaseCredit(old(View()))
    {
      if !sessionCounted {
        return;
      }
      sessionCounted := false;
      activeSessions := activeSessions - 1;
    }

    // The store after SpawnSession returned.
    method StoreSpawned()
      requires Valid() && rt.start.StartStore?
      modifies this`downstream, this`rt
      ensures Valid() && View() == StartStoring(old(View()))
    {
      hide Inv;
      StartStoringKeeps(View());
      if !downstreamClosed {
        downstream := Some(0);
      }
      rt := rt.(start := StartList, stored := true);
    }

    // publishInitialized up to the publication, inside closeMu.
    method PublishLiveness()
      requires Valid() && rt.pub.PubCheck? && CloseMuFree(View())
      modifies this
      ensures Valid() && View() == PublishCheck(old(View()))
    {
      hide Inv, PublishCheck, CloseMuFree;
      var wasLive := !downstreamClosed && downstream.Some?;
      if wasLive {
        CreditLive();
      } else {
        RefuseDead();
      }
    }

    method CreditLive()
      requires Valid() && rt.pub.PubCheck? && CloseMuFree(View()) && Live(View())
      modifies this`sessionCounted, this`activeSessions, this`rt
      ensures Valid() && View() == PublishCheck(old(View()))
    {
      hide Inv;
      PublishCheckKeeps(View());
      AcquireActiveSession();
      rt := rt.(pub := PubInsert(true));
    }

    // A dead shared session is closed for good; a dead stateful one is published all the same.
    method RefuseDead()
      requires Valid() && rt.pub.PubCheck? && CloseMuFree(View()) && !Live(View())
      modifies this`closeOnceUsed, this`rt
      ensures Valid() && View() == PublishCheck(old(View()))
    {
      hide Inv, OutsideRespawn, OutsideStartup;
      PublishCheckKeeps(View());
      if sharedMode {
        closeOnceUsed := false;
        rt := rt.(pub := PubOver, waiting := rt.waiting + {ByPublisher});
      } else {
        rt := rt.(pub := PubInsert(false));
      }
    }

    // The publication callback of NewProxyHandler.
    method OnInitialized()
      requires Valid() && rt.pub.PubInsert?
      modifies this`byUpstream, this`byDownstream, this`rt
      ensures Valid() && View() == PublishInsert(old(View()))
    {
      hide Inv;
      PublishInsertKeeps(View());
      byUpstream := true;
      byDownstream := byDownstream + {sessionID};
      rt := rt.(pub := PubRecheck(rt.pub.wasLive));
    }

    // publishInitialized after the publication.
    method PublishStillLive()
      requires Valid() && rt.pub.PubRecheck? && CloseMuFree(View())
      modifies this`rt
      ensures Valid() && View() == PublishRecheck(old(View()))
    {
      hide Inv;
      PublishRecheckKeeps(View());
      var stillLive := !downstreamClosed && downstream.Some?;
      var lostRace := rt.pub.wasLive && !stillLive;
      rt := rt.(pub := PubOver, waiting := if lostRace then rt.waiting + {ByPublisher} else rt.waiting);
    }

    // The shared manager's respawn notification.
    method OnSharedRespawn(newDS: nat)
      requires Valid() && sharedMode && rt.stored
      modifies this`downstream
      ensures Valid() && View() == OnRespawn(old(View()), newDS)
    {
      hide Inv;
      OnRespawnKeeps(View(), newDS);
      if downstreamClosed {
        return;
      }
      downstream := Some(newDS);
    }

    // The removal callback's section under the index lock.
    method OnSessionRemoved(d: nat)
      requires Valid() && ByRemoval(d) in rt.lookups
      modifies this`byDownstream, this`rt
      ensures Valid() && View() == RemovalLookup(old(View()), d)
    {
      hide Inv;
      RemovalLookupKeeps(View(), d);
      var owned := d in byDownstream;
      byDownstream := byDownstream - {d};
      rt := rt.(lookups := rt.lookups - {ByRemoval(d)},
                waiting := if owned then rt.waiting + {ByRemoval(d)} else rt.waiting);
    }

    // closeDownstream from the moment it holds closeMu until it returns, with nobody
    // touching the proxy's other locks meanwhile: the proxy ends closed, without a credit
    // and out of both indexes, whoever asked and whatever was closed before.
    method CloseDownstream(c: Closer)
      requires Valid() && c in rt.waiting && CloseMuFree(View())
      modifies this
      ensures Valid() && View() == Drained(CloseLock(old(View()), c))
      ensures downstreamClosed && downstream.None? && !sessionCounted && activeSessions == 0
      ensures sessionID !in byDownstream && (upstreamSession ==> !byUpstream)
    {
      hide Inv, Drained, CloseLock;
      CloserClosesTheProxy(View(), c);
      CloseSections(c);
    }

    method CloseSections(c: Closer)
      requires Valid() && c in rt.waiting && CloseMuFree(View())
      modifies this
      ensures Valid() && View() == Drained(CloseLock(old(View()), c))
    {
      hide Inv, Drained, Opened, CloseStep;
      LockTaken(c);
      DrainedInParts(View());
      CloseOnceDo();
      OwnerCleanup();
    }

    method LockTaken(c: Closer)
      requires Valid() && c in rt.waiting && CloseMuFree(View())
      modifies this`rt
      ensures Valid() && View() == CloseLock(old(View()), c) && InPhase(View(), CloseOnce)
    {
      hide Inv;
      CloseLockKeeps(View(), c);
      rt := rt.(waiting := rt.waiting - {c}, closing := Inside(c, CloseOnce));
    }

    method CloseOnceDo()
      requires Valid() && InPhase(View(), CloseOnce)
      modifies this
      ensures Valid() && View() == Opened(old(View())) && InPhase(View(), CloseTail)
    {
      hide Inv, CloseStep;
      CloseOnceStart();
      if rt.closing.phase.CloseMark? {
        CloseOnceEnd();
      }
    }

    // The terminal owner cleanup, which follows closeOnce whether or not it ran.
    method OwnerCleanup()
      requires Valid() && InPhase(View(), CloseTail)
      modifies this
      ensures Valid() && View() == CloseStep(CloseStep(CloseStep(old(View())))) && rt.closing.Nobody?
    {
      hide Inv, CloseStep;
      OwnerKeys();
      OnDownstreamClosed();
      if rt.closing.Inside? {
        OnClosed();
      } else {
        NobodyRests(View());
      }
    }

    // The function closeOnce runs, up to the credit ...
    method CloseOnceStart()
      requires Valid() && InPhase(View(), CloseOnce)
      modifies this
      ensures Valid() && View() == CloseStep(old(View())) && rt.closing.Inside?
      ensures rt.closing.phase == if old(closeOnceUsed) then CloseTail else CloseMark
    {
      hide Inv;
      CloseReleaseKeeps(View());
      if closeOnceUsed {
        rt := rt.(closing := Inside(rt.closing.who, CloseTail));
      } else {
        ReleaseActiveSession();
        closeOnceUsed := true;
        rt := rt.(closing := Inside(rt.closing.who, CloseMark));
      }
    }

    // ... and to its end.
    method CloseOnceEnd()
      requires Valid() && InPhase(View(), CloseMark)
      modifies this`downstream, this`downstreamClosed, this`rt
      ensures Valid() && View() == CloseStep(old(View())) && InPhase(View(), CloseTail)
    {
      hide Inv;
      CloseMarkingKeeps(View());
      downstreamClosed := true;
      downstream := None;
      rt := rt.(closing := Inside(rt.closing.who, CloseTail));
    }

    // The cleanup reads its keys ...
    method OwnerKeys()
      requires Valid() && InPhase(View(), CloseTail)
      modifies this`rt
      ensures Valid() && View() == CloseStep(old(View()))
      ensures rt.closing.Inside? && rt.closing.phase == CloseDown(sessionID, upstreamSession)
    {
      hide Inv;
      CloseReadingKeeps(View());
      rt := rt.(closing := Inside(rt.closing.who, CloseDown(sessionID, upstreamSession)));
    }

    // ... and calls back into NewProxyHandler.
    method OnDownstreamClosed()
      requires Valid() && rt.closing.Inside? && rt.closing.phase.CloseDown?
      modifies this`byDownstream, this`rt
      ensures Valid() && View() == CloseStep(old(View()))
      ensures if old(rt.closing.phase.up) then InPhase(View(), CloseUp) else rt.closing.Nobody?
    {
      hide Inv;
      CloseDownIndexKeeps(View());
      byDownstream := byDownstream - {rt.closing.phase.id};
      rt := rt.(closing := if rt.closing.phase.up then Inside(rt.closing.who, CloseUp) else Nobody);
    }

    method OnClosed()
      requires Valid() && InPhase(View(), CloseUp)
      modifies this`byDownstream, this`byUpstream, this`rt
      ensures Valid() && View() == CloseStep(old(View())) && rt.closing.Nobody?
    {
      hide Inv;
      CloseUpIndexKeeps(View());
      if byUpstream {
        byDownstream := byDownstream - {sessionID};
      }
      byUpstream := false;
      rt := rt.(closing := Nobody);
    }

    // The double check of respawnDownstream.
    method RespawnDoubleCheck() returns (alive: Option<nat>)
      requires Valid() && rt.resp.RespCheck?
      modifies this`rt
      ensures Valid() && View() == RespawnChecking(old(View()))
      ensures alive == if downstreamClosed then None else downstream
    {
      hide Inv, RespawnMoves;
      RespawnCheckingKeeps(View());
      if !downstreamClosed && downstream.Some? {
        rt := rt.(resp := RespUnlock);
        return downstream;
      }
      alive := None;
      rt := rt.(resp := RespReserve(rt.nextId), nextId := rt.nextId + 1, raced := rt.raced || PreStore(rt.start));
    }

    // onRespawn: the section under the index lock.
    method RekeyIndexes()
      requires Valid() && rt.resp.RespRekey?
      modifies this`byDownstream, this`byUpstream, this`rt
      ensures Valid() && View() == RespawnRekeying(old(View()))
    {
      hide Inv;
      RespawnRekeyingKeeps(View());
      byDownstream := byDownstream - {sessionID} + {rt.resp.id};
      byUpstream := byUpstream || rt.resp.up;
      rt := rt.(resp := RespList(rt.resp.id));
    }

    // respawnDownstream inside closeMu, with no removal in between: the new generation is
    // published exactly when the manager tracks it.
    method PublishRespawned() returns (published: bool)
      requires Valid() && rt.resp.RespSurvive?
      modifies this
      ensures Valid() && published == Tracks(old(View()), old(rt.resp.id))
      ensures published ==>
        && View() == RespawnStoring(RespawnCrediting(RespawnSurviving(old(View()))))
        && downstream == Some(old(rt.resp.id)) && !downstreamClosed && !closeOnceUsed
      ensures !published ==>
        View() == RespawnSurviving(old(View())) && rt.resp == RespDrop(old(rt.resp.id))
    {
      hide Inv, RespawnSurviving, RespawnCrediting, RespawnStoring;
      published := SurvivalCheck();
      if published {
        Reacquire();
        StoreRespawned();
      }
    }

    method SurvivalCheck() returns (survived: bool)
      requires Valid() && rt.resp.RespSurvive?
      modifies this`closeOnceUsed, this`sessionID, this`rt
      ensures Valid() && View() == RespawnSurviving(old(View()))
      ensures survived == Tracks(old(View()), old(rt.resp.id))
      ensures rt.resp == if survived then RespCredit(old(rt.resp.id)) else RespDrop(old(rt.resp.id))
      ensures survived ==> !closeOnceUsed
    {
      hide Inv, Gets, RespawnSurviving;
      survived := Gets(rt.mgr, rt.resp.id);
      if survived {
        Rearm();
      } else {
        GiveUpRespawn();
      }
    }

    method Rearm()
      requires Valid() && rt.resp.RespSurvive? && Gets(rt.mgr, rt.resp.id)
      modifies this`closeOnceUsed, this`sessionID, this`rt
      ensures Valid() && View() == RespawnSurviving(old(View())) && rt.resp == RespCredit(old(rt.resp.id)) && !closeOnceUsed
    {
      hide Inv, Gets;
      RespawnSurvivingKeeps(View());
      closeOnceUsed := false;
      sessionID := rt.resp.id;
      rt := rt.(resp := RespCredit(rt.resp.id));
    }

    method GiveUpRespawn()
      requires Valid() && rt.resp.RespSurvive? && !Gets(rt.mgr, rt.resp.id)
      modifies this`rt
      ensures Valid() && View() == RespawnSurviving(old(View())) && rt.resp == RespDrop(old(rt.resp.id))
    {
      hide Inv, Gets;
      RespawnSurvivingKeeps(View());
      rt := rt.(resp := RespDrop(rt.resp.id));
    }

    method Reacquire()
      requires Valid() && rt.resp.RespCredit?
      modifies this`sessionCounted, this`activeSessions, this`rt
      ensures Valid() && View() == RespawnCrediting(old(View())) && rt.resp == RespStore(old(rt.resp.id))
    {
      hide Inv;
      RespawnCreditingKeeps(View());
      if upstreamSession {
        AcquireActiveSession();
      }
      rt := rt.(resp := RespStore(rt.resp.id));
    }

    method StoreRespawned()
      requires Valid() && rt.resp.RespStore?
      modifies this`downstream, this`downstreamClosed, this`rt
      ensures Valid() && View() == RespawnStoring(old(View()))
      ensures downstream == Some(old(rt.resp.id)) && !downstreamClosed
    {
      hide Inv;
      RespawnStoringKeeps(View());
      downstream := Some(rt.resp.id);
      downstreamClosed := false;
      rt := rt.(resp := RespUnlock);
    }
  }
}

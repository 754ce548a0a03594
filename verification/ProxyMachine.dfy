/**
 One proxy session (internal/mcp/proxy.go) with the session manager and the two indexes that
 point at it, as a state machine. One action is one lock section. `Step` is total: an action
 whose guard fails changes nothing.

 Generations are identified by the downstream session identifier; identifiers are fresh.
 The indexes are restricted to the entries that point at this proxy, the manager to the
 identifiers this proxy uses. Calls to Manager.RemoveSession, from whatever goroutine,
 appear as removals that may happen at any time, which includes every order the code allows;
 module ProxyRemovals adds who calls it when, and module ProxyLease the shared lease.
*/
module ProxyMachine {
  import opened Wrappers

  datatype Slot = Reserved | Tracked

  // newPerSessionServer and newSharedModeServer, after the removal owner is registered.
  datatype Start = StartReserve | StartConnect | StartStore | StartList | StartDrop | StartDone

  // publishInitialized
  datatype Publish = PubNotYet | PubCheck | PubInsert(wasLive: bool) | PubRecheck(wasLive: bool) | PubOver

  // respawnDownstream: the goroutine inside respawnMu.
  datatype Respawn =
    | RespIdle | RespCheck | RespReserve(id: nat) | RespConnect(id: nat) | RespRead(id: nat)
    | RespRekey(id: nat, up: bool) | RespList(id: nat) | RespWant(id: nat)
    | RespSurvive(id: nat) | RespCredit(id: nat) | RespStore(id: nat) | RespDrop(id: nat) | RespUnlock

  // Whoever calls closeDownstream. A generation is removed from the manager at most once,
  // so its removal is named by the generation.
  datatype Closer =
    | ByStartup | ByPublisher
    | ByRemoval(d: nat)         // RemoveSession, reaper or CloseAll dropped generation d
    | ByExpiry(n: nat)          // a shared lease expired
    | ByCaller(n: nat)          // DELETE, health probe, disconnect

  // closeDownstream: the goroutine inside closeMu.
  datatype Phase = CloseOnce | CloseMark | CloseTail | CloseDown(id: nat, up: bool) | CloseUp

  datatype Holder = Nobody | Inside(who: Closer, phase: Phase)

  datatype State = State(
    shared: bool,
    // fields of the proxy session
    sid: nat, downstream: Option<nat>, closed: bool, onceUsed: bool, counted: bool, upstream: bool,
    // the active-session gauge, the manager's table and the two indexes
    gauge: int, mgr: map<nat, Slot>, byDown: set<nat>, byUp: bool,
    // goroutines: callbacks about to look the owner up, closers waiting for closeMu, and
    // the one closer inside it
    start: Start, pub: Publish, resp: Respawn,
    lookups: set<Closer>, waiting: set<Closer>, closing: Holder,
    nextId: nat,
    // history: the startup goroutine has passed its store section; a respawn passed its
    // double check before that
    stored: bool, raced: bool)

  // The state after onSpawned registered the removal owner under identifier 0.
  function Init(shared: bool): State {
    State(shared, 0, None, false, false, false, false, 0, map[], {0}, false,
          StartReserve, PubNotYet, RespIdle, {}, {}, Nobody, 1, false, false)
  }

  predicate PreStore(st: Start) { st.StartReserve? || st.StartConnect? || st.StartStore? }

  // Manager.GetSession answers non-nil.
  predicate Gets(mgr: map<nat, Slot>, d: nat) { d in mgr && mgr[d].Tracked? }

  predicate Tracks(s: State, d: nat) { Gets(s.mgr, d) }

  predicate Live(s: State) { s.downstream.Some? && !s.closed }

  predicate RespawnInside(r: Respawn) { r.RespSurvive? || r.RespCredit? || r.RespStore? }

  predicate CloseMuFree(s: State) { s.closing.Nobody? && !RespawnInside(s.resp) }

  // publishInitialized has made its liveness check.
  predicate Checked(s: State) { s.pub.PubInsert? || s.pub.PubRecheck? || s.pub.PubOver? }

  // A section outside respawnMu leaves the respawn where it is. Startup only goes forward.
  predicate OutsideRespawn(s: State, t: State) {
    && t.resp == s.resp && t.nextId == s.nextId && t.raced == s.raced && t.sid == s.sid
    && (PreStore(t.start) ==> PreStore(s.start)) && (s.stored ==> t.stored) && (!PreStore(s.start) ==> t.stored == s.stored)
    && (s.closed ==> t.closed) && (InPhase(s, CloseMark) ==> InPhase(t, CloseMark) || t.closed)
    && (t.start.StartReserve? ==> s.start.StartReserve?)
    && (t.start.StartConnect? ==> s.start.StartReserve? || (s.start.StartConnect? && (0 in t.mgr ==> 0 in s.mgr)))
  }

  predicate OutsideStartup(s: State, t: State) { t.start == s.start && t.closed == s.closed }

  predicate KeepsPointer(s: State, t: State) {
    (t.downstream == s.downstream || t.closed) && t.stored == s.stored
  }

  // The respawn works on the generation it has reserved until it is done with it.
  predicate RespawnMoves(s: State, t: State) {
    && t.nextId >= s.nextId && t.start == s.start && (s.raced ==> t.raced)
    && (Working(t.resp) ==>
          if Working(s.resp) then !s.resp.RespDrop? && t.resp.id == s.resp.id else t.resp.id == s.nextId < t.nextId)
    && (t.resp.RespReserve? || t.resp.RespConnect? ==> s.resp == t.resp || s.resp.RespCheck? || s.resp.RespReserve?)
    && (0 in t.mgr && 0 !in s.mgr ==> Working(s.resp) && s.resp.id == 0)
    && (t.sid == s.sid || s.resp.RespSurvive?)
  }

  // acquireActiveSession and releaseActiveSession
  function AcquireIf(s: State, wanted: bool): State {
    s.(counted := s.counted || wanted, gauge := if wanted && !s.counted then s.gauge + 1 else s.gauge)
  }

  function Acquire(s: State): State { AcquireIf(s, true) }

  function ReleaseIf(s: State, wanted: bool): State {
    s.(counted := s.counted && !wanted, gauge := if wanted && s.counted then s.gauge - 1 else s.gauge)
  }

  function ReleaseCredit(s: State): State { ReleaseIf(s, true) }

  // ----- startup

  // SpawnSession reserves a slot; in shared mode GetOrCreateSession tracks the lease.
  function StartReserving(s: State, admitted: bool): (t: State)
    ensures t.closed == s.closed && (PreStore(s.start) && !PreStore(t.start) ==> !admitted && s.start.StartReserve?)
    ensures OutsideRespawn(s, t) && KeepsPointer(s, t)
    ensures forall d :: d != 0 ==> (Gets(t.mgr, d) <==> Gets(s.mgr, d))
  {
    if !s.start.StartReserve? then s
    else if !admitted then s.(start := StartDrop)
    else if s.shared then s.(start := StartConnect)
    else s.(start := StartConnect, mgr := s.mgr[0 := Reserved])
  }

  function StartConnecting(s: State, ok: bool): (t: State)
    ensures t.closed == s.closed && (PreStore(s.start) && !PreStore(t.start) ==> !ok && s.start.StartConnect?)
    ensures OutsideRespawn(s, t) && KeepsPointer(s, t)
    ensures forall d :: d != 0 ==> (Gets(t.mgr, d) <==> Gets(s.mgr, d))
  {
    if !s.start.StartConnect? then s
    else if ok then s.(start := StartStore, mgr := if s.shared then s.mgr else s.mgr[0 := Tracked])
    else s.(start := StartDrop, mgr := s.mgr - {0})
  }

  function StartStoring(s: State): (t: State)
    ensures t.closed == s.closed && (PreStore(s.start) && !PreStore(t.start) ==> t.stored)
    ensures OutsideRespawn(s, t) && t.mgr == s.mgr
  {
    if !s.start.StartStore? then s
    else s.(start := StartList, stored := true, downstream := if s.closed then s.downstream else Some(0))
  }

  function StartListing(s: State, ok: bool): (t: State)
    ensures t.closed == s.closed && (PreStore(s.start) ==> PreStore(t.start))
    ensures OutsideRespawn(s, t) && KeepsPointer(s, t) && t.mgr == s.mgr
  {
    if !s.start.StartList? then s
    else if ok then s.(start := StartDone)
    else s.(start := StartDone, pub := PubOver, waiting := s.waiting + {ByStartup})
  }

  function StartDropping(s: State): (t: State)
    ensures t.closed == s.closed && (PreStore(s.start) ==> PreStore(t.start))
    ensures OutsideRespawn(s, t) && KeepsPointer(s, t) && t.mgr == s.mgr
  {
    if !s.start.StartDrop? then s
    else s.(start := StartDone, pub := PubOver, byDown := s.byDown - {0})
  }

  // ----- closeDownstream

  function BeginClose(s: State, n: nat): (t: State)
    ensures OutsideRespawn(s, t) && KeepsPointer(s, t) && OutsideStartup(s, t) && t.mgr == s.mgr
  {
    s.(waiting := s.waiting + {ByCaller(n)})
  }

  function CloseLock(s: State, c: Closer): (t: State)
    ensures OutsideRespawn(s, t) && KeepsPointer(s, t) && OutsideStartup(s, t) && t.mgr == s.mgr
  {
    if c in s.waiting && CloseMuFree(s) then s.(waiting := s.waiting - {c}, closing := Inside(c, CloseOnce)) else s
  }

  // Only the proxy's own fields and the indexes change, and a closed proxy stays closed.
  predicate OnlyCloses(s: State, t: State) {
    && t.raced == s.raced && t.shared == s.shared && t.start == s.start && t.sid == s.sid && t.mgr == s.mgr
    && t.byDown <= s.byDown && t.lookups == s.lookups && t.waiting == s.waiting && (s.closed ==> t.closed)
    && (t.closed ==> s.closed || InPhase(s, CloseMark))
  }

  function PhasesLeft(h: Holder): nat {
    if h.Nobody? then 0 else
    match h.phase
    case CloseOnce => 5
    case CloseMark => 4
    case CloseTail => 3
    case CloseDown(_, _) => 2
    case CloseUp => 1
  }

  // The body of closeOnce starts by giving the credit back ...
  function CloseRelease(s: State): (t: State)
    ensures OutsideRespawn(s, t) && KeepsPointer(s, t) && OnlyCloses(s, t)
    ensures InPhase(s, CloseOnce) ==> PhasesLeft(t.closing) < PhasesLeft(s.closing)
  {
    if s.closing.Nobody? || !s.closing.phase.CloseOnce? then s
    else ReleaseIf(s, !s.onceUsed).(
      onceUsed := true, closing := Inside(s.closing.who, if s.onceUsed then CloseTail else CloseMark))
  }

  // ... and ends by marking the generation closed and dropping the pointer.
  function CloseMarking(s: State): (t: State)
    ensures OutsideRespawn(s, t) && KeepsPointer(s, t) && OnlyCloses(s, t)
    ensures InPhase(s, CloseMark) ==> PhasesLeft(t.closing) < PhasesLeft(s.closing)
  {
    if s.closing.Nobody? || !s.closing.phase.CloseMark? then s
    else s.(closed := true, downstream := None, closing := Inside(s.closing.who, CloseTail))
  }

  // The terminal cleanup reads its keys under ps.mu ...
  function CloseReading(s: State): (t: State)
    ensures OutsideRespawn(s, t) && KeepsPointer(s, t) && OnlyCloses(s, t)
    ensures InPhase(s, CloseTail) ==> PhasesLeft(t.closing) < PhasesLeft(s.closing)
  {
    if s.closing.Nobody? || !s.closing.phase.CloseTail? then s
    else s.(closing := Inside(s.closing.who, CloseDown(s.sid, s.upstream)))
  }

  // ... and then runs onDownstreamClosed ...
  function CloseDownIndex(s: State): (t: State)
    ensures OutsideRespawn(s, t) && KeepsPointer(s, t) && OnlyCloses(s, t)
    ensures s.closing.Inside? && s.closing.phase.CloseDown? ==> PhasesLeft(t.closing) < PhasesLeft(s.closing)
  {
    var here := s.closing.Inside? && s.closing.phase.CloseDown?;
    s.(byDown := if here then s.byDown - {s.closing.phase.id} else s.byDown,
       closing := if here && s.closing.phase.up then Inside(s.closing.who, CloseUp) else if here then Nobody else s.closing)
  }

  // ... and, for an initialized upstream session, onClosed.
  function CloseUpIndex(s: State): (t: State)
    ensures OutsideRespawn(s, t) && KeepsPointer(s, t) && OnlyCloses(s, t)
    ensures InPhase(s, CloseUp) ==> PhasesLeft(t.closing) < PhasesLeft(s.closing)
  {
    if s.closing.Nobody? || !s.closing.phase.CloseUp? then s
    else s.(byDown := if s.byUp then s.byDown - {s.sid} else s.byDown, byUp := false, closing := Nobody)
  }

  function CloseStep(s: State): (t: State)
    ensures OutsideRespawn(s, t) && KeepsPointer(s, t) && OnlyCloses(s, t)
  {
    if s.closing.Nobody? then s else
    match s.closing.phase
    case CloseOnce => CloseRelease(s)
    case CloseMark => CloseMarking(s)
    case CloseTail => CloseReading(s)
    case CloseDown(_, _) => CloseDownIndex(s)
    case CloseUp => CloseUpIndex(s)
  }

  // ----- removal and expiry callbacks

  // Manager.RemoveSession, reapExpiredSessions and CloseAll delete the slot first ...
  function ManagerDrops(s: State, d: nat): (t: State)
    ensures OutsideRespawn(s, t) && KeepsPointer(s, t) && OutsideStartup(s, t)
    ensures forall e :: Gets(t.mgr, e) <==> Gets(s.mgr, e) && e != d
  {
    if d in s.mgr && s.mgr[d].Tracked? then s.(mgr := s.mgr - {d}, lookups := s.lookups + {ByRemoval(d)}) else s
  }

  // ... and CloseAll also forgets slots that are only reserved.
  function ManagerForgets(s: State, d: nat): (t: State)
    ensures OutsideRespawn(s, t) && KeepsPointer(s, t) && OutsideStartup(s, t)
    ensures forall e :: Gets(t.mgr, e) <==> Gets(s.mgr, e)
  {
    if d in s.mgr && s.mgr[d].Reserved? then s.(mgr := s.mgr - {d}) else s
  }

  function LeaseExpires(s: State, n: nat): (t: State)
    ensures OutsideRespawn(s, t) && KeepsPointer(s, t) && OutsideStartup(s, t) && t.mgr == s.mgr
  {
    if s.shared then s.(lookups := s.lookups + {ByExpiry(n)}) else s
  }

  // The callback takes the owner out of the index and closes it, if there is one.
  function RemovalLookup(s: State, d: nat): (t: State)
    ensures OutsideRespawn(s, t) && KeepsPointer(s, t) && OutsideStartup(s, t) && t.mgr == s.mgr
  {
    var here := ByRemoval(d) in s.lookups;
    s.(lookups := if here then s.lookups - {ByRemoval(d)} else s.lookups,
       byDown := if here then s.byDown - {d} else s.byDown,
       waiting := if here && d in s.byDown then s.waiting + {ByRemoval(d)} else s.waiting)
  }

  function ExpiryLookup(s: State, n: nat): (t: State)
    ensures OutsideRespawn(s, t) && KeepsPointer(s, t) && OutsideStartup(s, t) && t.mgr == s.mgr
  {
    var here := ByExpiry(n) in s.lookups;
    s.(lookups := if here then s.lookups - {ByExpiry(n)} else s.lookups,
       byDown := if here then s.byDown - {s.sid} else s.byDown,
       waiting := if here && s.sid in s.byDown then s.waiting + {ByExpiry(n)} else s.waiting)
  }

  // ----- publishInitialized

  function Initialize(s: State): (t: State)
    ensures OutsideRespawn(s, t) && KeepsPointer(s, t) && OutsideStartup(s, t) && t.mgr == s.mgr
  {
    if s.start.StartDone? && s.pub.PubNotYet? then s.(upstream := true, pub := PubCheck) else s
  }

  // The liveness check, the credit and the re-arm run inside closeMu.
  function PublishCheck(s: State): (t: State)
    ensures OutsideRespawn(s, t) && KeepsPointer(s, t) && OutsideStartup(s, t) && t.mgr == s.mgr
  {
    var here, live := s.pub.PubCheck? && CloseMuFree(s), Live(s);
    var terminal := here && !live && s.shared;
    AcquireIf(s, here && live).(
      pub := if terminal then PubOver else if here then PubInsert(live) else s.pub,
      onceUsed := s.onceUsed && !terminal,
      waiting := if terminal then s.waiting + {ByPublisher} else s.waiting)
  }

  function PublishInsert(s: State): (t: State)
    ensures OutsideRespawn(s, t) && KeepsPointer(s, t) && OutsideStartup(s, t) && t.mgr == s.mgr
  {
    if !s.pub.PubInsert? then s
    else s.(pub := PubRecheck(s.pub.wasLive), byUp := true, byDown := s.byDown + {s.sid})
  }

  function PublishRecheck(s: State): (t: State)
    ensures OutsideRespawn(s, t) && KeepsPointer(s, t) && OutsideStartup(s, t) && t.mgr == s.mgr
  {
    var here := s.pub.PubRecheck? && CloseMuFree(s);
    s.(pub := if here then PubOver else s.pub,
       waiting := if here && s.pub.wasLive && !Live(s) then s.waiting + {ByPublisher} else s.waiting)
  }

  // The shared manager's respawn notification.
  function OnRespawn(s: State, ds: nat): (t: State)
    ensures OutsideRespawn(s, t) && OutsideStartup(s, t) && t.mgr == s.mgr
  {
    if s.shared && s.stored && !s.closed then s.(downstream := Some(ds)) else s
  }

  // ----- respawnDownstream

  function BeginRespawn(s: State): (t: State)
    ensures t == s || RespawnMoves(s, t)
  {
    if s.shared || !s.resp.RespIdle? then s else s.(resp := RespCheck)
  }

  function RespawnChecking(s: State): (t: State)
    ensures s.resp.RespCheck? ==> RespawnMoves(s, t)
  {
    if !s.resp.RespCheck? then s
    else
      var live := Live(s);
      s.(resp := if live then RespUnlock else RespReserve(s.nextId),
         nextId := if live then s.nextId else s.nextId + 1,
         raced := s.raced || (!live && PreStore(s.start)))
  }

  // SpawnSession reserves the slot, connects, and stores the tracked session.
  function RespawnReserving(s: State, ok: bool): (t: State)
    ensures s.resp.RespReserve? ==> RespawnMoves(s, t)
  {
    if !s.resp.RespReserve? then s
    else if ok then s.(resp := RespConnect(s.resp.id), mgr := s.mgr[s.resp.id := Reserved])
    else s.(resp := RespUnlock)
  }

  function RespawnConnecting(s: State, ok: bool): (t: State)
    ensures s.resp.RespConnect? ==> RespawnMoves(s, t)
  {
    if !s.resp.RespConnect? then s
    else if ok then s.(resp := RespRead(s.resp.id), mgr := s.mgr[s.resp.id := Tracked])
    else s.(resp := RespUnlock, mgr := s.mgr - {s.resp.id})
  }

  // onRespawn reads the upstream identifier and then moves the index to the new generation.
  function RespawnReading(s: State): (t: State)
    ensures s.resp.RespRead? ==> RespawnMoves(s, t)
  {
    if !s.resp.RespRead? then s else s.(resp := RespRekey(s.resp.id, s.upstream))
  }

  function RespawnRekeying(s: State): (t: State)
    ensures s.resp.RespRekey? ==> RespawnMoves(s, t)
  {
    if !s.resp.RespRekey? then s
    else s.(resp := RespList(s.resp.id), byDown := s.byDown - {s.sid} + {s.resp.id}, byUp := s.byUp || s.resp.up)
  }

  function RespawnListing(s: State, ok: bool): (t: State)
    ensures s.resp.RespList? ==> RespawnMoves(s, t)
  {
    if !s.resp.RespList? then s
    else s.(resp := if ok then RespWant(s.resp.id) else RespDrop(s.resp.id))
  }

  function RespawnLock(s: State): (t: State)
    ensures s.resp.RespWant? ==> RespawnMoves(s, t)
  {
    if !s.resp.RespWant? || s.closing.Inside? then s else s.(resp := RespSurvive(s.resp.id))
  }

  // Inside closeMu: GetSession, the re-armed closeOnce and the new identifier ...
  function RespawnSurviving(s: State): (t: State)
    ensures s.resp.RespSurvive? ==> RespawnMoves(s, t)
  {
    if !s.resp.RespSurvive? then s
    else
      var id, survived := s.resp.id, Tracks(s, s.resp.id);
      s.(resp := if survived then RespCredit(id) else RespDrop(id),
         onceUsed := s.onceUsed && !survived, sid := if survived then id else s.sid)
  }

  // ... the credit ...
  function RespawnCrediting(s: State): (t: State)
    ensures s.resp.RespCredit? ==> RespawnMoves(s, t)
  {
    if !s.resp.RespCredit? then s
    else AcquireIf(s, s.upstream).(resp := RespStore(s.resp.id))
  }

  // ... and the pointer.
  function RespawnStoring(s: State): (t: State)
    ensures s.resp.RespStore? ==> RespawnMoves(s, t)
  {
    if !s.resp.RespStore? then s
    else s.(resp := RespUnlock, downstream := Some(s.resp.id), closed := false)
  }

  // A generation that failed tools/list, or that the manager lost, leaves the index.
  function RespawnDropping(s: State): (t: State)
    ensures s.resp.RespDrop? ==> RespawnMoves(s, t)
  {
    if !s.resp.RespDrop? then s else s.(resp := RespUnlock, byDown := s.byDown - {s.resp.id})
  }

  // One section of the goroutine inside respawnMu; ok is what the environment answered.
  function RespawnStep(s: State, ok: bool): (t: State)
    ensures RespawnMoves(s, t)
  {
    match s.resp
    case RespIdle => s
    case RespCheck => RespawnChecking(s)
    case RespReserve(_) => RespawnReserving(s, ok)
    case RespConnect(_) => RespawnConnecting(s, ok)
    case RespRead(_) => RespawnReading(s)
    case RespRekey(_, _) => RespawnRekeying(s)
    case RespList(_) => RespawnListing(s, ok)
    case RespWant(_) => RespawnLock(s)
    case RespSurvive(_) => RespawnSurviving(s)
    case RespCredit(_) => RespawnCrediting(s)
    case RespStore(_) => RespawnStoring(s)
    case RespDrop(_) => RespawnDropping(s)
    case RespUnlock => s.(resp := RespIdle)
  }

  // ----- runs

  datatype Action =
    | AStartReserve(ok: bool) | AStartConnect(ok: bool) | AStartStore | AStartList(ok: bool) | AStartDrop
    | ABeginClose(n: nat) | ACloseLock(c: Closer) | AClose
    | AManagerDrops(d: nat) | AManagerForgets(d: nat) | ALeaseExpires(n: nat) | ARemovalLookup(d: nat) | AExpiryLookup(n: nat)
    | AInitialize | APublishCheck | APublishInsert | APublishRecheck | AOnRespawn(ds: nat)
    | ABeginRespawn | ARespawn(ok: bool)

  function Step(s: State, a: Action): State {
    match a
    case AStartReserve(ok) => StartReserving(s, ok)
    case AStartConnect(ok) => StartConnecting(s, ok)
    case AStartStore => StartStoring(s)
    case AStartList(ok) => StartListing(s, ok)
    case AStartDrop => StartDropping(s)
    case ABeginClose(n) => BeginClose(s, n)
    case ACloseLock(c) => CloseLock(s, c)
    case AClose => CloseStep(s)
    case AManagerDrops(d) => ManagerDrops(s, d)
    case AManagerForgets(d) => ManagerForgets(s, d)
    case ALeaseExpires(n) => LeaseExpires(s, n)
    case ARemovalLookup(d) => RemovalLookup(s, d)
    case AExpiryLookup(n) => ExpiryLookup(s, n)
    case AInitialize => Initialize(s)
    case APublishCheck => PublishCheck(s)
    case APublishInsert => PublishInsert(s)
    case APublishRecheck => PublishRecheck(s)
    case AOnRespawn(ds) => OnRespawn(s, ds)
    case ABeginRespawn => BeginRespawn(s)
    case ARespawn(ok) => RespawnStep(s, ok)
  }

  function Run(s: State, run: seq<Action>): State
    decreases |run|
  {
    if run == [] then s else Run(Step(s, run[0]), run[1..])
  }

  ghost function Reached(shared: bool, run: seq<Action>): State { Run(Init(shared), run) }

  // ----- invariants

  // The respawn is past its double check and has not given up.
  predicate Working(r: Respawn) { !r.RespIdle? && !r.RespCheck? && !r.RespUnlock? }

  predicate InPhase(s: State, phase: Phase) { s.closing.Inside? && s.closing.phase == phase }

  // Past the generation close: the proxy is closed and the indexes are being cleaned.
  predicate InTail(s: State) {
    s.closing.Inside? && !s.closing.phase.CloseOnce? && !s.closing.phase.CloseMark?
  }

  ghost predicate OrderInv(s: State) {
    && (PreStore(s.start) ==> !s.stored)
    && (s.start.StartList? ==> s.stored)
    && (s.upstream ==> s.start.StartDone? && s.stored)
    && (s.pub.PubNotYet? ==> !s.upstream)
    && (s.pub.PubCheck? || s.pub.PubInsert? || s.pub.PubRecheck? ==> s.upstream)
    && (!s.start.StartDone? ==> s.pub.PubNotYet?)
    && (s.start.StartDone? && s.pub.PubNotYet? ==> s.stored)
    && (s.stored ==> s.closed || s.downstream.Some?)
    && (s.closed ==> s.downstream.None?)
    && (RespawnInside(s.resp) ==> s.closing.Nobody?)
    && (s.shared ==> s.resp.RespIdle? && s.mgr == map[])
  }

  // The active-session credit follows the generation.
  ghost predicate CreditInv(s: State) {
    && s.gauge == (if s.counted then 1 else 0)
    && (s.counted ==> Live(s) || s.resp.RespStore?)
    && (s.onceUsed ==> s.closed || InPhase(s, CloseMark))
    && (InPhase(s, CloseMark) ==> s.onceUsed && !s.counted)
    && (InTail(s) ==> s.closed)
    && (s.resp.RespCredit? || s.resp.RespStore? ==> !s.onceUsed)
    && (Checked(s) && s.upstream && Live(s) ==> s.counted || InPhase(s, CloseMark))
    && (Checked(s) && s.upstream && s.resp.RespStore? ==> s.counted)
  }

  // Somebody is on the way who will take the closed proxy out of the downstream index.
  predicate DownCleaner(s: State) {
    || s.waiting != {}
    || (s.closing.Inside? && !s.closing.phase.CloseUp?)
    || s.pub.PubRecheck?
  }

  // The same for the upstream index.
  predicate UpCleaner(s: State) {
    || s.waiting != {}
    || (s.closing.Inside? && (s.closing.phase.CloseDown? ==> s.closing.phase.up))
    || s.pub.PubRecheck?
  }

  ghost predicate SharedInv(s: State) {
    && s.byDown <= {0}
    && s.sid == 0
    && (s.downstream.Some? ==> s.stored)
    && (forall c <- s.lookups :: c.ByExpiry?)
    && (s.byUp ==> Checked(s) && s.upstream)
    && (s.closing.Inside? && s.closing.phase.CloseDown? ==>
          s.closing.phase.id == 0 && (Checked(s) && s.upstream ==> s.closing.phase.up))
    && (s.pub.PubInsert? || s.pub.PubRecheck? ==> s.pub.wasLive)
    && (s.closed && s.byDown != {} ==> DownCleaner(s))
    && (s.closed && s.byUp ==> UpCleaner(s))
  }

  // A removal of generation d has been started and its closeDownstream has not finished.
  predicate Removing(s: State, d: nat) {
    ByRemoval(d) in s.lookups || ByRemoval(d) in s.waiting || (s.closing.Inside? && s.closing.who == ByRemoval(d))
  }

  predicate Gone(s: State, c: Closer) { c.ByRemoval? ==> c.d < s.nextId && c.d !in s.mgr }

  // Identifiers are fresh; a removed one never comes back. A slot is only reserved as long as
  // its SpawnSession runs.
  ghost predicate FreshInv(s: State) {
    && s.sid < s.nextId
    && (forall d <- s.mgr :: d < s.nextId)
    && (forall d <- s.byDown :: d < s.nextId)
    && (forall c <- s.lookups :: c.ByRemoval? && Gone(s, c))
    && (forall c <- s.waiting :: Gone(s, c))
    && (s.closing.Inside? ==> Gone(s, s.closing.who))
    && (s.start.StartReserve? || s.start.StartConnect? ==> !Tracks(s, 0) && !Removing(s, 0))
    && (Working(s.resp) ==> 1 <= s.resp.id < s.nextId)
    && (s.resp.RespReserve? || s.resp.RespConnect? ==>
          !Tracks(s, s.resp.id) && !Removing(s, s.resp.id) && s.resp.id != s.sid)
    && (forall d <- s.mgr :: s.mgr[d].Reserved? ==> (d == 0 && s.start.StartConnect?) || s.resp == RespConnect(d))
  }

  // A removal of d is under way that found this proxy and will close it.
  predicate Pending(s: State, d: nat) {
    ByRemoval(d) in s.waiting ||
    (s.closing.Inside? && s.closing.who == ByRemoval(d) && !InTail(s))
  }

  // The manager holds generation d and the index leads its removal to this proxy, or a
  // removal of d is under way that will close this proxy.
  predicate Held(s: State, d: nat) {
    (d in s.byDown && (Tracks(s, d) || ByRemoval(d) in s.lookups)) || Pending(s, d)
  }

  predicate StartKept(s: State) {
    match s.start
    case StartReserve => s.closed || 0 in s.byDown
    case StartConnect => s.closed || 0 in s.byDown
    case StartStore => s.closed || Held(s, 0)
    case StartDrop => Live(s) ==> s.sid >= 1
    case _ => true
  }

  predicate RespKept(s: State) {
    match s.resp
    case RespReserve(id) => id != s.sid
    case RespConnect(id) => id != s.sid
    case RespRead(id) => id != s.sid
    case RespRekey(id, _) => id != s.sid
    case RespList(id) => id != s.sid && (Tracks(s, id) ==> id in s.byDown)
    case RespWant(id) => id != s.sid && (Tracks(s, id) ==> id in s.byDown)
    case RespSurvive(id) => id != s.sid && (Tracks(s, id) ==> id in s.byDown)
    case RespCredit(id) => id == s.sid && Held(s, id)
    case RespStore(id) => id == s.sid && Held(s, id)
    case _ => true
  }

  ghost predicate GenInv(s: State) {
    && (PreStore(s.start) ==> s.sid == 0 && s.downstream.None? && !Working(s.resp))
    && (Working(s.resp) ==> !Live(s))
    && (Live(s) ==> s.downstream == Some(s.sid) && Held(s, s.sid))
    && (s.closing.Inside? && s.closing.phase.CloseDown? ==> s.closing.phase.id == s.sid)
    && StartKept(s)
    && RespKept(s)
  }

  ghost predicate Inv(s: State) {
    && OrderInv(s)
    && CreditInv(s)
    && (s.shared ==> SharedInv(s))
    && (!s.shared ==> FreshInv(s))
    && (!s.shared && !s.raced ==> GenInv(s))
  }
}

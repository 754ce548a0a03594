/**
 The lease table of internal/mcp/lease.go on values: one function per operation of
 LeaseManager. Times are parameters, in nanoseconds; `None` is Go's zero time. A row keeps
 the session identifier where the code keeps its digest.
*/
module LeaseTable {
  import opened Wrappers

  const MAX_CLOSED := 1000
  const SECOND := 1_000_000_000
  const HANDSHAKE_FLOOR := 30 * SECOND

  // int64 arithmetic of time.Duration.
  const TWO_63 := 0x8000_0000_0000_0000
  const TWO_64 := 0x1_0000_0000_0000_0000

  function Wrap64(x: int): (w: int)
    ensures -0x8000_0000_0000_0000 <= w < 0x8000_0000_0000_0000 && (x - w) % 0x1_0000_0000_0000_0000 == 0
  {
    (x + TWO_63) % TWO_64 - TWO_63
  }

  type Duration = d: int | -0x8000_0000_0000_0000 <= d < 0x8000_0000_0000_0000

  datatype Bounds = Bounds(
    maxSessions: int, idleTimeout: int, disconnectGrace: int, neverActive: int, cleanupUncertain: int)

  // NewLeaseManagerWithDisconnectGrace. The never-active bound is the shorter of the idle
  // timeout and five grace periods, raised to the handshake floor, or disabled; the
  // quarantine bound is the same, but never disabled.
  function DeriveBounds(maxSessions: int, idleTimeout: Duration, grace: Duration): (b: Bounds)
    ensures b.neverActive <= 0 || b.neverActive >= 30_000_000_000
    ensures b.cleanupUncertain >= 30_000_000_000
    ensures b.neverActive > 0 ==> b.cleanupUncertain == b.neverActive
    ensures 0 < grace < TWO_63 / 5 ==> b.neverActive > 0
    ensures b.neverActive > 30_000_000_000 ==>
              (idleTimeout > 0 ==> b.neverActive <= idleTimeout) && (0 < grace < TWO_63 / 5 ==> b.neverActive <= 5 * grace)
    ensures 0 < grace < TWO_63 / 5 && 5 * grace >= 30_000_000_000 && (idleTimeout <= 0 || 5 * grace < idleTimeout) ==>
              b.neverActive == 5 * grace
    ensures idleTimeout >= 30_000_000_000 && (grace <= 0 || (grace < TWO_63 / 5 && idleTimeout <= 5 * grace)) ==>
              b.neverActive == idleTimeout
    ensures b.maxSessions == maxSessions && b.idleTimeout == idleTimeout && b.disconnectGrace == grace
  {
    var graceBound := Wrap64(5 * grace);
    var derived := if grace > 0 && (idleTimeout <= 0 || graceBound < idleTimeout) then graceBound else idleTimeout;
    var neverActive := if 0 < derived < HANDSHAKE_FLOOR then HANDSHAKE_FLOOR else derived;
    Bounds(maxSessions, idleTimeout, grace, neverActive, if neverActive <= 0 then HANDSHAKE_FLOOR else neverActive)
  }

  datatype LeaseState = Active | Expiring | CleanupUncertain

  datatype Lease = Lease(
    state: LeaseState, createdAt: int, lastActivity: int, inFlight: int, sse: int, everActive: bool,
    disconnect: Option<int>, cleanup: Option<int>, reason: string)

  datatype Row = Row(id: string, age: int, idle: int, inFlight: int, sse: int, reason: string)

  // `history` and `commits` are history variables: every row ever recorded, and how many
  // leases were ever committed.
  datatype Table = Table(
    b: Bounds, nextToken: nat, reservations: set<nat>, leases: map<string, Lease>,
    closed: seq<Row>, closedOmitted: nat, history: seq<Row>, commits: nat)

  function Empty(b: Bounds): Table { Table(b, 0, {}, map[], [], 0, [], 0) }

  // ----- admission

  predicate Full(t: Table) {
    t.b.maxSessions > 0 && |t.reservations| + |t.leases| >= t.b.maxSessions
  }

  // The new token is nextToken + 1.
  function Reserve(t: Table): Table {
    if Full(t) then t else t.(nextToken := t.nextToken + 1, reservations := t.reservations + {t.nextToken + 1})
  }

  datatype CommitError = NoError | EmptyID | ReservationNotFound | LeaseExists

  function CommitOutcome(t: Table, token: nat, id: string): CommitError {
    if id == "" then EmptyID
    else if token !in t.reservations then ReservationNotFound
    else if id in t.leases then LeaseExists
    else NoError
  }

  function Fresh(now: int): Lease { Lease(Active, now, now, 0, 0, false, None, None, "initialized") }

  function Commit(t: Table, token: nat, id: string, now: int): Table {
    if CommitOutcome(t, token, id) != NoError then t
    else t.(reservations := t.reservations - {token}, leases := t.leases[id := Fresh(now)], commits := t.commits + 1)
  }

  function Release(t: Table, token: nat): Table { t.(reservations := t.reservations - {token}) }

  // ----- requests and streams

  predicate IsActive(t: Table, id: string) { id in t.leases && t.leases[id].state == Active }

  // Application activity moves a running disconnect deadline.
  function Touched(b: Bounds, l: Lease, now: int): Lease {
    l.(lastActivity := now, disconnect := if l.disconnect.Some? then Some(now + b.disconnectGrace) else None)
  }

  function BeginRequest(t: Table, id: string, activity: bool, now: int): Table {
    if !IsActive(t, id) then t else
    var l := t.leases[id].(inFlight := t.leases[id].inFlight + 1);
    t.(leases := t.leases[id := if activity then Touched(t.b, l.(everActive := true), now) else l])
  }

  function EndRequest(t: Table, id: string, activity: bool, now: int): Table {
    if id !in t.leases || t.leases[id].inFlight == 0 then t else
    var l := t.leases[id].(inFlight := t.leases[id].inFlight - 1);
    t.(leases := t.leases[id := if activity then Touched(t.b, l, now) else l])
  }

  function BeginSSE(t: Table, id: string): Table {
    if !IsActive(t, id) then t
    else t.(leases := t.leases[id := t.leases[id].(sse := t.leases[id].sse + 1, disconnect := None)])
  }

  function EndSSE(t: Table, id: string, now: int): Table {
    if id !in t.leases || t.leases[id].sse <= 0 then t else
    var l := t.leases[id].(sse := t.leases[id].sse - 1);
    t.(leases := t.leases[id :=
       if l.sse == 0 && t.b.disconnectGrace > 0 then l.(disconnect := Some(now + t.b.disconnectGrace)) else l])
  }

  // ----- expiry

  // Why the pruner reclaims a lease now; "" if it does not.
  function ExpiryReason(b: Bounds, l: Lease, now: int): (reason: string)
    ensures reason != "" ==> l.state == Active && l.inFlight == 0
  {
    if l.state != Active || l.inFlight != 0 then ""
    else if l.disconnect.Some? && now >= l.disconnect.value then "client_disconnected"
    else if b.neverActive > 0 && !l.everActive && now - l.lastActivity >= b.neverActive then "never_streamed"
    else if b.idleTimeout > 0 && now - l.lastActivity >= b.idleTimeout then "idle_timeout"
    else ""
  }

  // Nobody uses the lease.
  predicate Unused(l: Lease) { l.state == Active && l.inFlight == 0 }

  predicate Disconnected(l: Lease, now: int) { l.disconnect.Some? && now >= l.disconnect.value }

  predicate NeverStreamed(b: Bounds, l: Lease, now: int) {
    b.neverActive > 0 && !l.everActive && now - l.lastActivity >= b.neverActive
  }

  predicate IdleTooLong(b: Bounds, l: Lease, now: int) { b.idleTimeout > 0 && now - l.lastActivity >= b.idleTimeout }

  // A lease is reclaimed exactly if nobody uses it and one of the three rules applies, under
  // the first of them that does; as long as nobody touches it, a reason does not go away.
  lemma ExpiryReasonExactlyWhen(b: Bounds, l: Lease, now: int)
    ensures var reason := ExpiryReason(b, l, now);
            && (reason == "client_disconnected" <==> Unused(l) && Disconnected(l, now))
            && (reason == "never_streamed" <==> Unused(l) && !Disconnected(l, now) && NeverStreamed(b, l, now))
            && (reason == "idle_timeout" <==>
                  Unused(l) && !Disconnected(l, now) && !NeverStreamed(b, l, now) && IdleTooLong(b, l, now))
            && (reason != "" <==> Unused(l) && (Disconnected(l, now) || NeverStreamed(b, l, now) || IdleTooLong(b, l, now)))
            && (reason != "" ==> forall later :: later >= now ==> ExpiryReason(b, l, later) != "")
  {
    assert "client_disconnected" != "never_streamed" by { assert "client_disconnected"[0] != "never_streamed"[0]; }
    assert "client_disconnected" != "idle_timeout" by { assert "client_disconnected"[0] != "idle_timeout"[0]; }
    assert "never_streamed" != "idle_timeout" by { assert "never_streamed"[0] != "idle_timeout"[0]; }
  }

  function Expired(b: Bounds, l: Lease, now: int): Lease {
    if ExpiryReason(b, l, now) != "" then l.(state := Expiring, reason := ExpiryReason(b, l, now)) else l
  }

  function ExpireEligible(t: Table, now: int): Table {
    t.(leases := map id | id in t.leases :: Expired(t.b, t.leases[id], now))
  }

  predicate Claimable(t: Table, id: string) { IsActive(t, id) && t.leases[id].inFlight == 0 }

  function TryBeginExpiry(t: Table, id: string, reason: string): Table {
    if !Claimable(t, id) then t
    else t.(leases := t.leases[id := t.leases[id].(state := Expiring, reason := reason)])
  }

  function RestoreActive(t: Table, id: string): Table {
    if id !in t.leases || t.leases[id].state != Expiring then t
    else t.(leases := t.leases[id := t.leases[id].(state := Active, reason := "")])
  }

  function MarkCleanupUncertain(t: Table, id: string, reason: string, now: int): Table {
    if id !in t.leases then t
    else t.(leases := t.leases[id :=
            t.leases[id].(state := CleanupUncertain, reason := reason, cleanup := Some(now + t.b.cleanupUncertain))])
  }

  // ----- closing

  function RowOf(id: string, l: Lease, reason: string, now: int): Row {
    Row(id, now - l.createdAt, now - l.lastActivity, l.inFlight, l.sse, if reason == "" then "closed" else reason)
  }

  // recordClosedLocked: a full history drops its oldest row.
  function RecordRow(t: Table, row: Row): Table {
    if |t.closed| == MAX_CLOSED
    then t.(closed := t.closed[1..] + [row], closedOmitted := t.closedOmitted + 1, history := t.history + [row])
    else t.(closed := t.closed + [row], history := t.history + [row])
  }

  function FinalizeClose(t: Table, id: string, now: int): Table {
    if id !in t.leases then t else
    var u := RecordRow(t, RowOf(id, t.leases[id], t.leases[id].reason, now));
    u.(leases := u.leases - {id})
  }

  function Named(order: seq<string>): set<string> { set id <- order }

  // Closes the leases `order` names one after the other.
  function FinalizeEach(t: Table, order: seq<string>, now: int): Table
    decreases |order|
  {
    if order == [] then t else FinalizeEach(FinalizeClose(t, order[0], now), order[1..], now)
  }

  predicate QuarantineOver(l: Lease, now: int) {
    l.state == CleanupUncertain && (l.cleanup.Some? ==> now >= l.cleanup.value)
  }

  // `order` lists each element of `ids` once.
  ghost predicate Lists(order: seq<string>, ids: set<string>) {
    && (forall i, j :: 0 <= i < j < |order| ==> order[i] != order[j])
    && (forall id :: id in order <==> id in ids)
  }

  function Overdue(t: Table, now: int): set<string> {
    set id | id in t.leases && QuarantineOver(t.leases[id], now)
  }

  function RecordEach(t: Table, order: seq<string>, reason: string, now: int): Table
    requires forall id <- order :: id in t.leases
    decreases |order|
  {
    if order == [] then t
    else RecordEach(RecordRow(t, RowOf(order[0], t.leases[order[0]], reason, now)), order[1..], reason, now)
  }

  function InvalidateAll(t: Table, order: seq<string>, reason: string, now: int): Table
    requires forall id <- order :: id in t.leases
  {
    RecordEach(t, order, reason, now).(reservations := {}, leases := map[])
  }

  // ----- what every operation keeps

  // The retained rows are the last MAX_CLOSED of all rows, in order; the rest is counted.
  predicate HistoryKept(t: Table) {
    && |t.closed| <= MAX_CLOSED
    && t.closedOmitted == |t.history| - |t.closed|
    && (t.closedOmitted > 0 ==> |t.closed| == MAX_CLOSED)
    && t.closed == t.history[t.closedOmitted..]
  }

  predicate CountsKept(t: Table) {
    && (t.b.maxSessions > 0 ==> |t.reservations| + |t.leases| <= t.b.maxSessions)
    && (forall token <- t.reservations :: 1 <= token <= t.nextToken)
    && t.commits == |t.leases| + |t.history|
  }

  predicate LeaseKept(b: Bounds, l: Lease, clock: int) {
    && l.lastActivity <= clock && l.inFlight >= 0 && l.sse >= 0
    && (l.disconnect.Some? ==> b.disconnectGrace > 0 && l.sse == 0 && l.disconnect.value >= l.lastActivity + b.disconnectGrace)
    && (l.state == CleanupUncertain ==> l.cleanup.Some? && l.cleanup.value <= clock + b.cleanupUncertain)
  }

  predicate TableInv(t: Table, clock: int) {
    && HistoryKept(t)
    && CountsKept(t)
    && "" !in t.leases
    && (forall id <- t.leases :: LeaseKept(t.b, t.leases[id], clock))
  }

  lemma ReserveKeeps(t: Table, clock: int)
    requires TableInv(t, clock)
    ensures TableInv(Reserve(t), clock)
  {
  }

  lemma CommitKeeps(t: Table, token: nat, id: string, clock: int)
    requires TableInv(t, clock)
    ensures TableInv(Commit(t, token, id, clock), clock)
  {
  }

  lemma ReleaseKeeps(t: Table, token: nat, clock: int)
    requires TableInv(t, clock)
    ensures TableInv(Release(t, token), clock)
  {
  }

  // Replacing a tracked lease by one that keeps its promises.
  lemma UpdateKeeps(t: Table, id: string, l: Lease, clock: int)
    requires TableInv(t, clock) && id in t.leases && LeaseKept(t.b, l, clock)
    ensures TableInv(t.(leases := t.leases[id := l]), clock)
  {
    assert t.leases[id := l].Keys == t.leases.Keys;
  }

  lemma RequestsKeep(t: Table, id: string, activity: bool, clock: int)
    requires TableInv(t, clock)
    ensures TableInv(BeginRequest(t, id, activity, clock), clock)
    ensures TableInv(EndRequest(t, id, activity, clock), clock)
    ensures TableInv(BeginSSE(t, id), clock)
    ensures TableInv(EndSSE(t, id, clock), clock)
  {
    hide TableInv;
    if id in t.leases {
      TrackedKept(t, id, clock);
      if IsActive(t, id) {
        UpdateKeeps(t, id, BeginRequest(t, id, activity, clock).leases[id], clock);
        UpdateKeeps(t, id, BeginSSE(t, id).leases[id], clock);
      }
      if t.leases[id].inFlight > 0 {
        UpdateKeeps(t, id, EndRequest(t, id, activity, clock).leases[id], clock);
      }
      if t.leases[id].sse > 0 {
        UpdateKeeps(t, id, EndSSE(t, id, clock).leases[id], clock);
      }
    }
  }

  lemma TrackedKept(t: Table, id: string, clock: int)
    requires TableInv(t, clock) && id in t.leases
    ensures LeaseKept(t.b, t.leases[id], clock)
  {
  }

  lemma StatesKeep(t: Table, id: string, reason: string, clock: int)
    requires TableInv(t, clock)
    ensures TableInv(TryBeginExpiry(t, id, reason), clock)
    ensures TableInv(RestoreActive(t, id), clock)
    ensures TableInv(MarkCleanupUncertain(t, id, reason, clock), clock)
  {
    hide TableInv;
    if id in t.leases {
      TrackedKept(t, id, clock);
      UpdateKeeps(t, id, t.leases[id].(state := Expiring, reason := reason), clock);
      UpdateKeeps(t, id, t.leases[id].(state := Active, reason := ""), clock);
      UpdateKeeps(t, id, MarkCleanupUncertain(t, id, reason, clock).leases[id], clock);
    }
  }

  lemma ExpireKeeps(t: Table, clock: int)
    requires TableInv(t, clock)
    ensures TableInv(ExpireEligible(t, clock), clock)
  {
    assert ExpireEligible(t, clock).leases.Keys == t.leases.Keys;
  }

  // Time passes.
  lemma ClockKeeps(t: Table, clock: int, later: int)
    requires TableInv(t, clock) && clock <= later
    ensures TableInv(t, later)
  {
  }

  lemma RecordKeepsHistory(t: Table, row: Row)
    requires HistoryKept(t)
    ensures HistoryKept(RecordRow(t, row))
    ensures RecordRow(t, row).history == t.history + [row]
  {
  }

  lemma FinalizeKeeps(t: Table, id: string, clock: int)
    requires TableInv(t, clock)
    ensures var u := FinalizeClose(t, id, clock);
            && TableInv(u, clock) && u.leases == t.leases - {id}
            && u == t.(leases := u.leases, closed := u.closed, closedOmitted := u.closedOmitted, history := u.history)
  {
    if id in t.leases {
      RecordKeepsHistory(t, RowOf(id, t.leases[id], t.leases[id].reason, clock));
    }
  }

  lemma {:induction false} FinalizeEachKeeps(t: Table, order: seq<string>, clock: int)
    requires TableInv(t, clock)
    ensures var u := FinalizeEach(t, order, clock);
            && TableInv(u, clock) && u.leases == t.leases - Named(order)
            && u == t.(leases := u.leases, closed := u.closed, closedOmitted := u.closedOmitted, history := u.history)
    decreases |order|
  {
    hide TableInv, FinalizeClose, Named;
    if order == [] {
      assert Named(order) == {} by {
        NamedNone();
      }
      assert t.leases - Named(order) == t.leases;
    } else {
      FinalizeKeeps(t, order[0], clock);
      FinalizeEachKeeps(FinalizeClose(t, order[0], clock), order[1..], clock);
      NamedFirst(order);
      MinusTwice(t.leases, {order[0]}, Named(order[1..]));
    }
  }

  lemma NamedNone()
    ensures Named([]) == {}
  {
  }

  lemma NamedFirst(order: seq<string>)
    requires order != []
    ensures Named(order) == {order[0]} + Named(order[1..])
  {
  }

  lemma MinusTwice(leases: map<string, Lease>, a: set<string>, b: set<string>)
    ensures leases - (a + b) == leases - a - b
  {
  }

  lemma {:induction false} RecordEachKeeps(t: Table, order: seq<string>, reason: string, now: int)
    requires HistoryKept(t) && forall id <- order :: id in t.leases
    ensures var u := RecordEach(t, order, reason, now);
            && HistoryKept(u) && |u.history| == |t.history| + |order|
            && u == t.(closed := u.closed, closedOmitted := u.closedOmitted, history := u.history)
    decreases |order|
  {
    if order != [] {
      var row := RowOf(order[0], t.leases[order[0]], reason, now);
      RecordKeepsHistory(t, row);
      RecordEachKeeps(RecordRow(t, row), order[1..], reason, now);
    }
  }

  lemma {:induction false} ListsSize(order: seq<string>, ids: set<string>)
    requires Lists(order, ids)
    ensures |order| == |ids|
    decreases |order|
  {
    if order == [] {
      assert ids == {};
    } else {
      assert order[0] in ids;
      forall id ensures id in order[1..] <==> id in ids - {order[0]} {
        assert order == [order[0]] + order[1..];
      }
      ListsSize(order[1..], ids - {order[0]});
    }
  }

  lemma InvalidateKeeps(t: Table, order: seq<string>, reason: string, clock: int)
    requires TableInv(t, clock) && Lists(order, t.leases.Keys)
    ensures TableInv(InvalidateAll(t, order, reason, clock), clock)
    ensures var u := InvalidateAll(t, order, reason, clock);
            u.leases == map[] && u.reservations == {} && u.nextToken == t.nextToken && u.b == t.b
  {
    RecordEachKeeps(t, order, reason, clock);
    ListsSize(order, t.leases.Keys);
  }
}

/**
 Reconciler.Reconcile of internal/ownership/reconcile.go. Everything the outside answers comes
 from `World`, asked in order; everything the reconciler asks or does is appended to a trace,
 and the contracts say what the trace may look like.
*/
module Reconciler {
  import opened Wrappers
  import opened GroupVerification

  datatype Signal = TERM | KILL

  datatype Event =
    | Verified(server: string, lease: Lease, configHash: string, status: GroupStatus)
    | ContextChecked(ok: bool)
    | Signalled(server: string, lease: Lease, configHash: string, signal: Signal, ok: bool)
    | ReadBack(server: string, current: Answer<Lease>)
    | Released(server: string, generation: nat, ok: bool)
    | Selected(choice: Choice)

  // What the waiter's select picks.
  datatype Choice = Cancelled | Deadline | Tick

  // Answers to the question asked when the trace has the given length.
  datatype World = World(
    answers: nat -> Answers, context: nat -> bool, signals: nat -> bool, stored: nat -> Answer<Lease>,
    releases: nat -> bool, choices: nat -> Choice)

  datatype Status = SError | SConflict | SUnsupported | SRemovedDead | SReclaimed
  datatype Reason = NoReason | CancelledReason | IdentityChanged
  datatype Result = Result(server: string, status: Status, reason: Reason)

  // A listed lease file; None if it could not be read.
  datatype Listed = Listed(server: string, lease: Option<Lease>)

  // The configuration of a Reconciler: whether there is a process reader, a signaler that is
  // supported, and how many ticks fit into the two timeouts, None for a timeout of zero.
  datatype Config = Config(reader: bool, signaler: bool, term: Option<nat>, kill: Option<nat>)

  // releaseIfCurrent compares everything but the schema version.
  predicate SameLease(a: Lease, b: Lease) { a.(version := b.version) == b }

  // ----- what a trace must look like

  predicate Honest(w: World, trace: seq<Event>, i: nat)
    requires i < |trace|
  {
    match trace[i]
    case Verified(_, lease, configHash, status) => status == Verdict(w.answers(i), lease, configHash)
    case ContextChecked(ok) => ok == w.context(i)
    case _ => true
  }

  // A signal directly follows a verification of the same lease and identity that answered
  // owned, with only a look at the context in between; a KILL comes after a delivered TERM.
  predicate SignalSafe(trace: seq<Event>, i: nat)
    requires i < |trace|
  {
    var e := trace[i];
    e.Signalled? ==>
      && i >= 2 && trace[i - 1] == ContextChecked(true)
      && trace[i - 2] == Verified(e.server, e.lease, e.configHash, Owned)
      && (e.signal == KILL ==> exists j :: 0 <= j < i && trace[j] == Signalled(e.server, e.lease, e.configHash, TERM, true))
  }

  // A lease file is removed only right after the lease was read back unchanged, and the last
  // verification, of that lease, answered dead.
  predicate ReleaseSafe(trace: seq<Event>, i: nat)
    requires i < |trace|
  {
    var e := trace[i];
    e.Released? ==>
      && i >= 3 && trace[i - 2] == ContextChecked(true)
      && trace[i - 1].ReadBack? && trace[i - 1].server == e.server
      && trace[i - 3].Verified? && trace[i - 3].server == e.server && trace[i - 3].status == Dead
      && trace[i - 1].current.Ok? && SameLease(trace[i - 1].current.value, trace[i - 3].lease)
      && e.generation == trace[i - 3].lease.generation
  }

  predicate Safe(w: World, trace: seq<Event>) {
    forall i :: 0 <= i < |trace| ==> Honest(w, trace, i) && SignalSafe(trace, i) && ReleaseSafe(trace, i)
  }

  // Between lo and the end the trace removed the lease file of this server.
  predicate Removed(trace: seq<Event>, lo: nat, server: string) {
    exists i :: lo <= i < |trace| && trace[i].Released? && trace[i].server == server && trace[i].ok
  }

  predicate Signals(trace: seq<Event>, lo: nat, signal: Signal) {
    exists i :: lo <= i < |trace| && trace[i].Signalled? && trace[i].signal == signal
  }

  // Since lo nothing was signalled and nothing was released.
  predicate Passive(trace: seq<Event>, lo: nat) {
    forall i :: lo <= i < |trace| ==> !trace[i].Signalled? && !trace[i].Released?
  }

  lemma SafeAppend(w: World, trace: seq<Event>, e: Event)
    requires Safe(w, trace)
    requires Honest(w, trace + [e], |trace|) && SignalSafe(trace + [e], |trace|) && ReleaseSafe(trace + [e], |trace|)
    ensures Safe(w, trace + [e])
  {
    var u := trace + [e];
    forall i | 0 <= i < |u| ensures Honest(w, u, i) && SignalSafe(u, i) && ReleaseSafe(u, i) {
      if i < |trace| {
        SafeEarlier(w, trace, e, i);
      }
    }
  }

  lemma SafeEarlier(w: World, trace: seq<Event>, e: Event, i: nat)
    requires i < |trace| && Honest(w, trace, i) && SignalSafe(trace, i) && ReleaseSafe(trace, i)
    ensures var u := trace + [e]; Honest(w, u, i) && SignalSafe(u, i) && ReleaseSafe(u, i)
  {
    var u := trace + [e];
    assert forall j :: 0 <= j < |trace| ==> u[j] == trace[j];
    if trace[i].Signalled? && trace[i].signal == KILL {
      var j :| 0 <= j < i && trace[j] == Signalled(trace[i].server, trace[i].lease, trace[i].configHash, TERM, true);
      assert u[j] == trace[j];
    }
  }

  // ----- what the answers of the outside decide

  // The verdict on the group if it is looked at when the trace has length n.
  function Seen(w: World, n: nat, lease: Lease, configHash: string): GroupStatus { Verdict(w.answers(n), lease, configHash) }

  // Found owned at n, with a context that is still alive.
  predicate OwnedAlive(w: World, n: nat, lease: Lease, configHash: string) {
    Seen(w, n, lease, configHash) == Owned && w.context(n + 1)
  }

  // From n on the lease file of a dead group can be removed.
  predicate Releasable(w: World, n: nat, lease: Lease) {
    w.context(n) && w.stored(n + 1).Ok? && SameLease(w.stored(n + 1).value, lease) && w.releases(n + 2)
  }

  // Turn i of a wait that starts at n decides nothing and the ticker is first.
  predicate Passes(w: World, n: nat, i: nat, lease: Lease, configHash: string) {
    && w.context(n + 3 * i) && Seen(w, n + 3 * i + 1, lease, configHash) in {Owned, Unknown}
    && w.choices(n + 3 * i + 2) == Tick
  }

  // Turn j ends the wait with this verdict when the trace has length m.
  predicate Ends(w: World, n: nat, j: nat, last: bool, lease: Lease, configHash: string, status: GroupStatus, m: nat) {
    && w.context(n + 3 * j) && status == Seen(w, n + 3 * j + 1, lease, configHash)
    && if status == Dead || status == Conflict then m == n + 3 * j + 2
       else m == n + 3 * j + 3 && (w.choices(n + 3 * j + 2) == Deadline || (last && w.choices(n + 3 * j + 2) == Tick))
  }

  predicate EndsAfter(w: World, n: nat, j: nat, ticks: nat, lease: Lease, configHash: string, status: GroupStatus, m: nat) {
    && j <= ticks && Ends(w, n, j, j == ticks, lease, configHash, status, m)
    && forall i: nat :: i < j ==> Passes(w, n, i, lease, configHash)
  }

  // A wait that starts at n gives this verdict when the trace has length m.
  ghost predicate WaitGives(w: World, n: nat, ticks: Option<nat>, lease: Lease, configHash: string, status: GroupStatus, m: nat) {
    if ticks.None? then w.context(n) && status == Seen(w, n + 1, lease, configHash) && m == n + 2
    else exists j: nat :: EndsAfter(w, n, j, ticks.value, lease, configHash, status, m)
  }

  // What a wait that was not, or that was, cancelled must have been given.
  ghost predicate WaitAnswers(
    w: World, n: nat, ticks: Option<nat>, lease: Lease, configHash: string, status: GroupStatus, cancelled: bool, m: nat)
  {
    && (!cancelled ==> WaitGives(w, n, ticks, lease, configHash, status, m))
    && forall s, k: nat :: WaitGives(w, n, ticks, lease, configHash, s, k) ==> !cancelled && s == status && k == m
  }

  lemma WaitEndsOnce(w: World, n: nat, ticks: nat, lease: Lease, configHash: string, j: nat, status: GroupStatus, m: nat)
    requires EndsAfter(w, n, j, ticks, lease, configHash, status, m)
    ensures WaitAnswers(w, n, Some(ticks), lease, configHash, status, false, m)
  {
    forall s, k: nat | WaitGives(w, n, Some(ticks), lease, configHash, s, k) ensures s == status && k == m {
      var i: nat :| EndsAfter(w, n, i, ticks, lease, configHash, s, k);
      var atI, atJ := Passes(w, n, i, lease, configHash), Passes(w, n, j, lease, configHash);
    }
  }

  // Turn j ends the wait because the context has.
  predicate Breaks(w: World, n: nat, j: nat, lease: Lease, configHash: string) {
    || !w.context(n + 3 * j)
    || (Seen(w, n + 3 * j + 1, lease, configHash) in {Owned, Unknown} && w.choices(n + 3 * j + 2) == Cancelled)
  }

  lemma BrokenWaitGivesNothing(w: World, n: nat, ticks: nat, lease: Lease, configHash: string, j: nat, m: nat)
    requires j <= ticks && Breaks(w, n, j, lease, configHash)
    requires forall i: nat :: i < j ==> Passes(w, n, i, lease, configHash)
    ensures WaitAnswers(w, n, Some(ticks), lease, configHash, Unknown, true, m)
  {
    forall s, k: nat | WaitGives(w, n, Some(ticks), lease, configHash, s, k) ensures false {
      var i: nat :| EndsAfter(w, n, i, ticks, lease, configHash, s, k);
      var atI, atJ := Passes(w, n, i, lease, configHash), Passes(w, n, j, lease, configHash);
    }
  }

  predicate SignalledAt(trace: seq<Event>, i: nat, w: World, server: string, lease: Lease, configHash: string, signal: Signal) {
    i < |trace| && trace[i] == Signalled(server, lease, configHash, signal, w.signals(i))
  }

  // From the verification at n that precedes the KILL.
  ghost predicate KillDecides(
    w: World, c: Config, n: nat, server: string, lease: Lease, configHash: string, result: Status, after: seq<Event>)
  {
    && (Seen(w, n, lease, configHash) == Conflict ==> result == SConflict)
    && (Seen(w, n, lease, configHash) in {Dead, Unknown} ==> result == SError)
    && (Seen(w, n, lease, configHash) == Owned && !w.context(n + 1) ==> result == SError)
    && (OwnedAlive(w, n, lease, configHash) ==>
          && SignalledAt(after, n + 2, w, server, lease, configHash, KILL)
          && (!w.signals(n + 2) ==> result == SError)
          && (w.signals(n + 2) ==> ReleaseDecides(w, c.kill, n + 3, lease, configHash, result)))
  }

  // From the wait at n that follows the KILL.
  ghost predicate ReleaseDecides(w: World, ticks: Option<nat>, n: nat, lease: Lease, configHash: string, result: Status) {
    && (forall m: nat :: WaitGives(w, n, ticks, lease, configHash, Dead, m) ==>
          result == if Releasable(w, m, lease) then SReclaimed else SError)
    && (forall m: nat :: WaitGives(w, n, ticks, lease, configHash, Conflict, m) ==> result == SConflict)
    && (forall m: nat :: WaitGives(w, n, ticks, lease, configHash, Owned, m) ==> result == SError)
    && (forall m: nat :: WaitGives(w, n, ticks, lease, configHash, Unknown, m) ==> result == SError)
    && ((forall s, m: nat :: !WaitGives(w, n, ticks, lease, configHash, s, m)) ==> result == SError)
  }

  // From the wait at n that follows the TERM.
  ghost predicate TermDecides(
    w: World, c: Config, n: nat, server: string, lease: Lease, configHash: string, result: Status, reason: Reason, after: seq<Event>)
  {
    && (forall m: nat :: WaitGives(w, n, c.term, lease, configHash, Dead, m) ==>
          reason == NoReason && result == if Releasable(w, m, lease) then SReclaimed else SConflict)
    && (forall m: nat :: WaitGives(w, n, c.term, lease, configHash, Conflict, m) ==> result == SConflict && reason == IdentityChanged)
    && (forall m: nat :: WaitGives(w, n, c.term, lease, configHash, Unknown, m) ==> result == SConflict && reason == IdentityChanged)
    && (forall m: nat :: WaitGives(w, n, c.term, lease, configHash, Owned, m) ==>
          reason == NoReason && if w.context(m) then KillDecides(w, c, m + 1, server, lease, configHash, result, after) else result == SError)
    && ((forall s, m: nat :: !WaitGives(w, n, c.term, lease, configHash, s, m)) ==> result == SError && reason == CancelledReason)
  }

  // From the second verification at n.
  ghost predicate ReclaimDecides(
    w: World, c: Config, n: nat, server: string, lease: Lease, configHash: string, result: Status, reason: Reason, after: seq<Event>)
  {
    && (Seen(w, n, lease, configHash) == Conflict ==> result == SConflict && reason == NoReason)
    && (Seen(w, n, lease, configHash) in {Dead, Unknown} ==> result == SError && reason == NoReason)
    && (Seen(w, n, lease, configHash) == Owned && !w.context(n + 1) ==> result == SError && reason == NoReason)
    && (OwnedAlive(w, n, lease, configHash) ==>
          && SignalledAt(after, n + 2, w, server, lease, configHash, TERM)
          && (!w.signals(n + 2) ==> result == SError && reason == NoReason)
          && (w.signals(n + 2) ==> TermDecides(w, c, n + 3, server, lease, configHash, result, reason, after)))
  }

  // One listed record, the first question being asked at n: how each way out is reached.
  ghost predicate Decides(
    w: World, c: Config, n: nat, record: Listed, expected: map<string, string>, result: Result, after: seq<Event>)
  {
    && result.server == record.server
    && if record.lease.None? then result.status == SError && result.reason == NoReason
       else if record.server !in expected || !c.reader then result.status == SConflict && result.reason == NoReason
       else
         var server, lease, configHash := record.server, record.lease.value, expected[record.server];
         match Seen(w, n, lease, configHash)
         case Dead => result.reason == NoReason && result.status == if Releasable(w, n + 1, lease) then SRemovedDead else SConflict
         case Owned =>
           if !c.signaler then result.status == SUnsupported && result.reason == NoReason
           else if !w.context(n + 1) then result.status == SError && result.reason == NoReason
           else ReclaimDecides(w, c, n + 2, server, lease, configHash, result.status, result.reason, after)
         case _ => result.status == SConflict && result.reason == NoReason
  }

  // What was decided does not change when the trace goes on.
  lemma DecidedStays(
    w: World, c: Config, n: nat, record: Listed, expected: map<string, string>, result: Result, trace: seq<Event>, after: seq<Event>)
    requires Decides(w, c, n, record, expected, result, trace) && trace <= after
    ensures Decides(w, c, n, record, expected, result, after)
  {
    hide WaitGives, Seen, Releasable;
    assert forall i :: 0 <= i < |trace| ==> after[i] == trace[i];
  }

  // ----- the pieces

  method Verify(w: World, trace: seq<Event>, server: string, lease: Lease, configHash: string)
    returns (status: GroupStatus, after: seq<Event>)
    requires Safe(w, trace)
    ensures after == trace + [Verified(server, lease, configHash, status)] && Safe(w, after)
    ensures status == Seen(w, |trace|, lease, configHash)
  {
    status := VerifyGroup(Some(w.answers(|trace|)), lease, configHash);
    after := trace + [Verified(server, lease, configHash, status)];
    SafeAppend(w, trace, Verified(server, lease, configHash, status));
  }

  method ContextOK(w: World, trace: seq<Event>) returns (ok: bool, after: seq<Event>)
    requires Safe(w, trace)
    ensures after == trace + [ContextChecked(ok)] && Safe(w, after) && ok == w.context(|trace|)
  {
    ok := w.context(|trace|);
    after := trace + [ContextChecked(ok)];
    SafeAppend(w, trace, ContextChecked(ok));
  }

  // releaseIfCurrent behind the context check, after a verification that answered dead.
  method ReleaseDead(w: World, trace: seq<Event>, server: string, lease: Lease, ghost configHash: string)
    returns (ok: bool, after: seq<Event>)
    requires Safe(w, trace) && trace != [] && trace[|trace| - 1] == Verified(server, lease, configHash, Dead)
    ensures Safe(w, after) && trace <= after
    ensures ok <==> Removed(after, |trace|, server)
    ensures ok <==> Releasable(w, |trace|, lease)
    ensures forall i :: |trace| <= i < |after| ==> !after[i].Signalled?
  {
    ok, after := ContextOK(w, trace);
    if !ok {
      return;
    }
    var current := w.stored(|after|);
    ghost var checked := after;
    after := after + [ReadBack(server, current)];
    SafeAppend(w, checked, ReadBack(server, current));
    if current.Failed? || !SameLease(current.value, lease) {
      return false, after;
    }
    ok := w.releases(|after|);
    ghost var readBack := after;
    after := after + [Released(server, lease.generation, ok)];
    SafeAppend(w, readBack, Released(server, lease.generation, ok));
  }

  // The default waiter around a verification that first looks at the context. It ends with
  // the verdict the last verification gave, or cancelled; it acts on nothing, and asks no
  // more often than the timeout has ticks.
  method Wait(w: World, trace: seq<Event>, ticks: Option<nat>, server: string, lease: Lease, configHash: string)
    returns (status: GroupStatus, cancelled: bool, after: seq<Event>)
    requires Safe(w, trace)
    ensures Safe(w, after) && trace <= after && Passive(after, |trace|)
    ensures !cancelled ==> |after| > |trace|
    ensures !cancelled && status == Dead ==> after[|after| - 1] == Verified(server, lease, configHash, Dead)
    ensures cancelled ==> status == Unknown
    ensures |after| <= |trace| + (if ticks.Some? then 3 * (ticks.value + 1) else 2)
    ensures WaitAnswers(w, |trace|, ticks, lease, configHash, status, cancelled, |after|)
  {
    hide Safe, Seen;
    after := trace;
    if ticks.None? {
      status, cancelled, after := VerifyUnlessDone(w, after, server, lease, configHash);
      return;
    }
    hide WaitAnswers;
    ghost var n, turn: nat := |trace|, 0;
    var left := ticks.value;
    while true
      invariant Safe(w, after) && trace <= after && Passive(after, n)
      invariant 0 <= left <= ticks.value && turn == ticks.value - left && |after| == n + 3 * turn
      invariant forall i: nat :: i < turn ==> Passes(w, n, i, lease, configHash)
      decreases left
    {
      status, cancelled, after := VerifyUnlessDone(w, after, server, lease, configHash);
      if cancelled {
        BrokenWaitGivesNothing(w, n, ticks.value, lease, configHash, turn, |after|);
        return;
      }
      if status == Dead || status == Conflict {
        assert EndsAfter(w, n, turn, ticks.value, lease, configHash, status, |after|);
        WaitEndsOnce(w, n, ticks.value, lease, configHash, turn, status, |after|);
        return;
      }
      var choice := if left == 0 && w.choices(|after|) == Tick then Deadline else w.choices(|after|);
      ghost var before := after;
      after := after + [Selected(choice)];
      SelectionIsSafe(w, before, choice);
      match choice {
        case Cancelled =>
          BrokenWaitGivesNothing(w, n, ticks.value, lease, configHash, turn, |after|);
          return Unknown, true, after;
        case Deadline =>
          assert EndsAfter(w, n, turn, ticks.value, lease, configHash, status, |after|);
          WaitEndsOnce(w, n, ticks.value, lease, configHash, turn, status, |after|);
          return status, false, after;
        case Tick =>
          assert Passes(w, n, turn, lease, configHash);
          left, turn := left - 1, turn + 1;
      }
    }
  }

  lemma SelectionIsSafe(w: World, trace: seq<Event>, choice: Choice)
    requires Safe(w, trace)
    ensures Safe(w, trace + [Selected(choice)])
  {
    SafeAppend(w, trace, Selected(choice));
  }

  method VerifyUnlessDone(w: World, trace: seq<Event>, server: string, lease: Lease, configHash: string)
    returns (status: GroupStatus, cancelled: bool, after: seq<Event>)
    requires Safe(w, trace)
    ensures Safe(w, after) && trace <= after && Passive(after, |trace|) && |trace| < |after| <= |trace| + 2
    ensures !cancelled ==> after[|after| - 1] == Verified(server, lease, configHash, status)
    ensures cancelled ==> status == Unknown
    ensures !cancelled == w.context(|trace|)
    ensures !cancelled ==> |after| == |trace| + 2 && status == Seen(w, |trace| + 1, lease, configHash)
  {
    var ok;
    ok, after := ContextOK(w, trace);
    if !ok {
      return Unknown, true, after;
    }
    status, after := Verify(w, after, server, lease, configHash);
    cancelled := false;
  }

  predicate TermSent(trace: seq<Event>, server: string, lease: Lease, configHash: string) {
    exists j :: 0 <= j < |trace| && trace[j] == Signalled(server, lease, configHash, TERM, true)
  }

  // A signal right after an owned verification and a context that is still alive.
  method Send(w: World, trace: seq<Event>, server: string, lease: Lease, configHash: string, signal: Signal)
    returns (ok: bool, after: seq<Event>)
    requires Safe(w, trace) && |trace| >= 2
    requires trace[|trace| - 1] == ContextChecked(true) && trace[|trace| - 2] == Verified(server, lease, configHash, Owned)
    requires signal == KILL ==> TermSent(trace, server, lease, configHash)
    ensures after == trace + [Signalled(server, lease, configHash, signal, ok)] && Safe(w, after) && ok == w.signals(|trace|)
  {
    ok := w.signals(|trace|);
    after := trace + [Signalled(server, lease, configHash, signal, ok)];
    if signal == KILL {
      var j :| 0 <= j < |trace| && trace[j] == Signalled(server, lease, configHash, TERM, true);
      assert after[j] == trace[j];
    }
    SafeAppend(w, trace, Signalled(server, lease, configHash, signal, ok));
  }

  // Everything signalled since lo is of this signal and this lease, and at most once.
  predicate OnlyOnce(trace: seq<Event>, lo: nat, server: string, lease: Lease, configHash: string, signals: set<Signal>) {
    && (forall i :: lo <= i < |trace| && trace[i].Signalled? ==>
          && trace[i].signal in signals
          && trace[i].server == server && trace[i].lease == lease && trace[i].configHash == configHash)
    && (forall i, j :: lo <= i < j < |trace| && trace[i].Signalled? && trace[j].Signalled? ==> trace[i].signal != trace[j].signal)
  }

  // scrubStatus
  function Scrubbed(status: GroupStatus): Status { if status == Conflict then SConflict else SError }

  // From the verification before the KILL to the end.
  method KillAndRelease(w: World, c: Config, trace: seq<Event>, server: string, lease: Lease, configHash: string)
    returns (result: Status, after: seq<Event>)
    requires Safe(w, trace)
    requires TermSent(trace, server, lease, configHash)
    ensures Safe(w, after) && trace <= after && OnlyOnce(after, |trace|, server, lease, configHash, {KILL})
    ensures result in {SError, SConflict, SReclaimed}
    ensures result == SReclaimed <==> Removed(after, |trace|, server)
    ensures KillDecides(w, c, |trace|, server, lease, configHash, result, after)
  {
    hide Safe, TermSent, WaitGives, Seen, Releasable;
    var status, ok;
    status, after := Verify(w, trace, server, lease, configHash);
    if status != Owned {
      return Scrubbed(status), after;
    }
    ok, after := ContextOK(w, after);
    if !ok {
      return SError, after;
    }
    TermStays(trace, after, server, lease, configHash);
    ok, after := Send(w, after, server, lease, configHash, KILL);
    if !ok {
      return SError, after;
    }
    var cancelled;
    ghost var killed := after;
    status, cancelled, after := Wait(w, after, c.kill, server, lease, configHash);
    if !cancelled && status == Dead {
      ghost var waited := after;
      ok, after := ReleaseDead(w, after, server, lease, configHash);
      assert Removed(after, |waited|, server) <==> Removed(after, |trace|, server);
      if ok {
        return SReclaimed, after;
      }
    }
    return if status == Conflict then SConflict else SError, after;
  }

  lemma TermStays(trace: seq<Event>, after: seq<Event>, server: string, lease: Lease, configHash: string)
    requires trace <= after
    requires TermSent(trace, server, lease, configHash)
    ensures TermSent(after, server, lease, configHash)
  {
    var j :| 0 <= j < |trace| && trace[j] == Signalled(server, lease, configHash, TERM, true);
    assert after[j] == trace[j];
  }

  // From the wait for a delivered SIGTERM to the end.
  method AwaitTerm(w: World, c: Config, trace: seq<Event>, server: string, lease: Lease, configHash: string)
    returns (result: Status, reason: Reason, after: seq<Event>)
    requires Safe(w, trace) && TermSent(trace, server, lease, configHash)
    ensures Safe(w, after) && trace <= after && OnlyOnce(after, |trace|, server, lease, configHash, {KILL})
    ensures result in {SError, SConflict, SReclaimed}
    ensures result == SReclaimed <==> Removed(after, |trace|, server)
    ensures TermDecides(w, c, |trace|, server, lease, configHash, result, reason, after)
  {
    hide Safe, TermSent, WaitGives, KillDecides, Releasable;
    var status, cancelled, ok;
    status, cancelled, after := Wait(w, trace, c.term, server, lease, configHash);
    if cancelled {
      return SError, CancelledReason, after;
    }
    if status == Conflict || status == Unknown {
      return SConflict, IdentityChanged, after;
    }
    if status == Dead {
      ok, after := ReleaseDead(w, after, server, lease, configHash);
      return if ok then SReclaimed else SConflict, NoReason, after;
    }
    ok, after := ContextOK(w, after);
    if !ok {
      return SError, NoReason, after;
    }
    TermStays(trace, after, server, lease, configHash);
    result, after := KillAndRelease(w, c, after, server, lease, configHash);
    reason := NoReason;
  }

  // From the second verification to the end: SIGTERM, and SIGKILL if that was not enough.
  method Reclaim(w: World, c: Config, trace: seq<Event>, server: string, lease: Lease, configHash: string)
    returns (result: Status, reason: Reason, after: seq<Event>)
    requires Safe(w, trace)
    ensures Safe(w, after) && trace <= after && OnlyOnce(after, |trace|, server, lease, configHash, {TERM, KILL})
    ensures |after| > |trace| && after[|trace|].Verified?
    ensures result in {SError, SConflict, SReclaimed}
    ensures result == SReclaimed <==> Removed(after, |trace|, server)
    ensures result == SReclaimed ==> Signals(after, |trace|, TERM)
    ensures ReclaimDecides(w, c, |trace|, server, lease, configHash, result, reason, after)
  {
    hide Safe, TermDecides, Seen;
    var status, ok;
    status, after := Verify(w, trace, server, lease, configHash);
    if status != Owned {
      return Scrubbed(status), NoReason, after;
    }
    ok, after := ContextOK(w, after);
    if !ok {
      return SError, NoReason, after;
    }
    ok, after := Send(w, after, server, lease, configHash, TERM);
    if !ok {
      return SError, NoReason, after;
    }
    ghost var sent := after;
    assert sent[|sent| - 1] == Signalled(server, lease, configHash, TERM, true);
    result, reason, after := AwaitTerm(w, c, after, server, lease, configHash);
    assert after[|sent| - 1] == sent[|sent| - 1];
  }

  // After a verification at lo the first signal is at least two steps away.
  lemma SignalsComeLater(w: World, trace: seq<Event>, lo: nat)
    requires Safe(w, trace) && lo < |trace| && trace[lo].Verified?
    ensures forall i :: lo <= i < |trace| && trace[i].Signalled? ==> i >= lo + 2
  {
    forall i | lo <= i < |trace| && trace[i].Signalled? ensures i >= lo + 2 {
      assert SignalSafe(trace, i);
    }
  }

  // One listed record: about fifteen ways out, every one with a result. Nothing is signalled
  // before two verifications answered owned.
  method ReconcileRecord(w: World, c: Config, trace: seq<Event>, record: Listed, expected: map<string, string>)
    returns (result: Result, after: seq<Event>)
    requires Safe(w, trace)
    ensures Safe(w, after) && trace <= after && Decides(w, c, |trace|, record, expected, result, after)
    ensures result.status == SRemovedDead || result.status == SReclaimed <==> Removed(after, |trace|, record.server)
    ensures result.status == SReclaimed ==> Signals(after, |trace|, TERM)
    ensures result.status == SRemovedDead || result.status == SUnsupported ==> forall i :: |trace| <= i < |after| ==> !after[i].Signalled?
    ensures record.lease.None? || record.server !in expected || !c.reader ==> after == trace
    ensures !c.signaler ==> forall i :: |trace| <= i < |after| ==> !after[i].Signalled?
    ensures record.lease.Some? && record.server in expected ==>
              forall i :: |trace| <= i < |after| && after[i].Signalled? ==>
                i >= |trace| + 4 && after[|trace|] == Verified(record.server, record.lease.value, expected[record.server], Owned)
    ensures record.lease.Some? && record.server in expected ==>
              OnlyOnce(after, |trace|, record.server, record.lease.value, expected[record.server], {TERM, KILL})
  {
    after := trace;
    if record.lease.None? {
      return Result(record.server, SError, NoReason), after;
    }
    var server, lease := record.server, record.lease.value;
    if server !in expected {
      return Result(server, SConflict, NoReason), after;
    }
    var configHash := expected[server];
    if !c.reader {
      return Result(server, SConflict, NoReason), after;
    }
    var status, ok;
    status, after := Verify(w, after, server, lease, configHash);
    if status == Conflict || status == Unknown {
      return Result(server, SConflict, NoReason), after;
    }
    if status == Dead {
      ghost var verified := after;
      ok, after := ReleaseDead(w, after, server, lease, configHash);
      assert Removed(after, |verified|, server) <==> Removed(after, |trace|, server);
      return Result(server, if ok then SRemovedDead else SConflict, NoReason), after;
    }
    if !c.signaler {
      return Result(server, SUnsupported, NoReason), after;
    }
    ok, after := ContextOK(w, after);
    if !ok {
      return Result(server, SError, NoReason), after;
    }
    ghost var checked := after;
    var outcome, reason;
    outcome, reason, after := Reclaim(w, c, after, server, lease, configHash);
    assert Removed(after, |checked|, server) <==> Removed(after, |trace|, server);
    assert after[|trace|] == checked[|trace|];
    SignalsComeLater(w, after, |checked|);
    result := Result(server, outcome, reason);
  }

  // What Store.List answers; there may be no store at all.
  datatype Listing = NoStore | Unreadable | Records(records: seq<Listed>)

  // The part of the trace that belongs to record k tells its result: a lease file was removed
  // exactly if the result says so, and a reclaimed one was signalled first.
  predicate Accounted(trace: seq<Event>, lo: nat, hi: nat, result: Result) {
    && lo <= hi <= |trace|
    && (result.status == SRemovedDead || result.status == SReclaimed <==> Removed(trace[..hi], lo, result.server))
    && (result.status == SReclaimed ==> Signals(trace[..hi], lo, TERM))
  }

  lemma StaysAccounted(trace: seq<Event>, after: seq<Event>, lo: nat, hi: nat, result: Result)
    requires trace <= after && Accounted(trace, lo, hi, result)
    ensures Accounted(after, lo, hi, result)
  {
    assert after[..hi] == trace[..hi];
  }

  // Reconcile: exactly one result per listed record, in order. Whatever the outside answers,
  // every signal and every removal in the trace is safe, and `bounds` cuts the trace into the
  // parts the results account for.
  method Reconcile(w: World, c: Config, listing: Listing, expected: map<string, string>)
    returns (results: seq<Result>, trace: seq<Event>, ghost bounds: seq<nat>)
    ensures Safe(w, trace)
    ensures listing.NoStore? ==> results == [] && trace == []
    ensures listing.Unreadable? ==> results == [Result("<store>", SError, NoReason)] && trace == []
    ensures listing.Records? ==>
              && |results| == |listing.records| && |bounds| == |results| + 1
              && forall i :: 0 <= i < |results| ==>
                   && results[i].server == listing.records[i].server && Accounted(trace, bounds[i], bounds[i + 1], results[i])
                   && Decides(w, c, bounds[i], listing.records[i], expected, results[i], trace)
    ensures forall i :: 0 <= i < |trace| && trace[i].Signalled? ==> c.signaler && c.reader && trace[i].server in expected
  {
    trace, bounds := [], [0];
    if listing.NoStore? {
      return [], trace, bounds;
    }
    if listing.Unreadable? {
      return [Result("<store>", SError, NoReason)], trace, bounds;
    }
    var records := listing.records;
    results := [];
    for i := 0 to |records|
      invariant Safe(w, trace) && |results| == i && |bounds| == i + 1 && bounds[i] == |trace|
      invariant forall k :: 0 <= k < i ==>
                  && results[k].server == records[k].server && Accounted(trace, bounds[k], bounds[k + 1], results[k])
                  && Decides(w, c, bounds[k], records[k], expected, results[k], trace)
      invariant forall k :: 0 <= k < |trace| && trace[k].Signalled? ==> c.signaler && c.reader && trace[k].server in expected
    {
      hide Accounted, Safe, Decides;
      ghost var before := trace;
      var result;
      result, trace := ReconcileRecord(w, c, trace, records[i], expected);
      forall k | 0 <= k < i
        ensures Accounted(trace, bounds[k], bounds[k + 1], results[k])
        ensures Decides(w, c, bounds[k], records[k], expected, results[k], trace)
      {
        StaysAccounted(before, trace, bounds[k], bounds[k + 1], results[k]);
        DecidedStays(w, c, bounds[k], records[k], expected, results[k], before, trace);
      }
      NewlyAccounted(trace, |before|, result);
      results := results + [result];
      bounds := bounds + [|trace|];
      assert forall k :: 0 <= k < |before| ==> trace[k] == before[k];
    }
  }

  lemma NewlyAccounted(trace: seq<Event>, lo: nat, result: Result)
    requires lo <= |trace|
    requires result.status == SRemovedDead || result.status == SReclaimed <==> Removed(trace, lo, result.server)
    requires result.status == SReclaimed ==> Signals(trace, lo, TERM)
    ensures Accounted(trace, lo, |trace|, result)
  {
    assert trace[..|trace|] == trace;
  }

  // ----- what a safe trace means

  // Whoever was signalled was found to be exactly the leased group two steps earlier.
  lemma SignalledGroupIsOwned(w: World, trace: seq<Event>, i: nat)
    requires Safe(w, trace) && i < |trace| && trace[i].Signalled?
    ensures i >= 2
    ensures var a, lease := w.answers(i - 2), trace[i].lease;
            && Complete(lease) && a.boot == Ok(lease.bootID) && trace[i].configHash == lease.configHash
            && a.members.Ok? && a.members.value != []
            && (forall k :: 0 <= k < |a.members.value| ==> Proven(lease, a.members.value[k]))
  {
    assert SignalSafe(trace, i) && Honest(w, trace, i - 2);
    OwnedExactlyWhen(w.answers(i - 2), trace[i].lease, trace[i].configHash);
  }

  // Whatever lease file was removed, its group was gone when it was last looked at.
  lemma RemovedLeaseIsDead(w: World, trace: seq<Event>, i: nat)
    requires Safe(w, trace) && i < |trace| && trace[i].Released?
    ensures i >= 3 && trace[i - 3].Verified?
    ensures var a, lease := w.answers(i - 3), trace[i - 3].lease;
            && a.boot == Ok(lease.bootID) && a.leader.Failed? && a.members == Ok([])
            && trace[i - 1].ReadBack? && trace[i - 1].current.Ok? && SameLease(trace[i - 1].current.value, lease)
  {
    assert ReleaseSafe(trace, i) && Honest(w, trace, i - 3);
    DeadExactlyWhen(w.answers(i - 3), trace[i - 3].lease, trace[i - 3].configHash);
  }
}

/**
 The operator's verdict of internal/admin/lifecycle.go over the evidence store, and the skip
 decision of the deep probe in internal/reachability/probe.go.
*/
module Lifecycle {
  import opened Wrappers
  import opened Reachability

  // ----- selecting the evidence to show

  // time.Time comparison; None is the zero time, before every other.
  predicate After(a: Option<int>, b: Option<int>) { a.Some? && (b.Some? ==> a.value > b.value) }

  predicate OverThreshold(state: ReachState, e: Evidence) { state == Unreachable && e.failures >= FAILURE_THRESHOLD }

  predicate Preferred(state: ReachState, candidate: Evidence, selected: Evidence) {
    if OverThreshold(state, candidate) != OverThreshold(state, selected) then OverThreshold(state, candidate)
    else if candidate.outcomeAt != selected.outcomeAt then After(candidate.outcomeAt, selected.outcomeAt)
    else Rank(candidate.depth) > Rank(selected.depth)
  }

  // The store keys evidence by its depth.
  predicate WellKeyed(v: Value) { forall d <- v.evidence :: v.evidence[d].depth == d }

  predicate Shows(v: Value, d: Depth) { d in v.evidence && v.evidence[d].outcome != NoOutcome }

  function Pick(v: Value, selected: Option<Evidence>, d: Depth): Option<Evidence> {
    if !Shows(v, d) then selected
    else if selected.None? || Preferred(v.state, v.evidence[d], selected.value) then Some(v.evidence[d])
    else selected
  }

  // The selection for one fixed order of the depths.
  function Selected(v: Value): Option<Evidence> { Pick(v, Pick(v, Pick(v, None, Listener), Session), EndToEnd) }

  // `best` is a completed entry of one of the depths, preferred to that of every other.
  ghost predicate BestOf(v: Value, depths: set<Depth>, best: Option<Evidence>) {
    if best.None? then forall d <- depths :: !Shows(v, d)
    else
      && best.value.depth in depths && Shows(v, best.value.depth) && best.value == v.evidence[best.value.depth]
      && forall d <- depths :: Shows(v, d) && d != best.value.depth ==> Preferred(v.state, best.value, v.evidence[d])
  }

  lemma PreferenceIsTotal(state: ReachState, a: Evidence, b: Evidence)
    requires a.depth != b.depth
    ensures Preferred(state, a, b) <==> !Preferred(state, b, a)
  {
  }

  lemma PreferenceIsTransitive(state: ReachState, a: Evidence, b: Evidence, c: Evidence)
    requires Preferred(state, a, b) && Preferred(state, b, c)
    ensures Preferred(state, a, c)
  {
  }

  lemma PickKeepsBest(v: Value, depths: set<Depth>, best: Option<Evidence>, d: Depth)
    requires WellKeyed(v) && BestOf(v, depths, best) && d !in depths
    ensures BestOf(v, depths + {d}, Pick(v, best, d))
  {
    if Shows(v, d) && best.Some? {
      PreferenceIsTotal(v.state, v.evidence[d], best.value);
      if Preferred(v.state, v.evidence[d], best.value) {
        forall other <- depths | Shows(v, other) && other != best.value.depth
          ensures Preferred(v.state, v.evidence[d], v.evidence[other])
        {
          PreferenceIsTransitive(v.state, v.evidence[d], best.value, v.evidence[other]);
        }
      }
    }
  }

  lemma BestIsUnique(v: Value, depths: set<Depth>, a: Option<Evidence>, b: Option<Evidence>)
    requires WellKeyed(v) && BestOf(v, depths, a) && BestOf(v, depths, b)
    ensures a == b
  {
    if a.Some? && b.Some? && a.value.depth != b.value.depth {
      PreferenceIsTotal(v.state, a.value, b.value);
    }
  }

  lemma SelectedIsBest(v: Value)
    requires WellKeyed(v)
    ensures BestOf(v, {Listener, Session, EndToEnd}, Selected(v))
  {
    assert BestOf(v, {}, None);
    PickKeepsBest(v, {}, None, Listener);
    PickKeepsBest(v, {} + {Listener}, Pick(v, None, Listener), Session);
    PickKeepsBest(v, {} + {Listener} + {Session}, Pick(v, Pick(v, None, Listener), Session), EndToEnd);
    assert {} + {Listener} + {Session} + {EndToEnd} == {Listener, Session, EndToEnd};
  }

  // selectProbeEvidence's loop: whatever order the map is iterated in, the result is the same.
  method SelectProbeEvidence(v: Value) returns (selected: Option<Evidence>)
    requires WellKeyed(v)
    ensures selected == Selected(v)
  {
    selected := None;
    var todo := v.evidence.Keys;
    while todo != {}
      invariant todo <= v.evidence.Keys
      invariant BestOf(v, v.evidence.Keys - todo, selected)
      decreases |todo|
    {
      var d :| d in todo;
      assert v.evidence.Keys - (todo - {d}) == (v.evidence.Keys - todo) + {d};
      PickKeepsBest(v, v.evidence.Keys - todo, selected, d);
      todo := todo - {d};
      var evidence := v.evidence[d];
      if evidence.outcome != NoOutcome {
        if selected.None? || Preferred(v.state, evidence, selected.value) {
          selected := Some(evidence);
        }
      }
    }
    SelectedIsBest(v);
    AbsentDepthsDoNotMatter(v, selected);
    BestIsUnique(v, {Listener, Session, EndToEnd}, selected, Selected(v));
  }

  lemma AbsentDepthsDoNotMatter(v: Value, best: Option<Evidence>)
    requires BestOf(v, v.evidence.Keys - {}, best)
    ensures BestOf(v, {Listener, Session, EndToEnd}, best)
  {
    if best.Some? {
      assert best.value.depth in {Listener, Session, EndToEnd};
    }
  }

  // ----- the projection

  function NormalizedState(v: Value): ReachState {
    if v.state == Unset || ((v.state == Reachable || v.state == Unreachable) && v.evidence == map[]) then Unprobed else v.state
  }

  datatype Details = Details(
    reachability: ReachState, depth: Option<Depth>, at: Option<int>, outcome: Outcome, error: string, failures: nat)

  function Project(v: Value): Details {
    var s := Selected(v);
    if s.None? then Details(NormalizedState(v), None, None, NoOutcome, "", 0)
    else Details(NormalizedState(v), Some(s.value.depth), s.value.outcomeAt, s.value.outcome, s.value.error, s.value.failures)
  }

  // ----- the status

  datatype Process = PFailed | PCrashed | PStopped | PStopping | PStarting | PRunning | POther
  datatype Status = Error | Stopped | Starting | Running

  datatype Reason =
    | NoReason | Text(text: string) | OfProcess(process: Process) | AwaitingFirstProbe | NoEvidence(uptime: int)
    | ProbeFailureAt(depth: Option<Depth>) | OfBackend(backend: string)
    | UnknownReachability | UnknownBackend | UnknownProcess

  datatype EffectiveStatus = EffectiveStatus(status: Status, reason: Reason, details: Details)

  // strings.ToLower, as far as it can produce an ASCII letter.
  function LowerChar(c: char): char {
    if 'A' <= c <= 'Z' then c - 'A' + 'a' else if c == '\U{130}' then 'i' else if c == '\U{212A}' then 'k' else c
  }

  function Lower(s: string): string { seq(|s|, i requires 0 <= i < |s| => LowerChar(s[i])) }

  // A backend state is read without regard to case.
  lemma LowerExactlyWhen(s: string, word: string)
    requires forall i :: 0 <= i < |word| ==> 'a' <= word[i] <= 'z'
    ensures Lower(s) == word <==>
              && |s| == |word|
              && forall i :: 0 <= i < |s| ==>
                   || s[i] == word[i] || s[i] == word[i] - 'a' + 'A'
                   || (word[i] == 'i' && s[i] == '\U{130}') || (word[i] == 'k' && s[i] == '\U{212A}')
  {
    assert |Lower(s)| == |s|;
    if Lower(s) == word {
      forall i | 0 <= i < |s|
        ensures || s[i] == word[i] || s[i] == word[i] - 'a' + 'A'
                || (word[i] == 'i' && s[i] == '\U{130}') || (word[i] == 'k' && s[i] == '\U{212A}')
      {
        assert Lower(s)[i] == LowerChar(s[i]);
      }
    } else if |s| == |word| {
      var i :| 0 <= i < |s| && Lower(s)[i] != word[i];
      assert Lower(s)[i] == LowerChar(s[i]);
    }
  }

  function ReachabilityStatus(v: Value, details: Details, uptime: int, grace: int): (Status, Reason) {
    match NormalizedState(v)
    case Reachable => (Running, NoReason)
    case Probing => (Starting, AwaitingFirstProbe)
    case Unprobed =>
      if v.evidence == map[] && uptime > grace then (Error, NoEvidence(uptime)) else (Starting, AwaitingFirstProbe)
    case Unreachable => (Error, if details.error == "" then ProbeFailureAt(details.depth) else Text(details.error))
    case _ => (Error, UnknownReachability)
  }

  function BackendStatus(backend: string, v: Value, details: Details, probeable: bool, uptime: int, grace: int): (Status, Reason) {
    var b := Lower(backend);
    if b == "" || b == "ready" then
      if !probeable then (Running, NoReason) else ReachabilityStatus(v, details, uptime, grace)
    else if b == "starting" || b == "probing" then (Starting, AwaitingFirstProbe)
    else if b == "draining" || b == "recycling" || b == "restarting" then (Error, OfBackend(b))
    else (Error, UnknownBackend)
  }

  function DeriveEffectiveStatus(
    process: Process, backend: string, v: Value, probeable: bool, uptime: int, grace: int, rawReason: string): EffectiveStatus
  {
    var details := Project(v);
    var (status, reason) :=
      match process
      case PFailed => (Error, if rawReason == "" then OfProcess(process) else Text(rawReason))
      case PCrashed => (Error, if rawReason == "" then OfProcess(process) else Text(rawReason))
      case PStopped => (Stopped, OfProcess(process))
      case PStopping => (Stopped, OfProcess(process))
      case PStarting => (Starting, OfProcess(process))
      case PRunning => BackendStatus(backend, v, details, probeable, uptime, grace)
      case POther => (Error, UnknownProcess);
    EffectiveStatus(status, if status == Error && reason == NoReason then Text(rawReason) else reason, details)
  }

  // ----- what the verdict says about the history

  lemma {:induction false} RecordIsWellKeyed(h: seq<Event>)
    ensures WellKeyed(ValueOf(Replay(h)))
  {
    forall d <- Replay(h).evidence ensures Replay(h).evidence[d].depth == d {
      StateShowsOutcome(h, d);
    }
  }

  // projectReachability on what the store answers, which is always well keyed.
  method ProjectReachability(store: Store, name: string) returns (details: Details)
    requires store.Valid()
    ensures details == Project(ValueOf(Replay(store.History(name))))
  {
    hide Replay, StateFor, Selected;
    var value, _ := store.Get(name);
    RecordIsWellKeyed(store.History(name));
    var selected := SelectProbeEvidence(value);
    details := Details(NormalizedState(value), None, None, NoOutcome, "", 0);
    if selected.Some? {
      var evidence := selected.value;
      details := details.(depth := Some(evidence.depth), at := evidence.outcomeAt, outcome := evidence.outcome,
                          error := evidence.error, failures := evidence.failures);
    }
  }

  // Nothing was ever recorded without evidence of it.
  lemma StateHasEvidence(h: seq<Event>, d: Depth)
    requires d in Replay(h).byDepth
    ensures d in Replay(h).evidence
  {
    StateShowsOutcome(h, d);
  }

  // d is the deepest depth with a completed outcome.
  ghost predicate DeepestCompleted(h: seq<Event>, d: Depth) {
    && StateAt(Replay(h), d).Some?
    && forall e: Depth :: Rank(e) > Rank(d) ==> StateAt(Replay(h), e).None?
  }

  lemma DeepestIsDeepestCompleted(h: seq<Event>, d: Depth)
    ensures Deepest(Replay(h).byDepth) == Some(d) <==> DeepestCompleted(h, d)
  {
    hide Replay;
    assert Rank(Listener) == 1 && Rank(Session) == 2 && Rank(EndToEnd) == 3;
    assert StateAt(Replay(h), Listener).Some? <==> Listener in Replay(h).byDepth;
    assert StateAt(Replay(h), Session).Some? <==> Session in Replay(h).byDepth;
    assert StateAt(Replay(h), EndToEnd).Some? <==> EndToEnd in Replay(h).byDepth;
  }

  ghost predicate HasReachableDeepest(h: seq<Event>) {
    exists d: Depth :: DeepestCompleted(h, d) && StateAt(Replay(h), d) == Some(Reachable)
  }

  lemma ReachableExactlyWhen(h: seq<Event>)
    ensures StateFor(Replay(h)) == Reachable <==>
              && (forall d: Depth :: StateAt(Replay(h), d) != Some(Unreachable))
              && (forall d: Depth :: ProbingAt(Replay(h), d) == 0)
              && HasReachableDeepest(h)
  {
    hide Replay, DeepestCompleted;
    var r := Replay(h);
    assert AnyUnreachable(r) <==> exists d: Depth :: StateAt(r, d) == Some(Unreachable) by {
      if d: Depth :| StateAt(r, d) == Some(Unreachable) {
        assert d in r.byDepth && r.byDepth[d] == Unreachable;
      }
      if AnyUnreachable(r) {
        var d :| d in r.byDepth && r.byDepth[d] == Unreachable;
        assert StateAt(r, d) == Some(Unreachable);
      }
    }
    assert AnyProbing(r) <==> exists d: Depth :: ProbingAt(r, d) > 0 by {
      if d: Depth :| ProbingAt(r, d) > 0 {
        assert d in r.probing && r.probing[d] > 0;
      }
      if AnyProbing(r) {
        var d :| d in r.probing && r.probing[d] > 0;
        assert ProbingAt(r, d) > 0;
      }
    }
    forall d: Depth ensures Deepest(r.byDepth) == Some(d) <==> DeepestCompleted(h, d) {
      DeepestIsDeepestCompleted(h, d);
    }
    if Deepest(r.byDepth).Some? {
      var d := Deepest(r.byDepth).value;
      StateHasEvidence(h, d);
      assert StateAt(r, d) == Some(r.byDepth[d]);
    }
  }

  // A probeable server is reported running exactly when its process runs, its backend is
  // unset or ready, no depth is unreachable, no probe is outstanding, and the deepest depth
  // with a completed outcome has succeeded and not been broken since.
  lemma RunningExactlyWhen(process: Process, backend: string, h: seq<Event>, uptime: int, grace: int, rawReason: string)
    ensures DeriveEffectiveStatus(process, backend, ValueOf(Replay(h)), true, uptime, grace, rawReason).status == Running <==>
              && process == PRunning && (Lower(backend) == "" || Lower(backend) == "ready")
              && (forall d: Depth :: StateAt(Replay(h), d) != Some(Unreachable))
              && (forall d: Depth :: ProbingAt(Replay(h), d) == 0)
              && HasReachableDeepest(h)
  {
    hide Replay, StateFor, HasReachableDeepest, Selected;
    ReachableExactlyWhen(h);
    var v := ValueOf(Replay(h));
    if v.state == Reachable {
      ReachableHasEvidence(h);
    }
  }

  lemma ReachableHasEvidence(h: seq<Event>)
    requires StateFor(Replay(h)) == Reachable
    ensures Replay(h).evidence != map[]
  {
  }

  lemma AggregateIsKnown(h: seq<Event>)
    ensures StateFor(Replay(h)) in {Unprobed, Probing, Reachable, Unreachable}
    ensures StateFor(Replay(h)) == Unreachable ==> Replay(h).evidence != map[]
  {
    hide Replay;
    var r := Replay(h);
    if Deepest(r.byDepth).Some? {
      var d := Deepest(r.byDepth).value;
      StateShowsOutcome(h, d);
      assert StateAt(r, d) == Some(r.byDepth[d]);
    }
  }

  // It is an error exactly when the process failed or is unknown, or runs with a backend that
  // is neither ready nor on its way, or is ready with an unreachable depth or without any
  // evidence after the grace period; and an error always has a reason.
  lemma ErrorExactlyWhen(process: Process, backend: string, h: seq<Event>, uptime: int, grace: int, rawReason: string)
    ensures var e := DeriveEffectiveStatus(process, backend, ValueOf(Replay(h)), true, uptime, grace, rawReason);
            var b := Lower(backend);
            && (e.status == Error <==>
                  || process == PFailed || process == PCrashed || process == POther
                  || (process == PRunning &&
                      if b == "" || b == "ready"
                      then (exists d: Depth :: StateAt(Replay(h), d) == Some(Unreachable)) || (Replay(h).evidence == map[] && uptime > grace)
                      else b != "starting" && b != "probing"))
            && (e.status == Error ==> e.reason != NoReason && e.reason != Text(""))
  {
    hide Replay, StateFor, Selected;
    AggregateIsKnown(h);
    UnreachableExactlyWhen(h);
    EmptyIsUnprobed(Replay(h));
  }

  // Stopped means that the process is down or going down; starting, that the process or the
  // backend is on its way, or that the evidence neither proves nor disproves the server.
  lemma StoppedAndStartingExactlyWhen(
    process: Process, backend: string, h: seq<Event>, probeable: bool, uptime: int, grace: int, rawReason: string)
    ensures var e := DeriveEffectiveStatus(process, backend, ValueOf(Replay(h)), probeable, uptime, grace, rawReason);
            var b := Lower(backend);
            && (e.status == Stopped <==> process == PStopped || process == PStopping)
            && (e.status == Starting <==>
                  || process == PStarting
                  || (process == PRunning && (b == "starting" || b == "probing"))
                  || (process == PRunning && (b == "" || b == "ready") && probeable
                      && (forall d: Depth :: StateAt(Replay(h), d) != Some(Unreachable))
                      && !(Replay(h).evidence == map[] && uptime > grace)
                      && ((exists d: Depth :: ProbingAt(Replay(h), d) > 0) || !HasReachableDeepest(h))))
  {
    hide Replay, StateFor, Selected, HasReachableDeepest;
    AggregateIsKnown(h);
    ReachableExactlyWhen(h);
    UnreachableExactlyWhen(h);
    EmptyIsUnprobed(Replay(h));
    if StateFor(Replay(h)) == Reachable {
      ReachableHasEvidence(h);
    }
    BackendNames();
  }

  lemma BackendNames()
    ensures "ready" != "" && "starting" != "" && "probing" != "" && "ready"[0] != "starting"[0] && "ready"[0] != "probing"[0]
  {
  }

  // A server that cannot be probed is judged by its process and its backend alone.
  lemma UnprobeableExactlyWhen(process: Process, backend: string, v: Value, uptime: int, grace: int, rawReason: string)
    ensures var e := DeriveEffectiveStatus(process, backend, v, false, uptime, grace, rawReason);
            var b := Lower(backend);
            && (e.status == Running <==> process == PRunning && (b == "" || b == "ready"))
            && (e.status == Error <==>
                  || process == PFailed || process == PCrashed || process == POther
                  || (process == PRunning && b != "" && b != "ready" && b != "starting" && b != "probing"))
  {
    hide Project;
    BackendNames();
  }

  // The reason given: what was reported of a failed process, the backend's own state, or the
  // error of the evidence shown, if there is any.
  lemma ReasonIsShown(process: Process, backend: string, v: Value, probeable: bool, uptime: int, grace: int, rawReason: string)
    ensures var e := DeriveEffectiveStatus(process, backend, v, probeable, uptime, grace, rawReason);
            var b := Lower(backend);
            && e.details == Project(v)
            && (process == PFailed || process == PCrashed ==>
                  e.reason == if rawReason != "" then Text(rawReason) else OfProcess(process))
            && (process == PStarting || process == PStopping || process == PStopped ==> e.reason == OfProcess(process))
            && (process == PRunning && (b == "draining" || b == "recycling" || b == "restarting") ==> e.reason == OfBackend(b))
            && (process == PRunning && b == "ready" && probeable && v.state == Unreachable && v.evidence != map[] ==>
                  e.reason == if Project(v).error != "" then Text(Project(v).error) else ProbeFailureAt(Project(v).depth))
            && (process == PRunning && b == "ready" && probeable && v.evidence == map[] && v.state == Unprobed ==>
                  e.reason == if uptime > grace then NoEvidence(uptime) else AwaitingFirstProbe)
  {
    hide Project;
    BackendNames();
  }

  lemma EmptyIsUnprobed(r: Record)
    ensures r.evidence == map[] ==> StateFor(r) == Unprobed
  {
  }

  lemma {:induction false} ProbingHasEvidence(h: seq<Event>, d: Depth)
    ensures d in Replay(h).probing ==> d in Replay(h).evidence
    decreases |h|
  {
    if h != [] {
      ProbingHasEvidence(h[..|h| - 1], d);
      hide Apply;
      ApplyKeepsEvidence(Replay(h[..|h| - 1]), h[|h| - 1], d);
    }
  }

  lemma ApplyKeepsEvidence(r: Record, e: Event, d: Depth)
    requires d in r.probing ==> d in r.evidence
    ensures var u := Apply(r, e); d in u.probing ==> d in u.evidence
  {
    hide SafeError;
  }

  // The reachability an operator is shown: unreachable if any depth is, else probing if any
  // probe is outstanding, else what the deepest completed depth proves.
  lemma ReachabilityShownExactlyWhen(h: seq<Event>)
    ensures var shown := Project(ValueOf(Replay(h))).reachability;
            var broken := exists d: Depth :: StateAt(Replay(h), d) == Some(Unreachable);
            var probing := exists d: Depth :: ProbingAt(Replay(h), d) > 0;
            && (shown == Unreachable <==> broken)
            && (shown == Probing <==> !broken && probing)
            && (shown == Reachable <==> !broken && !probing && HasReachableDeepest(h))
            && (shown == Unprobed <==> !broken && !probing && !HasReachableDeepest(h))
  {
    hide Replay, HasReachableDeepest, Selected;
    AggregateIsKnown(h);
    UnreachableExactlyWhen(h);
    ReachableExactlyWhen(h);
    if d: Depth :| ProbingAt(Replay(h), d) > 0 {
      ProbingHasEvidence(h, d);
      assert d in Replay(h).probing && Replay(h).probing[d] > 0;
    }
    if StateFor(Replay(h)) == Reachable {
      ReachableHasEvidence(h);
    }
    if StateFor(Replay(h)) == Probing {
      ProbingIsAggregate(h);
    }
  }

  lemma ProbingIsAggregate(h: seq<Event>)
    requires StateFor(Replay(h)) == Probing
    ensures exists d: Depth :: ProbingAt(Replay(h), d) > 0
  {
    hide Replay;
    var r := Replay(h);
    if AnyProbing(r) {
      var d :| d in r.probing && r.probing[d] > 0;
      assert ProbingAt(r, d) > 0;
    } else {
      StateShowsOutcome(h, Deepest(r.byDepth).value);
    }
  }

  // ----- what is shown does not depend on attempts that proved nothing

  predicate SameProof(a: Option<Evidence>, b: Option<Evidence>) {
    a.Some? == b.Some? &&
    (a.Some? ==>
      && a.value.depth == b.value.depth && a.value.outcomeAt == b.value.outcomeAt && a.value.outcome == b.value.outcome
      && a.value.error == b.value.error && a.value.failures == b.value.failures)
  }

  lemma PickSameProof(v: Value, w: Value, a: Option<Evidence>, b: Option<Evidence>, d: Depth)
    requires SameProof(a, b) && (v.state == Unreachable <==> w.state == Unreachable)
    requires Shows(v, d) <==> Shows(w, d)
    requires Shows(v, d) ==> SameProof(Some(v.evidence[d]), Some(w.evidence[d]))
    ensures SameProof(Pick(v, a, d), Pick(w, b, d))
  {
  }

  lemma ErasureShowsTheSameDepth(h: seq<Event>, d: Depth)
    ensures var v, w := ValueOf(Replay(h)), ValueOf(Replay(Erased(h)));
            (Shows(v, d) <==> Shows(w, d)) && (Shows(v, d) ==> SameProof(Some(v.evidence[d]), Some(w.evidence[d])))
  {
    hide Replay, StateFor;
    ErasureProvesTheSame(h, d);
    StateShowsOutcome(h, d);
    StateShowsOutcome(Erased(h), d);
  }

  lemma ErasureKeepsUnreachable(h: seq<Event>)
    ensures StateFor(Replay(h)) == Unreachable <==> StateFor(Replay(Erased(h))) == Unreachable
  {
    UnreachableExactlyWhen(h);
    UnreachableExactlyWhen(Erased(h));
    forall d: Depth ensures StateAt(Replay(h), d) == StateAt(Replay(Erased(h)), d) {
      ErasureProvesTheSame(h, d);
    }
  }

  lemma UnreachableExactlyWhen(h: seq<Event>)
    ensures StateFor(Replay(h)) == Unreachable <==> exists d: Depth :: StateAt(Replay(h), d) == Some(Unreachable)
  {
    hide Replay;
    var r := Replay(h);
    if d: Depth :| StateAt(r, d) == Some(Unreachable) {
      assert d in r.byDepth && r.byDepth[d] == Unreachable;
      StateHasEvidence(h, d);
    }
    if AnyUnreachable(r) {
      var d :| d in r.byDepth && r.byDepth[d] == Unreachable;
      assert StateAt(r, d) == Some(Unreachable);
    }
    if StateFor(r) == Unreachable && Deepest(r.byDepth).Some? {
      var d := Deepest(r.byDepth).value;
      assert StateAt(r, d) == Some(r.byDepth[d]);
    }
  }

  // Everything an operator is shown about the last probe is the same whether or not starts
  // and inconclusive attempts happened.
  lemma ProjectionIgnoresIncompleteAttempts(h: seq<Event>)
    ensures var a, b := Project(ValueOf(Replay(h))), Project(ValueOf(Replay(Erased(h))));
            a.depth == b.depth && a.at == b.at && a.outcome == b.outcome && a.error == b.error && a.failures == b.failures
  {
    hide Replay, StateFor, Pick, Shows;
    var v, w := ValueOf(Replay(h)), ValueOf(Replay(Erased(h)));
    ErasureKeepsUnreachable(h);
    ErasureShowsTheSameDepth(h, Listener);
    ErasureShowsTheSameDepth(h, Session);
    ErasureShowsTheSameDepth(h, EndToEnd);
    PickSameProof(v, w, None, None, Listener);
    PickSameProof(v, w, Pick(v, None, Listener), Pick(w, None, Listener), Session);
    PickSameProof(v, w, Pick(v, Pick(v, None, Listener), Session), Pick(w, Pick(w, None, Listener), Session), EndToEnd);
  }

  // ----- what is shown, read off the history

  // A depth that has failed three times in a row is shown before any that has not, a later
  // completed outcome before an earlier one, and of two that completed together the deeper.
  predicate Deeper(d: Depth, o: Depth) { (o == Listener && d != Listener) || (o == Session && d == EndToEnd) }

  predicate ShownBefore(h: seq<Event>, d: Depth, o: Depth)
    requires LastOutcome(h, d) >= 0 && LastOutcome(h, o) >= 0
  {
    var a, b := h[LastOutcome(h, d)].at, h[LastOutcome(h, o)].at;
    if Streak(h, d) >= 3 && Streak(h, o) < 3 then true
    else if Streak(h, d) < 3 && Streak(h, o) >= 3 then false
    else a > b || (a == b && Deeper(d, o))
  }

  ghost predicate ShownFirst(h: seq<Event>, d: Depth) {
    && LastOutcome(h, d) >= 0
    && forall o: Depth :: o != d && LastOutcome(h, o) >= 0 ==> ShownBefore(h, d, o)
  }

  lemma ShownDepths(h: seq<Event>, d: Depth)
    ensures var v := ValueOf(Replay(h));
            && (Shows(v, d) <==> LastOutcome(h, d) >= 0)
            && (Shows(v, d) ==>
                  && v.evidence[d].outcomeAt == Some(h[LastOutcome(h, d)].at) && v.evidence[d].depth == d
                  && v.evidence[d].failures == Streak(h, d) && (Streak(h, d) >= 3 ==> v.state == Unreachable))
  {
    hide Replay, StateFor, FailuresAfter;
    EvidenceInClosedForm(h, d);
    StateInClosedForm(h, d, LastSuccessAt(h, d));
    StateShowsOutcome(h, d);
    UnreachableExactlyWhen(h);
  }

  lemma PreferredIsShownBefore(h: seq<Event>, d: Depth, o: Depth)
    requires d != o && LastOutcome(h, d) >= 0 && LastOutcome(h, o) >= 0
    ensures var v := ValueOf(Replay(h));
            && Shows(v, d) && Shows(v, o)
            && (Preferred(v.state, v.evidence[d], v.evidence[o]) <==> ShownBefore(h, d, o))
  {
    hide Replay, StateFor, Streak, LastOutcome;
    ShownDepths(h, d);
    ShownDepths(h, o);
  }

  // The depth an operator is shown is exactly the one that comes first in that order, with
  // the time, outcome, error and streak of its last completed outcome; nothing is shown
  // exactly if nothing was ever completed.
  lemma ProjectedExactlyWhen(h: seq<Event>, d: Depth)
    ensures var p := Project(ValueOf(Replay(h)));
            && (p.depth == Some(d) <==> ShownFirst(h, d))
            && (p.depth == Some(d) ==>
                  && p.at == Some(h[LastOutcome(h, d)].at) && p.failures == Streak(h, d)
                  && p.outcome == (if IsSuccess(h[LastOutcome(h, d)], d) then Success else Failure)
                  && p.error == (if IsSuccess(h[LastOutcome(h, d)], d) then "" else SafeError(h[LastOutcome(h, d)].error)))
            && (p.depth == None <==> forall o: Depth :: LastOutcome(h, o) < 0)
            && (p.depth == None ==> p.at == None && p.outcome == NoOutcome && p.error == "" && p.failures == 0)
  {
    hide Replay, StateFor, Streak, LastOutcome, Preferred, Selected, ShownBefore;
    var v := ValueOf(Replay(h));
    RecordIsWellKeyed(h);
    SelectedIsBest(v);
    forall o: Depth ensures Shows(v, o) <==> LastOutcome(h, o) >= 0 {
      ShownDepths(h, o);
    }
    EvidenceInClosedForm(h, d);
    ShownDepths(h, d);
    var best := Selected(v);
    if best.Some? {
      SelectionComesFirst(h, best.value.depth, d);
      assert LastOutcome(h, best.value.depth) >= 0;
    } else {
      forall o: Depth ensures !Shows(v, o) {
        assert o.Listener? || o.Session? || o.EndToEnd?;
      }
    }
  }

  lemma SelectionComesFirst(h: seq<Event>, b: Depth, d: Depth)
    requires var v := ValueOf(Replay(h));
             Shows(v, b) && v.evidence[b].depth == b && BestOf(v, {Listener, Session, EndToEnd}, Some(v.evidence[b]))
    ensures b == d <==> ShownFirst(h, d)
  {
    hide Replay, StateFor, Streak, LastOutcome, Selected, ShownBefore, Preferred;
    var v := ValueOf(Replay(h));
    forall o: Depth ensures Shows(v, o) <==> LastOutcome(h, o) >= 0 {
      ShownDepths(h, o);
    }
    forall o: Depth | o != b && LastOutcome(h, o) >= 0 ensures ShownBefore(h, b, o) {
      PreferredIsShownBefore(h, b, o);
    }
    if d != b && ShownFirst(h, d) {
      ShownBeforeIsStrict(h, b, d);
    }
  }

  lemma ShownBeforeIsStrict(h: seq<Event>, d: Depth, o: Depth)
    requires d != o && LastOutcome(h, d) >= 0 && LastOutcome(h, o) >= 0
    ensures !(ShownBefore(h, d, o) && ShownBefore(h, o, d))
  {
    hide Streak, LastOutcome;
  }

  // As long as no depth has failed three times in a row, what is shown is the latest outcome
  // completed at any depth; otherwise it is the latest of the depths that have.
  lemma LatestOutcomeIsShown(h: seq<Event>, d: Depth)
    requires LastOutcome(h, d) >= 0
    requires Streak(h, d) >= 3 || forall o: Depth :: Streak(h, o) < 3
    ensures var p := Project(ValueOf(Replay(h)));
            && p.depth.Some? && p.at.Some? && p.at.value >= h[LastOutcome(h, d)].at
            && LastOutcome(h, p.depth.value) >= 0 && p.at.value == h[LastOutcome(h, p.depth.value)].at
            && (Streak(h, d) >= 3 ==> Streak(h, p.depth.value) >= 3)
            && (p.at.value == h[LastOutcome(h, d)].at && d != p.depth.value ==> Deeper(p.depth.value, d))
  {
    hide Replay, StateFor, Streak, LastOutcome, Project;
    ProjectedExactlyWhen(h, d);
    var p := Project(ValueOf(Replay(h)));
    ProjectedExactlyWhen(h, p.depth.value);
    assert d != p.depth.value ==> ShownBefore(h, p.depth.value, d);
  }

  // ----- the deep probe

  // Fresh session evidence covers the deep depth, unless that depth failed.
  function SkipsDeepProbe(v: Value, known: bool, now: int, freshness: int): bool {
    && known && Session in v.evidence
    && v.evidence[Session].outcomeAt.Some? && now < v.evidence[Session].outcomeAt.value + freshness
    && (EndToEnd in v.evidence ==> v.evidence[EndToEnd].outcome != Failure)
  }

  // On the history: an outcome completed at the session depth is recent enough, and the last
  // outcome completed at the deep depth, if there is one, was a success.
  lemma SkippedExactlyWhen(h: seq<Event>, known: bool, now: int, freshness: int)
    ensures SkipsDeepProbe(ValueOf(Replay(h)), known, now, freshness) <==>
              && known && LastOutcome(h, Session) >= 0 && now < h[LastOutcome(h, Session)].at + freshness
              && (LastOutcome(h, EndToEnd) >= 0 ==> IsSuccess(h[LastOutcome(h, EndToEnd)], EndToEnd))
  {
    hide Replay, StateFor, LastOutcome;
    EvidenceInClosedForm(h, Session);
    EvidenceInClosedForm(h, EndToEnd);
  }

  // What can happen to a record: it is fed an event, or Store.Remove deletes it.
  datatype Change = Fed(e: Event) | Deleted

  function HistoryAfter(h: seq<Event>, changes: seq<Change>): seq<Event>
    decreases |changes|
  {
    if changes == [] then h
    else HistoryAfter(if changes[0].Fed? then h + [changes[0].e] else [], changes[1..])
  }

  predicate EndsDeepFailure(c: Change) { c.Deleted? || IsSuccess(c.e, EndToEnd) }

  // From the moment the end-to-end depth is unreachable no deep probe is skipped, however
  // fresh the session evidence is, until a deep probe succeeds or the record is deleted.
  lemma {:induction false} UnreachableDeepDepthIsProbed(h: seq<Event>, changes: seq<Change>, now: int, freshness: int)
    requires StateAt(Replay(h), EndToEnd) == Some(Unreachable)
    requires forall c <- changes :: !EndsDeepFailure(c)
    ensures !SkipsDeepProbe(ValueOf(Replay(HistoryAfter(h, changes))), true, now, freshness)
    decreases |changes|
  {
    hide Replay;
    if changes == [] {
      StateShowsOutcome(h, EndToEnd);
    } else {
      assert changes[0] in changes && forall c <- changes[1..] :: c in changes;
      OnlySuccessClears(h, changes[0].e, EndToEnd);
      UnreachableDeepDepthIsProbed(h + [changes[0].e], changes[1..], now, freshness);
    }
  }

  predicate DeepFailed(r: Record) { EndToEnd in r.evidence && r.evidence[EndToEnd].outcome == Failure }

  // Either of the two does end it: the next fresh session success covers the deep depth.
  lemma EndedDeepFailureIsCovered(h: seq<Event>, c: Change, now: int, freshness: int)
    requires EndsDeepFailure(c) && freshness > 0
    ensures var after := HistoryAfter(h, [c]) + [Probe(Session, now, Succeeded, "")];
            SkipsDeepProbe(ValueOf(Replay(after)), true, now, freshness)
  {
    hide Replay, DeepFailed;
    var kept := if c.Fed? then h + [c.e] else [];
    assert HistoryAfter(h, [c]) == HistoryAfter(kept, []) == kept;
    if c.Fed? {
      LastEvent(h, c.e);
      SuccessMendsDepth(Replay(h), c.e);
    } else {
      NothingFailed();
    }
    LastEvent(kept, Probe(Session, now, Succeeded, ""));
    FreshSessionCovers(Replay(kept), now, freshness);
  }

  lemma LastEvent(h: seq<Event>, e: Event)
    ensures Replay(h + [e]) == Apply(Replay(h), e)
  {
    assert (h + [e])[..|h|] == h;
  }

  lemma SuccessMendsDepth(r: Record, e: Event)
    requires IsSuccess(e, EndToEnd)
    ensures !DeepFailed(Apply(r, e))
  {
  }

  lemma NothingFailed()
    ensures !DeepFailed(Replay([]))
  {
  }

  lemma FreshSessionCovers(r: Record, now: int, freshness: int)
    requires !DeepFailed(r) && freshness > 0
    ensures SkipsDeepProbe(ValueOf(Apply(r, Probe(Session, now, Succeeded, ""))), true, now, freshness)
  {
    hide StateFor, Failing;
  }

  // One deep-probe opportunity: either nothing is recorded, or one start and its completion.
  method RunEndToEndProbe(store: Store, name: string, now: int, freshness: int, at: int, answer: Disposition, error: string)
    returns (probed: bool)
    requires store.Valid()
    modifies store
    ensures store.Valid()
    ensures probed == !SkipsDeepProbe(ValueOf(Replay(old(store.History(name)))), name in old(store.histories), now, freshness)
    ensures !probed ==> store.histories == old(store.histories)
    ensures probed ==>
              store.histories == old(store.histories)[name :=
                old(store.History(name)) + [Event.Start(EndToEnd, at)] + [Probe(EndToEnd, at, answer, error)]]
  {
    hide Replay, StateFor;
    var value, ok := store.Get(name);
    if ok && Session in value.evidence {
      var evidence := value.evidence[Session];
      if evidence.outcomeAt.Some? && now < evidence.outcomeAt.value + freshness {
        if EndToEnd !in value.evidence || value.evidence[EndToEnd].outcome != Failure {
          return false;
        }
      }
    }
    ghost var before := store.histories;
    var _ := store.StartProbe(name, EndToEnd, at);
    var _ := store.RecordProbe(name, EndToEnd, at, answer, error);
    ghost var h := if name in before then before[name] else [];
    assert store.histories == before[name := h + [Event.Start(EndToEnd, at)] + [Probe(EndToEnd, at, answer, error)]];
    return true;
  }
}

/**
 The evidence store of internal/reachability/reachability.go. A server's record is a function
 of the events it was fed; the lemmas say in closed form which.
*/
module Reachability {
  import opened Wrappers

  datatype Depth = Listener | Session | EndToEnd

  function Rank(d: Depth): nat {
    match d
    case Listener => 1
    case Session => 2
    case EndToEnd => 3
  }

  // `Unset` and `OtherState` stand for "" and for any further string.
  datatype ReachState = Unset | Unprobed | Probing | Reachable | Unreachable | OtherState

  datatype Outcome = NoOutcome | Success | Failure
  datatype Disposition = Succeeded | Failed | Inconclusive

  const FAILURE_THRESHOLD := 3
  const MAX_ERROR := 1024

  // What a probe of one depth last proved; `attempt` is when the last attempt ran.
  datatype Evidence = Evidence(
    depth: Depth, attempt: int, outcomeAt: Option<int>, outcome: Outcome, error: string, failures: nat)

  datatype Record = Record(evidence: map<Depth, Evidence>, byDepth: map<Depth, ReachState>, probing: map<Depth, nat>)

  datatype Event =
    | Start(depth: Depth, at: int)
    | Probe(depth: Depth, at: int, disposition: Disposition, error: string)
    | Definitive(depth: Depth, at: int, error: string)

  // ----- safeError

  predicate IsControl(c: char) { c < ' ' || '\U{7F}' <= c <= '\U{9F}' }

  predicate IsSpace(c: char) {
    || c == ' ' || c == '\U{A0}' || c == '\U{1680}' || '\U{2000}' <= c <= '\U{200A}'
    || c == '\U{2028}' || c == '\U{2029}' || c == '\U{202F}' || c == '\U{205F}' || c == '\U{3000}'
  }

  function Blanked(s: string): (r: string)
    ensures |r| == |s| && forall c <- r :: !IsControl(c)
  {
    if s == [] then [] else [if IsControl(s[0]) then ' ' else s[0]] + Blanked(s[1..])
  }

  function TrimLeft(s: string): (r: string)
    ensures |r| <= |s| && r == s[|s| - |r|..] && (r != [] ==> !IsSpace(r[0]))
  {
    if s != [] && IsSpace(s[0]) then TrimLeft(s[1..]) else s
  }

  function TrimRight(s: string): (r: string)
    ensures r <= s && (r != [] ==> !IsSpace(r[|r| - 1]))
  {
    if s != [] && IsSpace(s[|s| - 1]) then TrimRight(s[..|s| - 1]) else s
  }

  // One line of bounded length.
  function SafeError(s: string): (r: string)
    ensures |r| <= 1024 && forall c <- r :: !IsControl(c)
  {
    var trimmed := TrimRight(TrimLeft(Blanked(s)));
    if |trimmed| > MAX_ERROR then trimmed[..MAX_ERROR] else trimmed
  }

  // What survives of a text: it loses the white space and control characters at both ends
  // and whatever exceeds 1024 characters; in between each control character becomes a space.
  lemma SafeErrorKeepsTheText(s: string) returns (i: nat, j: nat)
    ensures i <= j <= |s| && |SafeError(s)| == if j - i > 1024 then 1024 else j - i
    ensures forall k :: 0 <= k < i || j <= k < |s| ==> IsSpace(s[k]) || IsControl(s[k])
    ensures i < j ==> !IsSpace(s[i]) && !IsControl(s[i]) && !IsSpace(s[j - 1]) && !IsControl(s[j - 1])
    ensures forall k :: 0 <= k < |SafeError(s)| ==> SafeError(s)[k] == if IsControl(s[i + k]) then ' ' else s[i + k]
  {
    hide Blanked, TrimLeft, TrimRight, IsSpace, SafeError;
    i, j := Trimmed(Blanked(s));
    SafeErrorCuts(s);
    forall k | 0 <= k < |s| ensures Blanked(s)[k] == if IsControl(s[k]) then ' ' else s[k] {
      BlankedAt(s, k);
    }
    BlankIsSpace();
  }

  lemma BlankIsSpace()
    ensures IsSpace(' ')
  {
  }

  lemma SafeErrorCuts(s: string)
    ensures var trimmed := TrimRight(TrimLeft(Blanked(s))); SafeError(s) == if |trimmed| > 1024 then trimmed[..1024] else trimmed
  {
  }

  lemma Trimmed(s: string) returns (i: nat, j: nat)
    ensures i <= j <= |s| && TrimRight(TrimLeft(s)) == s[i..j]
    ensures forall k :: 0 <= k < i || j <= k < |s| ==> IsSpace(s[k])
    ensures i < j ==> !IsSpace(s[i]) && !IsSpace(s[j - 1])
  {
    hide TrimLeft, TrimRight, IsSpace;
    i := TrimLeftDrops(s);
    var length := TrimRightDrops(s[i..]);
    j := i + length;
    assert s[i..][..length] == s[i..j];
    forall k | j <= k < |s| ensures IsSpace(s[k]) {
      assert s[i..][k - i] == s[k];
    }
  }

  lemma {:induction false} BlankedAt(s: string, k: nat)
    requires k < |s|
    ensures Blanked(s)[k] == if IsControl(s[k]) then ' ' else s[k]
  {
    if k > 0 {
      BlankedAt(s[1..], k - 1);
    }
  }

  lemma {:induction false} TrimLeftDrops(s: string) returns (i: nat)
    ensures i <= |s| && TrimLeft(s) == s[i..]
    ensures forall k :: 0 <= k < i ==> IsSpace(s[k])
    ensures i < |s| ==> !IsSpace(s[i])
  {
    if s != [] && IsSpace(s[0]) {
      var rest := TrimLeftDrops(s[1..]);
      i := rest + 1;
      forall k | 0 < k < i ensures IsSpace(s[k]) {
        assert s[1..][k - 1] == s[k];
      }
    } else {
      i := 0;
    }
  }

  lemma {:induction false} TrimRightDrops(s: string) returns (j: nat)
    ensures j <= |s| && TrimRight(s) == s[..j]
    ensures forall k :: j <= k < |s| ==> IsSpace(s[k])
    ensures 0 < j ==> !IsSpace(s[j - 1])
  {
    if s != [] && IsSpace(s[|s| - 1]) {
      j := TrimRightDrops(s[..|s| - 1]);
      forall k | j <= k < |s| - 1 ensures IsSpace(s[k]) {
        assert s[..|s| - 1][k] == s[k];
      }
    } else {
      j := |s|;
    }
  }

  // ----- one record

  function NoRecord(): Record { Record(map[], map[], map[]) }

  function EvidenceAt(r: Record, d: Depth): Evidence {
    if d in r.evidence then r.evidence[d] else Evidence(d, 0, None, NoOutcome, "", 0)
  }

  function ProbingAt(r: Record, d: Depth): nat { if d in r.probing then r.probing[d] else 0 }

  // Completing a probe takes back one start, if there is one.
  function Completed(r: Record, d: Depth): (c: Record)
    ensures c.evidence == r.evidence && c.byDepth == r.byDepth
  {
    r.(probing := if ProbingAt(r, d) > 0 then r.probing[d := r.probing[d] - 1] else r.probing)
  }

  function Failing(r: Record, d: Depth, at: int, error: string, definitive: bool): Record {
    var e := EvidenceAt(r, d).(depth := d, attempt := at, outcome := Failure, outcomeAt := Some(at),
                               error := SafeError(error), failures := EvidenceAt(r, d).failures + 1);
    r.(evidence := r.evidence[d := e],
       byDepth := if definitive || e.failures >= FAILURE_THRESHOLD then r.byDepth[d := Unreachable]
                  else if d !in r.byDepth then r.byDepth[d := Unprobed] else r.byDepth)
  }

  function Apply(r: Record, e: Event): Record {
    match e
    case Start(d, at) =>
      r.(probing := r.probing[d := ProbingAt(r, d) + 1],
         evidence := r.evidence[d := EvidenceAt(r, d).(depth := d, attempt := at)])
    case Probe(d, at, Inconclusive, _) =>
      Completed(r, d).(evidence := r.evidence[d := EvidenceAt(r, d).(depth := d, attempt := at)])
    case Probe(d, at, Succeeded, _) =>
      Completed(r, d).(evidence := r.evidence[d := Evidence(d, at, Some(at), Success, "", 0)],
                       byDepth := r.byDepth[d := Reachable])
    case Probe(d, at, Failed, error) => Failing(Completed(r, d), d, at, error, false)
    case Definitive(d, at, error) => Failing(Completed(r, d), d, at, error, true)
  }

  function Replay(h: seq<Event>): Record {
    if h == [] then NoRecord() else Apply(Replay(h[..|h| - 1]), h[|h| - 1])
  }

  // ----- the closed form

  predicate IsSuccess(e: Event, d: Depth) { e.Probe? && e.depth == d && e.disposition == Succeeded }

  predicate IsFailure(e: Event, d: Depth) {
    (e.Probe? && e.depth == d && e.disposition == Failed) || (e.Definitive? && e.depth == d)
  }

  // k is the index of the last success at d, or -1.
  ghost predicate LastSuccess(h: seq<Event>, d: Depth, k: int) {
    -1 <= k < |h| && (k >= 0 ==> IsSuccess(h[k], d)) && forall i :: k < i < |h| ==> !IsSuccess(h[i], d)
  }

  function FailuresAfter(h: seq<Event>, d: Depth, k: int): set<int> {
    set i | 0 <= i < |h| && k < i && IsFailure(h[i], d)
  }

  // The run of failures since the last success is long enough, or holds a definitive one.
  ghost predicate Broken(h: seq<Event>, d: Depth, k: int) {
    |FailuresAfter(h, d, k)| >= 3 || exists i :: k < i < |h| && 0 <= i && h[i].Definitive? && h[i].depth == d
  }

  function StateAt(r: Record, d: Depth): Option<ReachState> { if d in r.byDepth then Some(r.byDepth[d]) else None }

  // What one event does to depth d: nothing, unless it completes an outcome there.
  lemma ApplyAt(r: Record, e: Event, d: Depth)
    ensures var u := Apply(r, e);
            && (IsSuccess(e, d) ==> EvidenceAt(u, d).failures == 0 && StateAt(u, d) == Some(Reachable))
            && (IsFailure(e, d) ==>
                  && EvidenceAt(u, d).failures == EvidenceAt(r, d).failures + 1
                  && StateAt(u, d) == (if e.Definitive? || EvidenceAt(u, d).failures >= FAILURE_THRESHOLD then Some(Unreachable)
                                       else if StateAt(r, d).None? then Some(Unprobed) else StateAt(r, d)))
            && (!IsSuccess(e, d) && !IsFailure(e, d) ==>
                  EvidenceAt(u, d).failures == EvidenceAt(r, d).failures && StateAt(u, d) == StateAt(r, d))
  {
    hide SafeError, Failing, Completed;
    match e
    case Start(_, _) =>
    case Probe(_, _, Inconclusive, _) =>
    case Probe(_, _, Succeeded, _) =>
    case Probe(_, at, Failed, error) => FailingAt(Completed(r, e.depth), e.depth, at, error, false, d);
    case Definitive(_, at, error) => FailingAt(Completed(r, e.depth), e.depth, at, error, true, d);
  }

  lemma FailingAt(r: Record, at: Depth, time: int, error: string, definitive: bool, d: Depth)
    ensures var u := Failing(r, at, time, error, definitive);
            && (d == at ==>
                  && EvidenceAt(u, d).failures == EvidenceAt(r, d).failures + 1
                  && StateAt(u, d) == (if definitive || EvidenceAt(u, d).failures >= FAILURE_THRESHOLD then Some(Unreachable)
                                       else if StateAt(r, d).None? then Some(Unprobed) else StateAt(r, d)))
            && (d != at ==> EvidenceAt(u, d) == EvidenceAt(r, d) && StateAt(u, d) == StateAt(r, d))
  {
    hide SafeError;
  }

  // The streak is the number of failures since the last success, and the depth is
  // unreachable exactly when that run is broken; otherwise reachable if it ever succeeded,
  // unprobed if it only ever failed, and unknown if nothing completed.
  lemma {:induction false} StateInClosedForm(h: seq<Event>, d: Depth, k: int)
    requires LastSuccess(h, d, k)
    ensures EvidenceAt(Replay(h), d).failures == |FailuresAfter(h, d, k)|
    ensures StateAt(Replay(h), d) == if Broken(h, d, k) then Some(Unreachable)
                                     else if k >= 0 then Some(Reachable)
                                     else if FailuresAfter(h, d, k) != {} then Some(Unprobed) else None
    decreases |h|
  {
    hide Apply, Broken, StateAt, EvidenceAt, FailuresAfter;
    if h == [] {
      EmptyHistory(d);
    } else {
      var prefix, e := h[..|h| - 1], h[|h| - 1];
      ApplyAt(Replay(prefix), e, d);
      if IsSuccess(e, d) {
        JustSucceeded(h, d, k);
      } else {
        StateInClosedForm(prefix, d, k);
        FailuresGrow(h, d, k);
        BrokenGrows(h, d, k);
        BrokenIsFailure(prefix, d, k);
      }
    }
  }

  function LastSuccessAt(h: seq<Event>, d: Depth): (k: int)
    ensures LastSuccess(h, d, k)
  {
    if h == [] then -1
    else if IsSuccess(h[|h| - 1], d) then |h| - 1
    else LastSuccessAt(h[..|h| - 1], d)
  }

  // How often a depth has failed since it last succeeded.
  function Streak(h: seq<Event>, d: Depth): nat { |FailuresAfter(h, d, LastSuccessAt(h, d))| }

  // The index of the last event that completed an outcome at d, or -1.
  function LastOutcome(h: seq<Event>, d: Depth): (k: int)
    ensures -1 <= k < |h| && (k >= 0 ==> IsSuccess(h[k], d) || IsFailure(h[k], d))
    ensures forall i :: k < i < |h| ==> !IsSuccess(h[i], d) && !IsFailure(h[i], d)
  {
    if h == [] then -1
    else if IsSuccess(h[|h| - 1], d) || IsFailure(h[|h| - 1], d) then |h| - 1
    else LastOutcome(h[..|h| - 1], d)
  }

  // What the record keeps of a depth is its last completed outcome: when it was, whether it
  // was a success, and what error it reported.
  lemma {:induction false} EvidenceInClosedForm(h: seq<Event>, d: Depth)
    ensures var k, e := LastOutcome(h, d), EvidenceAt(Replay(h), d);
            if k < 0 then e.outcome == NoOutcome && e.outcomeAt == None && e.error == ""
            else
              && e.outcomeAt == Some(h[k].at)
              && e.outcome == (if IsSuccess(h[k], d) then Success else Failure)
              && e.error == (if IsSuccess(h[k], d) then "" else SafeError(h[k].error))
    decreases |h|
  {
    hide Apply;
    if h != [] {
      EvidenceInClosedForm(h[..|h| - 1], d);
      ApplyOutcome(Replay(h[..|h| - 1]), h[|h| - 1], d);
    }
  }

  lemma EmptyHistory(d: Depth)
    ensures FailuresAfter([], d, -1) == {} && !Broken([], d, -1)
    ensures EvidenceAt(Replay([]), d).failures == 0 && StateAt(Replay([]), d) == None
  {
    assert FailuresAfter([], d, -1) == {};
  }

  lemma JustSucceeded(h: seq<Event>, d: Depth, k: int)
    requires LastSuccess(h, d, k) && h != [] && IsSuccess(h[|h| - 1], d)
    ensures k == |h| - 1 && FailuresAfter(h, d, k) == {} && !Broken(h, d, k)
  {
    assert FailuresAfter(h, d, k) == {};
  }

  lemma BrokenIsFailure(h: seq<Event>, d: Depth, k: int)
    requires -1 <= k < |h|
    ensures Broken(h, d, k) ==> FailuresAfter(h, d, k) != {}
  {
    if exists i :: k < i < |h| && 0 <= i && h[i].Definitive? && h[i].depth == d {
      var i :| k < i < |h| && 0 <= i && h[i].Definitive? && h[i].depth == d;
      assert i in FailuresAfter(h, d, k);
    }
  }

  lemma FailuresGrow(h: seq<Event>, d: Depth, k: int)
    requires h != [] && -1 <= k < |h| - 1
    ensures var before := FailuresAfter(h[..|h| - 1], d, k);
            && |h| - 1 !in before
            && FailuresAfter(h, d, k) == (if IsFailure(h[|h| - 1], d) then before + {|h| - 1} else before)
  {
  }

  lemma BrokenGrows(h: seq<Event>, d: Depth, k: int)
    requires h != [] && -1 <= k < |h| - 1
    ensures var e := h[|h| - 1];
            Broken(h, d, k) <==>
              || Broken(h[..|h| - 1], d, k)
              || (IsFailure(e, d) && (|FailuresAfter(h, d, k)| >= 3 || e.Definitive?))
  {
    var prefix := h[..|h| - 1];
    FailuresGrow(h, d, k);
    DefinitiveGrows(h, d, k);
  }

  lemma DefinitiveGrows(h: seq<Event>, d: Depth, k: int)
    requires h != [] && -1 <= k < |h| - 1
    ensures var e, prefix := h[|h| - 1], h[..|h| - 1];
            (exists i :: k < i < |h| && 0 <= i && h[i].Definitive? && h[i].depth == d) <==>
              || (exists i :: k < i < |prefix| && 0 <= i && prefix[i].Definitive? && prefix[i].depth == d)
              || (e.Definitive? && e.depth == d)
  {
    var prefix := h[..|h| - 1];
    if exists i :: k < i < |prefix| && 0 <= i && prefix[i].Definitive? && prefix[i].depth == d {
      var i :| k < i < |prefix| && 0 <= i && prefix[i].Definitive? && prefix[i].depth == d;
      assert h[i].Definitive? && h[i].depth == d;
    }
    if exists i :: k < i < |h| && 0 <= i && h[i].Definitive? && h[i].depth == d {
      var i :| k < i < |h| && 0 <= i && h[i].Definitive? && h[i].depth == d;
      if i < |prefix| {
        assert prefix[i].Definitive? && prefix[i].depth == d;
      }
    }
  }

  // What an event adds to the probes outstanding at d.
  function Net(e: Event, d: Depth): int {
    if e.depth != d then 0 else if e.Start? then 1 else -1
  }

  // Starts minus completions at d from event k on.
  function Balance(h: seq<Event>, d: Depth, k: nat): int {
    if |h| <= k then 0 else Balance(h[..|h| - 1], d, k) + Net(h[|h| - 1], d)
  }

  lemma ApplyNet(r: Record, e: Event, d: Depth)
    ensures var n := ProbingAt(r, d) + Net(e, d); ProbingAt(Apply(r, e), d) == if n < 0 then 0 else n
  {
    hide SafeError;
  }

  // The probes outstanding at a depth are the largest surplus of starts over completions in
  // any final stretch of the history: a completion without a start takes nothing back.
  lemma {:induction false} OutstandingInClosedForm(h: seq<Event>, d: Depth) returns (best: nat)
    ensures best <= |h| && ProbingAt(Replay(h), d) == Balance(h, d, best)
    ensures forall k: nat :: k <= |h| ==> Balance(h, d, k) <= ProbingAt(Replay(h), d)
    decreases |h|
  {
    hide Apply;
    if h == [] {
      best := 0;
    } else {
      var prefix, e := h[..|h| - 1], h[|h| - 1];
      best := OutstandingInClosedForm(prefix, d);
      ApplyNet(Replay(prefix), e, d);
      if ProbingAt(Replay(prefix), d) + Net(e, d) < 0 {
        best := |h|;
      }
      forall k: nat | k <= |h| ensures Balance(h, d, k) <= ProbingAt(Replay(h), d) {
        if k < |h| {
          assert Balance(prefix, d, k) <= ProbingAt(Replay(prefix), d);
        }
      }
    }
  }

  // ----- what does not count, and what clears a failure

  predicate Completes(e: Event) { e.Definitive? || (e.Probe? && e.disposition != Inconclusive) }

  // The history without starts and inconclusive attempts.
  function Erased(h: seq<Event>): seq<Event> {
    if h == [] then []
    else Erased(h[..|h| - 1]) + if Completes(h[|h| - 1]) then [h[|h| - 1]] else []
  }

  // What was ever proved at a depth; the time of the last attempt is not part of it.
  datatype Proved = Proved(outcomeAt: Option<int>, outcome: Outcome, error: string, failures: nat)

  function ProvedAt(r: Record, d: Depth): Proved {
    var e := EvidenceAt(r, d);
    Proved(e.outcomeAt, e.outcome, e.error, e.failures)
  }

  lemma ApplyProves(r: Record, u: Record, e: Event, d: Depth)
    requires ProvedAt(r, d) == ProvedAt(u, d) && StateAt(r, d) == StateAt(u, d)
    ensures ProvedAt(Apply(r, e), d) == ProvedAt(Apply(u, e), d) && StateAt(Apply(r, e), d) == StateAt(Apply(u, e), d)
  {
    hide SafeError, Completed, Failing, ProvedAt, StateAt;
    if !Completes(e) {
      IncompleteProvesNothing(r, e, d);
      IncompleteProvesNothing(u, e, d);
    } else if e.Definitive? {
      CompletedProves(r, u, e.depth, d);
      FailingProves(Completed(r, e.depth), Completed(u, e.depth), e.depth, e.at, e.error, true, d);
    } else if e.disposition == Failed {
      CompletedProves(r, u, e.depth, d);
      FailingProves(Completed(r, e.depth), Completed(u, e.depth), e.depth, e.at, e.error, false, d);
    } else {
      SuccessProves(r, e, d);
      SuccessProves(u, e, d);
    }
  }

  lemma CompletedProves(r: Record, u: Record, at: Depth, d: Depth)
    requires ProvedAt(r, d) == ProvedAt(u, d) && StateAt(r, d) == StateAt(u, d)
    ensures ProvedAt(Completed(r, at), d) == ProvedAt(Completed(u, at), d) && StateAt(Completed(r, at), d) == StateAt(Completed(u, at), d)
  {
    hide Completed;
  }

  lemma SuccessProves(r: Record, e: Event, d: Depth)
    requires e.Probe? && e.disposition == Succeeded
    ensures ProvedAt(Apply(r, e), d) == if d == e.depth then Proved(Some(e.at), Success, "", 0) else ProvedAt(r, d)
    ensures StateAt(Apply(r, e), d) == if d == e.depth then Some(Reachable) else StateAt(r, d)
  {
    hide SafeError, Completed;
  }

  lemma FailingProves(r: Record, u: Record, at: Depth, time: int, error: string, definitive: bool, d: Depth)
    requires ProvedAt(r, d) == ProvedAt(u, d) && StateAt(r, d) == StateAt(u, d)
    ensures var v, w := Failing(r, at, time, error, definitive), Failing(u, at, time, error, definitive);
            ProvedAt(v, d) == ProvedAt(w, d) && StateAt(v, d) == StateAt(w, d)
  {
    hide SafeError;
  }

  lemma IncompleteProvesNothing(r: Record, e: Event, d: Depth)
    requires !Completes(e)
    ensures ProvedAt(Apply(r, e), d) == ProvedAt(r, d) && StateAt(Apply(r, e), d) == StateAt(r, d)
  {
    hide SafeError, Completed;
  }

  // Starts and inconclusive attempts leave no trace in what was proved and in the state of
  // any depth.
  lemma {:induction false} ErasureProvesTheSame(h: seq<Event>, d: Depth)
    ensures ProvedAt(Replay(h), d) == ProvedAt(Replay(Erased(h)), d)
    ensures StateAt(Replay(h), d) == StateAt(Replay(Erased(h)), d)
    decreases |h|
  {
    hide Apply, ProvedAt, StateAt;
    if h != [] {
      var prefix, e := h[..|h| - 1], h[|h| - 1];
      ErasureProvesTheSame(prefix, d);
      if Completes(e) {
        ApplyProves(Replay(prefix), Replay(Erased(prefix)), e, d);
        assert Erased(h)[..|Erased(h)| - 1] == Erased(prefix);
      } else {
        IncompleteProvesNothing(Replay(prefix), e, d);
        assert Erased(h) == Erased(prefix);
      }
    }
  }

  // An unreachable depth becomes anything else only by a success at that depth.
  lemma OnlySuccessClears(h: seq<Event>, e: Event, d: Depth)
    requires StateAt(Replay(h), d) == Some(Unreachable)
    ensures StateAt(Replay(h + [e]), d) == if IsSuccess(e, d) then Some(Reachable) else Some(Unreachable)
  {
    hide Apply;
    assert (h + [e])[..|h|] == h;
    ApplyAt(Replay(h), e, d);
  }

  // What the last completed outcome of a depth was.
  lemma {:induction false} StateShowsOutcome(h: seq<Event>, d: Depth)
    ensures StateAt(Replay(h), d) == Some(Unreachable) || StateAt(Replay(h), d) == Some(Unprobed) ==>
              EvidenceAt(Replay(h), d).outcome == Failure
    ensures StateAt(Replay(h), d) == None <==> EvidenceAt(Replay(h), d).outcome == NoOutcome
    ensures StateAt(Replay(h), d) in {None, Some(Unreachable), Some(Unprobed), Some(Reachable)}
    ensures EvidenceAt(Replay(h), d).outcome == NoOutcome <==> EvidenceAt(Replay(h), d).outcomeAt.None?
    ensures EvidenceAt(Replay(h), d).depth == d
    decreases |h|
  {
    hide Apply;
    if h != [] {
      StateShowsOutcome(h[..|h| - 1], d);
      ApplyAt(Replay(h[..|h| - 1]), h[|h| - 1], d);
      ApplyOutcome(Replay(h[..|h| - 1]), h[|h| - 1], d);
    }
  }

  lemma ApplyOutcome(r: Record, e: Event, d: Depth)
    ensures var v, w := EvidenceAt(r, d), EvidenceAt(Apply(r, e), d);
            && (v.depth == d ==> w.depth == d)
            && (IsSuccess(e, d) ==> w.outcome == Success && w.outcomeAt == Some(e.at) && w.error == "")
            && (IsFailure(e, d) ==> w.outcome == Failure && w.outcomeAt == Some(e.at) && w.error == SafeError(e.error))
            && (!IsSuccess(e, d) && !IsFailure(e, d) ==> w.outcome == v.outcome && w.outcomeAt == v.outcomeAt && w.error == v.error)
  {
    hide SafeError, Completed;
  }

  // ----- the aggregate

  function Deepest(byDepth: map<Depth, ReachState>): Option<Depth> {
    if EndToEnd in byDepth then Some(EndToEnd)
    else if Session in byDepth then Some(Session)
    else if Listener in byDepth then Some(Listener)
    else None
  }

  predicate AnyUnreachable(r: Record) { exists d <- r.byDepth :: r.byDepth[d] == Unreachable }

  predicate AnyProbing(r: Record) { exists d <- r.probing :: r.probing[d] > 0 }

  // Any unreachable depth wins, then any probe under way, then the deepest completed depth.
  function StateFor(r: Record): ReachState {
    if r.evidence == map[] then Unprobed
    else if AnyUnreachable(r) then Unreachable
    else if AnyProbing(r) then Probing
    else if Deepest(r.byDepth).None? then Unprobed
    else r.byDepth[Deepest(r.byDepth).value]
  }

  // stateFor: three loops, each over a map in whatever order it is iterated.
  method Aggregate(r: Record) returns (state: ReachState)
    ensures state == StateFor(r)
  {
    if r.evidence == map[] {
      return Unprobed;
    }
    var broken := HasUnreachable(r);
    if broken {
      return Unreachable;
    }
    var probing := HasProbing(r);
    if probing {
      return Probing;
    }
    var deepest := FindDeepest(r.byDepth);
    if deepest.None? {
      return Unprobed;
    }
    return r.byDepth[deepest.value];
  }

  method HasUnreachable(r: Record) returns (found: bool)
    ensures found <==> AnyUnreachable(r)
  {
    var depths := r.byDepth.Keys;
    while depths != {}
      invariant depths <= r.byDepth.Keys
      invariant forall d <- r.byDepth :: d !in depths ==> r.byDepth[d] != Unreachable
      decreases |depths|
    {
      var d :| d in depths;
      depths := depths - {d};
      if r.byDepth[d] == Unreachable {
        return true;
      }
    }
    return false;
  }

  method HasProbing(r: Record) returns (found: bool)
    ensures found <==> AnyProbing(r)
  {
    var depths := r.probing.Keys;
    while depths != {}
      invariant depths <= r.probing.Keys
      invariant forall d <- r.probing :: d !in depths ==> r.probing[d] == 0
      decreases |depths|
    {
      var d :| d in depths;
      depths := depths - {d};
      if r.probing[d] > 0 {
        return true;
      }
    }
    return false;
  }

  method FindDeepest(byDepth: map<Depth, ReachState>) returns (deepest: Option<Depth>)
    ensures deepest == Deepest(byDepth)
  {
    deepest := None;
    var depths := byDepth.Keys;
    while depths != {}
      invariant depths <= byDepth.Keys
      invariant deepest.Some? ==> deepest.value in byDepth
      invariant forall d <- byDepth :: d !in depths ==> deepest.Some? && Rank(d) <= Rank(deepest.value)
      decreases |depths|
    {
      var d :| d in depths;
      depths := depths - {d};
      if deepest.None? || Rank(d) > Rank(deepest.value) {
        deepest := Some(d);
      }
    }
  }

  // ----- the store

  // The value handed out: the aggregate state and a copy of the evidence.
  datatype Value = Value(state: ReachState, evidence: map<Depth, Evidence>)

  function ValueOf(r: Record): Value { Value(StateFor(r), r.evidence) }

  class Store {
    var servers: map<string, Record>
    ghost var histories: map<string, seq<Event>>

    // Every record is the replay of what its server was fed since it was last removed.
    ghost predicate Valid()
      reads this
    {
      servers.Keys == histories.Keys && forall name <- servers :: servers[name] == Replay(histories[name])
    }

    ghost function History(name: string): seq<Event>
      reads this
    {
      if name in histories then histories[name] else []
    }

    constructor ()
      ensures Valid() && servers == map[]
    {
      servers, histories := map[], map[];
    }

    method EnsureRecord(name: string) returns (r: Record)
      ensures r == if name in servers then servers[name] else NoRecord()
    {
      if name in servers {
        return servers[name];
      }
      return NoRecord();
    }

    method Put(name: string, r: Record, ghost h: seq<Event>) returns (v: Value)
      requires Valid() && r == Replay(h)
      modifies this
      ensures Valid() && histories == old(histories)[name := h] && v == ValueOf(r)
    {
      hide Replay, StateFor;
      servers, histories := servers[name := r], histories[name := h];
      var state := Aggregate(r);
      return Value(state, r.evidence);
    }

    method StartProbe(name: string, d: Depth, at: int) returns (v: Value)
      requires Valid()
      modifies this
      ensures Valid() && histories == old(histories)[name := old(History(name)) + [Start(d, at)]]
      ensures v == ValueOf(Replay(histories[name]))
    {
      hide Apply, StateFor;
      var r := EnsureRecord(name);
      ghost var h := History(name) + [Start(d, at)];
      assert h[..|h| - 1] == History(name);
      r := StartedRecord(r, d, at);
      assert r == Replay(h);
      v := Put(name, r, h);
    }

    method RecordProbe(name: string, d: Depth, at: int, disposition: Disposition, error: string) returns (v: Value)
      requires Valid()
      modifies this
      ensures Valid() && histories == old(histories)[name := old(History(name)) + [Probe(d, at, disposition, error)]]
      ensures v == ValueOf(Replay(histories[name]))
    {
      hide Apply, StateFor;
      var r := EnsureRecord(name);
      ghost var h := History(name) + [Probe(d, at, disposition, error)];
      assert h[..|h| - 1] == History(name);
      r := ProbedRecord(r, d, at, disposition, error);
      assert r == Replay(h);
      v := Put(name, r, h);
    }

    method RecordDefinitiveFailure(name: string, d: Depth, at: int, cause: string) returns (v: Value)
      requires Valid()
      modifies this
      ensures Valid() && histories == old(histories)[name := old(History(name)) + [Definitive(d, at, cause)]]
      ensures v == ValueOf(Replay(histories[name])) && v.state == Unreachable
    {
      hide Apply, StateFor;
      var r := EnsureRecord(name);
      ghost var h := History(name) + [Definitive(d, at, cause)];
      assert h[..|h| - 1] == History(name);
      r := DefinitiveRecord(r, d, at, cause);
      assert r == Replay(h);
      v := Put(name, r, h);
    }

    method Get(name: string) returns (v: Value, ok: bool)
      requires Valid()
      ensures ok <==> name in histories
      ensures v == ValueOf(Replay(History(name)))
    {
      if name !in servers {
        return Value(Unprobed, map[]), false;
      }
      var state := Aggregate(servers[name]);
      return Value(state, servers[name].evidence), true;
    }

    method Remove(name: string)
      requires Valid()
      modifies this
      ensures Valid() && histories == old(histories) - {name}
    {
      servers, histories := servers - {name}, histories - {name};
    }
  }

  method FailedRecord(r: Record, d: Depth, at: int, error: string, definitive: bool) returns (u: Record)
    ensures u == Failing(r, d, at, error, definitive)
  {
    hide SafeError;
    var evidence := EvidenceAt(r, d).(depth := d, attempt := at, outcome := Failure, outcomeAt := Some(at));
    evidence := evidence.(error := SafeError(error), failures := evidence.failures + 1);
    u := r;
    if definitive || evidence.failures >= FAILURE_THRESHOLD {
      u := u.(byDepth := u.byDepth[d := Unreachable]);
    } else if d !in u.byDepth {
      u := u.(byDepth := u.byDepth[d := Unprobed]);
    }
    u := u.(evidence := u.evidence[d := evidence]);
  }

  method StartedRecord(r: Record, d: Depth, at: int) returns (u: Record)
    ensures u == Apply(r, Start(d, at))
  {
    hide SafeError;
    var evidence := EvidenceAt(r, d);
    u := r.(probing := r.probing[d := ProbingAt(r, d) + 1]);
    u := u.(evidence := u.evidence[d := evidence.(depth := d, attempt := at)]);
  }

  method DefinitiveRecord(r: Record, d: Depth, at: int, cause: string) returns (u: Record)
    ensures u == Apply(r, Definitive(d, at, cause)) && StateFor(u) == Unreachable
  {
    hide SafeError;
    u := FailedRecord(Completed(r, d), d, at, cause, definitive := true);
    assert d in u.evidence && d in u.byDepth && u.byDepth[d] == Unreachable;
  }

  method ProbedRecord(r: Record, d: Depth, at: int, disposition: Disposition, error: string) returns (u: Record)
    ensures u == Apply(r, Probe(d, at, disposition, error))
  {
    hide SafeError, Failing;
    u := Completed(r, d);
    var evidence := EvidenceAt(u, d).(depth := d, attempt := at);
    match disposition
    case Inconclusive =>
      u := u.(evidence := u.evidence[d := evidence]);
    case Succeeded =>
      evidence := evidence.(outcome := Success, outcomeAt := Some(at), error := "", failures := 0);
      u := u.(byDepth := u.byDepth[d := Reachable], evidence := u.evidence[d := evidence]);
    case Failed =>
      u := FailedRecord(u, d, at, error, definitive := false);
  }
}

/**
 BackendCoordinator (internal/supervisor/backend.go): application requests against a drain.
 One action is one section under mu, or one answer of what DrainAndRecycle waits for.
 Channels are numbered in the order they are made.
*/
module Backend {

  datatype BackendState = Starting | Probing | Ready | Draining | Recycling | Restarting

  // DrainAndRecycle's goroutine inside recycleMu.
  datatype Drain = NoDrain | Waiting(ch: nat) | Woken | RunsRecycle

  // `closings` counts the close calls on each channel, `guards` the completion guards not yet
  // run; `readied` says whether MarkReady was called since the drain began.
  datatype State = State(
    state: BackendState, inFlight: nat, zeroCh: nat,
    closings: multiset<nat>, nextCh: nat, guards: nat, drain: Drain, readied: bool)

  function Init(): State { State(Starting, 0, 0, multiset{0}, 1, 0, NoDrain, false) }

  function Mark(s: State, to: BackendState): State { s.(state := to, readied := s.readied || to == Ready) }

  predicate Admits(s: State) { s.state == Ready }

  function Begin(s: State): State {
    if !Admits(s) then s
    else if s.inFlight == 0
    then s.(inFlight := 1, guards := s.guards + 1, zeroCh := s.nextCh, nextCh := s.nextCh + 1)
    else s.(inFlight := s.inFlight + 1, guards := s.guards + 1)
  }

  // The first call of a completion guard.
  function Complete(s: State): State {
    if s.guards == 0 then s
    else if s.inFlight == 0 then s.(guards := s.guards - 1)
    else if s.inFlight == 1
    then s.(inFlight := 0, guards := s.guards - 1, closings := s.closings + multiset{s.zeroCh})
    else s.(inFlight := s.inFlight - 1, guards := s.guards - 1)
  }

  function DrainBegin(s: State): State {
    if !s.drain.NoDrain? || s.state != Ready then s
    else s.(state := Draining, drain := Waiting(s.zeroCh), readied := false)
  }

  function DrainCancelled(s: State): State {
    if !s.drain.Waiting? then s else s.(state := Restarting, drain := NoDrain)
  }

  predicate Closed(s: State, ch: nat) { s.closings[ch] > 0 }

  function DrainWoken(s: State): State {
    if !s.drain.Waiting? || !Closed(s, s.drain.ch) then s else s.(drain := Woken)
  }

  function DrainRecycles(s: State): State {
    if !s.drain.Woken? then s else s.(state := Recycling, drain := RunsRecycle)
  }

  function DrainEnds(s: State, ok: bool): State {
    if !s.drain.RunsRecycle? then s else s.(state := if ok then Probing else Restarting, drain := NoDrain)
  }

  datatype Action =
    | AMarkProbing | AMarkReady | AMarkProcessLost | ABegin | AComplete
    | ADrainBegin | ADrainCancelled | ADrainWoken | ADrainRecycles | ADrainEnds(ok: bool)

  function Step(s: State, a: Action): State {
    match a
    case AMarkProbing => Mark(s, Probing)
    case AMarkReady => Mark(s, Ready)
    case AMarkProcessLost => Mark(s, Restarting)
    case ABegin => Begin(s)
    case AComplete => Complete(s)
    case ADrainBegin => DrainBegin(s)
    case ADrainCancelled => DrainCancelled(s)
    case ADrainWoken => DrainWoken(s)
    case ADrainRecycles => DrainRecycles(s)
    case ADrainEnds(ok) => DrainEnds(s, ok)
  }

  function Run(s: State, run: seq<Action>): State
    decreases |run|
  {
    if run == [] then s else Run(Step(s, run[0]), run[1..])
  }

  ghost predicate Inv(s: State) {
    && s.inFlight == s.guards
    && (Closed(s, s.zeroCh) <==> s.inFlight == 0)
    && (forall ch <- s.closings :: s.closings[ch] == 1 && ch < s.nextCh)
    && s.zeroCh < s.nextCh
    && (s.drain.Waiting? ==> s.drain.ch < s.nextCh)
    && (s.drain.Waiting? && s.drain.ch != s.zeroCh ==> Closed(s, s.drain.ch))
    && (!s.drain.NoDrain? && !s.readied ==> !Admits(s))
    && (s.drain.Waiting? && !s.readied ==> s.drain.ch == s.zeroCh)
    && ((s.drain.Woken? || s.drain.RunsRecycle?) && !s.readied ==> s.inFlight == 0)
  }

  lemma StepKeeps(s: State, a: Action)
    requires Inv(s)
    ensures Inv(Step(s, a))
  {
  }

  lemma {:induction false} RunKeeps(s: State, run: seq<Action>)
    requires Inv(s)
    ensures Inv(Run(s, run))
    decreases |run|
  {
    if run != [] {
      StepKeeps(s, run[0]);
      RunKeeps(Step(s, run[0]), run[1..]);
    }
  }

  // The current zero channel is closed exactly while nothing is in flight, and no channel is
  // ever closed twice (Go would panic).
  lemma ZeroChannelFollowsInFlight(run: seq<Action>)
    ensures var s := Run(Init(), run);
            && (Closed(s, s.zeroCh) <==> s.inFlight == 0)
            && (forall ch :: s.closings[ch] <= 1)
            && s.inFlight == s.guards
  {
    RunKeeps(Init(), run);
    forall ch ensures Run(Init(), run).closings[ch] <= 1 {
      assert ch in Run(Init(), run).closings || Run(Init(), run).closings[ch] == 0;
    }
  }

  // From the moment a drain begins, as long as nobody calls MarkReady, no request is
  // admitted, and recycle runs with nothing in flight.
  lemma DrainedBackendIsQuiet(run: seq<Action>)
    requires !Run(Init(), run).drain.NoDrain? && !Run(Init(), run).readied
    ensures var s := Run(Init(), run);
            && Begin(s) == s
            && (s.drain.Woken? || s.drain.RunsRecycle? ==> s.inFlight == 0)
            && (s.drain.Waiting? ==> (Closed(s, s.drain.ch) <==> s.inFlight == 0))
  {
    RunKeeps(Init(), run);
  }

  lemma {:induction false} RunConcat(s: State, first: seq<Action>, second: seq<Action>)
    ensures Run(s, first + second) == Run(Run(s, first), second)
    decreases |first|
  {
    if first == [] {
      assert first + second == second;
    } else {
      assert (first + second)[1..] == first[1..] + second;
      RunConcat(Step(s, first[0]), first[1..], second);
    }
  }

  lemma {:induction false} EverybodyCompletes(s: State) returns (run: seq<Action>)
    requires Inv(s) && s.readied && Admits(s) && s.drain.Waiting?
    ensures var t := Run(s, run);
            Inv(t) && t.inFlight == 0 && t.readied && Admits(t) && t.drain == s.drain && Closed(t, t.drain.ch)
    decreases s.inFlight
  {
    if s.inFlight == 0 {
      run := [];
    } else {
      StepKeeps(s, AComplete);
      var rest := EverybodyCompletes(Complete(s));
      run := [AComplete] + rest;
      assert run[1..] == rest;
    }
  }

  // The condition cannot be weakened: wherever a drain is when MarkReady is called, waiting,
  // woken or running recycle, some continuation runs recycle under a request in flight.
  lemma ReadiedDrainCanRecycleUnderLoad(run: seq<Action>)
    requires !Run(Init(), run).drain.NoDrain?
    ensures exists more ::
              var s := Run(Init(), run + [AMarkReady] + more); s.drain.RunsRecycle? && s.inFlight > 0
  {
    var s := Run(Init(), run);
    RunKeeps(Init(), run);
    RunConcat(Init(), run, [AMarkReady]);
    var m := Mark(s, Ready);
    assert Run(s, [AMarkReady]) == m;
    StepKeeps(s, AMarkReady);
    var more := LoadsRecycle(m);
    RunConcat(Init(), run + [AMarkReady], more);
  }

  lemma LoadsRecycle(s: State) returns (more: seq<Action>)
    requires Inv(s) && s.readied && Admits(s) && !s.drain.NoDrain?
    ensures Run(s, more).drain.RunsRecycle? && Run(s, more).inFlight > 0
  {
    if s.drain.Waiting? {
      var completing := EverybodyCompletes(s);
      var tail := [ABegin, ADrainWoken, ADrainRecycles];
      LoadedTail(Run(s, completing));
      RunConcat(s, completing, tail);
      more := completing + tail;
    } else if s.drain.Woken? {
      more := [ABegin, ADrainRecycles];
      assert more[1..] == [ADrainRecycles];
      assert Run(Begin(s), [ADrainRecycles]) == DrainRecycles(Begin(s));
    } else {
      more := [ABegin];
      assert Run(s, more) == Begin(s);
    }
  }

  lemma LoadedTail(s: State)
    requires s.inFlight == 0 && Admits(s) && s.drain.Waiting? && Closed(s, s.drain.ch)
    ensures var t := Run(s, [ABegin, ADrainWoken, ADrainRecycles]); t.drain.RunsRecycle? && t.inFlight > 0
  {
    var tail := [ABegin, ADrainWoken, ADrainRecycles];
    assert tail[1..] == [ADrainWoken, ADrainRecycles];
    assert tail[1..][1..] == [ADrainRecycles];
    assert tail[1..][1..][1..] == [];
  }

  // ----- what a drain leads to

  // A request is admitted exactly while the backend is ready, and then counts.
  lemma AdmittedExactlyWhen(s: State)
    ensures var t := Step(s, ABegin);
            if s.state == Ready then t.inFlight == s.inFlight + 1 && t.guards == s.guards + 1 && t.state == Ready && t.drain == s.drain
            else t == s
  {
  }

  function Completions(n: nat): (run: seq<Action>)
    ensures |run| == n
  {
    if n == 0 then [] else Completions(n - 1) + [AComplete]
  }

  lemma OneMore(s: State, run: seq<Action>, a: Action)
    ensures Run(s, run + [a]) == Step(Run(s, run), a)
  {
    RunConcat(s, run, [a]);
    assert Run(Run(s, run), [a]) == Step(Run(s, run), a);
  }

  lemma {:induction false} CompletionsCount(s: State, n: nat)
    requires Inv(s) && n <= s.inFlight
    ensures var t := Run(s, Completions(n));
            Inv(t) && t.inFlight == s.inFlight - n && t.state == s.state && t.drain == s.drain && t.zeroCh == s.zeroCh && t.readied == s.readied
  {
    if n > 0 {
      CompletionsCount(s, n - 1);
      OneMore(s, Completions(n - 1), AComplete);
      StepKeeps(Run(s, Completions(n - 1)), AComplete);
    }
  }

  // A drain of a ready backend lets in nobody, waits for exactly the requests under way, and
  // then recycles; a successful recycle leaves the backend probing, a failed one restarting.
  lemma DrainRunsThrough(run: seq<Action>, n: nat, ok: bool)
    requires var s := Run(Init(), run); s.state == Ready && s.drain.NoDrain? && n <= s.inFlight
    ensures var s := Run(Init(), run);
            var t := Run(s, [ADrainBegin] + Completions(n));
            var recycling := Run(t, [ADrainWoken, ADrainRecycles]);
            && t.state == Draining && t.inFlight == s.inFlight - n && Step(t, ABegin) == t
            && if n < s.inFlight then recycling == t
               else
                 && recycling.state == Recycling && recycling.drain.RunsRecycle? && Step(recycling, ABegin) == recycling
                 && Step(recycling, ADrainEnds(ok)) == recycling.(state := if ok then Probing else Restarting, drain := NoDrain)
  {
    hide Inv, Run, Completions;
    var s := Run(Init(), run);
    InitKeeps();
    RunKeeps(Init(), run);
    StepKeeps(s, ADrainBegin);
    DrainBegins(s, n);
    CompletionsCount(Step(s, ADrainBegin), n);
    DrainWakes(Run(Step(s, ADrainBegin), Completions(n)));
  }

  lemma InitKeeps()
    ensures Inv(Init())
  {
  }

  lemma DrainBegins(s: State, n: nat)
    ensures Run(s, [ADrainBegin] + Completions(n)) == Run(Step(s, ADrainBegin), Completions(n))
  {
    RunConcat(s, [ADrainBegin], Completions(n));
    assert Run(s, [ADrainBegin]) == Step(s, ADrainBegin);
  }

  lemma DrainWakes(s: State)
    requires Inv(s) && s.drain == Waiting(s.zeroCh)
    ensures Run(s, [ADrainWoken, ADrainRecycles])
         == if s.inFlight > 0 then s else s.(state := Recycling, drain := RunsRecycle)
  {
    OneMore(s, [ADrainWoken], ADrainRecycles);
    OneMore(s, [], ADrainWoken);
    assert [ADrainWoken] + [ADrainRecycles] == [ADrainWoken, ADrainRecycles] && [] + [ADrainWoken] == [ADrainWoken];
  }

  // A backend that is not ready cannot be drained, and a drain that is cancelled leaves it
  // restarting.
  lemma DrainRefusedOrCancelled(s: State)
    ensures s.state != Ready ==> Step(s, ADrainBegin) == s
    ensures s.state == Ready && s.drain.NoDrain? ==>
              Step(Step(s, ADrainBegin), ADrainCancelled) == s.(state := Restarting, readied := false)
    ensures Step(s, AMarkReady).state == Ready && Step(s, AMarkProbing).state == Probing && Step(s, AMarkProcessLost).state == Restarting
  {
  }

  // ----- the coordinator with its fields

  class BackendCoordinator {
    var state: BackendState
    var inFlight: nat
    var zeroCh: nat

    // channels made and closed, guards handed out, the drain and whether it was overridden
    ghost var closings: multiset<nat>
    var nextCh: nat
    ghost var guards: nat
    ghost var drain: Drain
    ghost var readied: bool

    ghost function View(): State
      reads this
    {
      State(state, inFlight, zeroCh, closings, nextCh, guards, drain, readied)
    }

    ghost predicate Valid()
      reads this
    {
      Inv(View())
    }

    constructor ()
      ensures Valid() && View() == Init()
    {
      state, inFlight, zeroCh := Starting, 0, 0;
      closings, nextCh, guards, drain, readied := multiset{0}, 1, 0, NoDrain, false;
    }

    // MarkProbing, MarkReady and MarkProcessLost
    method SetState(to: BackendState)
      requires Valid() && (to == Probing || to == Ready || to == Restarting)
      modifies this
      ensures Valid() && View() == Mark(old(View()), to)
    {
      state := to;
      readied := readied || to == Ready;
    }

    method BeginRequest() returns (ok: bool)
      requires Valid()
      modifies this
      ensures Valid() && View() == Begin(old(View()))
      ensures ok == Admits(old(View()))
    {
      StepKeeps(View(), ABegin);
      if state != Ready {
        return false;
      }
      if inFlight == 0 {
        zeroCh := nextCh;
        nextCh := nextCh + 1;
      }
      inFlight := inFlight + 1;
      guards := guards + 1;
      return true;
    }

    method CompleteRequest()
      requires Valid() && guards > 0
      modifies this
      ensures Valid() && View() == Complete(old(View()))
    {
      StepKeeps(View(), AComplete);
      guards := guards - 1;
      if inFlight == 0 {
        return;
      }
      inFlight := inFlight - 1;
      if inFlight == 0 {
        closings := closings + multiset{zeroCh};
      }
    }

    // DrainAndRecycle up to its wait.
    method StartDraining() returns (ok: bool, wait: nat)
      requires Valid() && drain.NoDrain?
      modifies this
      ensures Valid() && View() == DrainBegin(old(View()))
      ensures ok == (old(state) == Ready) && (ok ==> wait == zeroCh)
    {
      StepKeeps(View(), ADrainBegin);
      if state != Ready {
        return false, 0;
      }
      state := Draining;
      drain := Waiting(zeroCh);
      readied := false;
      return true, zeroCh;
    }

    method AbandonDrain()
      requires Valid() && drain.Waiting?
      modifies this
      ensures Valid() && View() == DrainCancelled(old(View()))
    {
      StepKeeps(View(), ADrainCancelled);
      state := Restarting;
      drain := NoDrain;
    }

    // The wait is over: the state the recycle callback runs in.
    method StartRecycle()
      requires Valid() && drain.Waiting? && Closed(View(), drain.ch)
      modifies this
      ensures Valid() && View() == DrainRecycles(DrainWoken(old(View())))
      ensures !readied ==> inFlight == 0 && state == Recycling
    {
      StepKeeps(View(), ADrainWoken);
      drain := Woken;
      StepKeeps(View(), ADrainRecycles);
      state := Recycling;
      drain := RunsRecycle;
    }

    method FinishRecycle(ok: bool)
      requires Valid() && drain.RunsRecycle?
      modifies this
      ensures Valid() && View() == DrainEnds(old(View()), ok)
    {
      StepKeeps(View(), ADrainEnds(ok));
      state := if ok then Probing else Restarting;
      drain := NoDrain;
    }
  }
}

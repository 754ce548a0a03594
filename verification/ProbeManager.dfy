/**
 The worker handling of internal/reachability/probe.go: Start, Stop, Remove and Close against
 probe workers that write evidence. One action is one section under mu, one write to the store,
 or one step of the operation that holds lifecycleMu. The store belongs to the daemon, so others
 write to it too: the session probes of the proxies, the health check of a shared manager, and
 the reports of listener failures.
*/
module ProbeManager {
  import opened Wrappers

  // A worker's goroutine: it may write evidence while it runs, then unregisters itself, then
  // closes its done channel.
  datatype Stage = Runs | Returned | Unregistered | Joined
  datatype Worker = Worker(name: string, stage: Stage)

  datatype Then = ThenStart | ThenRemove | ThenNothing

  // The operation inside lifecycleMu: stopping one worker, or all of them.
  datatype Operation = NoOperation | Stopping(name: string, wait: Option<nat>, next: Then) | Closing(waits: set<nat>)

  // `evidence` are the servers the store has a record for, whoever wrote it.
  datatype State = State(
    registered: map<string, nat>, workers: map<nat, Worker>, nextWorker: nat, op: Operation, evidence: set<string>)

  function Init(): State { State(map[], map[], 0, NoOperation, {}) }

  // stop: take the worker out of the table, cancel it, and wait for it.
  function BeginStop(s: State, name: string, next: Then): State {
    if !s.op.NoOperation? then s
    else s.(op := Stopping(name, if name in s.registered then Some(s.registered[name]) else None, next),
            registered := s.registered - {name})
  }

  predicate IsJoined(s: State, w: nat) { w in s.workers && s.workers[w].stage == Joined }

  // The wait is over: start the new worker, or delete the evidence, or nothing.
  function FinishStop(s: State): State {
    if !s.op.Stopping? || (s.op.wait.Some? && !IsJoined(s, s.op.wait.value)) then s else
    match s.op.next
    case ThenNothing => s.(op := NoOperation)
    case ThenRemove => s.(op := NoOperation, evidence := s.evidence - {s.op.name})
    case ThenStart =>
      s.(op := NoOperation, registered := s.registered[s.op.name := s.nextWorker],
         workers := s.workers[s.nextWorker := Worker(s.op.name, Runs)], nextWorker := s.nextWorker + 1)
  }

  function BeginClose(s: State): State {
    if !s.op.NoOperation? then s else s.(op := Closing(s.registered.Values), registered := map[])
  }

  ghost function FinishClose(s: State): State {
    if s.op.Closing? && forall w <- s.op.waits :: IsJoined(s, w) then s.(op := NoOperation) else s
  }

  function Write(s: State, w: nat): State {
    if w in s.workers && s.workers[w].stage == Runs then s.(evidence := s.evidence + {s.workers[w].name}) else s
  }

  function ForeignWrite(s: State, name: string): State { s.(evidence := s.evidence + {name}) }

  function To(s: State, w: nat, stage: Stage): map<nat, Worker>
    requires w in s.workers
  {
    s.workers[w := s.workers[w].(stage := stage)]
  }

  function Return(s: State, w: nat): State {
    if w in s.workers && s.workers[w].stage == Runs then s.(workers := To(s, w, Returned)) else s
  }

  // finished: a worker takes out only its own registration.
  function Unregister(s: State, w: nat): State {
    if w !in s.workers || s.workers[w].stage != Returned then s else
    var name := s.workers[w].name;
    s.(workers := To(s, w, Unregistered),
       registered := if name in s.registered && s.registered[name] == w then s.registered - {name} else s.registered)
  }

  function Join(s: State, w: nat): State {
    if w in s.workers && s.workers[w].stage == Unregistered then s.(workers := To(s, w, Joined)) else s
  }

  datatype Action =
    | ABeginStop(name: string, next: Then) | AFinishStop | ABeginClose | AFinishClose
    | AWrite(w: nat) | AForeignWrite(name: string) | AReturn(w: nat) | AUnregister(w: nat) | AJoin(w: nat)

  ghost function Step(s: State, a: Action): State {
    match a
    case ABeginStop(name, next) => BeginStop(s, name, next)
    case AFinishStop => FinishStop(s)
    case ABeginClose => BeginClose(s)
    case AFinishClose => FinishClose(s)
    case AWrite(w) => Write(s, w)
    case AForeignWrite(name) => ForeignWrite(s, name)
    case AReturn(w) => Return(s, w)
    case AUnregister(w) => Unregister(s, w)
    case AJoin(w) => Join(s, w)
  }

  ghost function Run(s: State, run: seq<Action>): State
    decreases |run|
  {
    if run == [] then s else Run(Step(s, run[0]), run[1..])
  }

  predicate Live(worker: Worker) { worker.stage == Runs || worker.stage == Returned }

  predicate WaitedFor(op: Operation, w: nat) {
    match op
    case NoOperation => false
    case Stopping(_, wait, _) => wait == Some(w)
    case Closing(waits) => w in waits
  }

  // A worker that may still write is registered under its name, or the operation that took it
  // out of the table is waiting for it.
  ghost predicate Inv(s: State) {
    && (forall w <- s.workers :: w < s.nextWorker)
    && (forall name <- s.registered :: s.registered[name] in s.workers && s.workers[s.registered[name]].name == name)
    && (forall w <- s.workers :: Live(s.workers[w]) ==>
          (s.workers[w].name in s.registered && s.registered[s.workers[w].name] == w) || WaitedFor(s.op, w))
    && (forall w :: WaitedFor(s.op, w) ==> w in s.workers)
    && (s.op.Stopping? ==> s.op.name !in s.registered)
    && (s.op.Stopping? && s.op.wait.Some? ==> s.op.wait.value in s.workers && s.workers[s.op.wait.value].name == s.op.name)
    && (s.op.Closing? ==> s.registered == map[])
    && (s.op.Closing? ==> forall w, v :: w in s.op.waits && v in s.op.waits && s.workers[w].name == s.workers[v].name ==> w == v)
  }

  lemma UnregisterKeeps(s: State, w: nat)
    requires Inv(s)
    ensures Inv(Unregister(s, w))
  {
  }

  lemma FinishStopKeeps(s: State)
    requires Inv(s)
    ensures Inv(FinishStop(s))
  {
  }

  lemma StepKeeps(s: State, a: Action)
    requires Inv(s)
    ensures Inv(Step(s, a))
  {
    hide Unregister, FinishStop;
    match a
    case ABeginClose =>
      if s.op.NoOperation? {
        forall w <- s.workers | Live(s.workers[w]) ensures w in s.registered.Values {
          assert s.registered[s.workers[w].name] == w;
        }
      }
    case AUnregister(w) => UnregisterKeeps(s, w);
    case AFinishStop => FinishStopKeeps(s);
    case _ =>
  }

  lemma {:induction false} RunKeeps(s: State, run: seq<Action>)
    requires Inv(s)
    ensures Inv(Run(s, run))
    decreases |run|
  {
    hide Inv;
    if run != [] {
      StepKeeps(s, run[0]);
      RunKeeps(Step(s, run[0]), run[1..]);
    }
  }

  lemma {:induction false} RunConcat(s: State, first: seq<Action>, second: seq<Action>)
    ensures Run(s, first + second) == Run(Run(s, first), second)
    decreases |first|
  {
    if first == [] {
      assert first + second == second;
    } else {
      assert (first + second)[1..] == first[1..] + second;
      RunConcat(Step(s, first[0]), first[1..], second);
    }
  }

  // However starts, stops and closes interleave, a server never has two workers that can write.
  lemma OneWorkerPerServer(run: seq<Action>, w: nat, v: nat)
    requires var s := Run(Init(), run);
             w in s.workers && v in s.workers && Live(s.workers[w]) && Live(s.workers[v]) && s.workers[w].name == s.workers[v].name
    ensures w == v
  {
    RunKeeps(Init(), run);
  }

  // ----- who has evidence

  // In state s the action writes evidence of this server ...
  predicate Writes(s: State, a: Action, name: string) {
    || a == AForeignWrite(name)
    || (a.AWrite? && a.w in s.workers && s.workers[a.w] == Worker(name, Runs))
  }

  // ... or completes its removal.
  predicate Removes(s: State, a: Action, name: string) {
    && a == AFinishStop && s.op.Stopping? && s.op.name == name && s.op.next == ThenRemove
    && (s.op.wait.Some? ==> IsJoined(s, s.op.wait.value))
  }

  // Step k of the run writes evidence of this server and no later one removes it.
  ghost predicate LastWrite(s: State, run: seq<Action>, k: nat, name: string)
    requires k < |run|
  {
    && Writes(Run(s, run[..k]), run[k], name)
    && forall j :: k < j < |run| ==> !Removes(Run(s, run[..j]), run[j], name)
  }

  // The store has a record exactly if somebody wrote one since the last removal.
  lemma {:induction false} EvidenceExactlyWhen(s: State, run: seq<Action>, name: string)
    ensures name in Run(s, run).evidence <==>
              (exists k :: 0 <= k < |run| && LastWrite(s, run, k, name))
              || (name in s.evidence && forall j :: 0 <= j < |run| ==> !Removes(Run(s, run[..j]), run[j], name))
    decreases |run|
  {
    if run != [] {
      var n := |run| - 1;
      var shorter := run[..n];
      EvidenceExactlyWhen(s, shorter, name);
      RunSplits(s, run);
      forall k | 0 <= k <= n ensures run[..k] == shorter[..k] {}
      var t := Run(s, shorter);
      WriteOrRemove(t, run[n], name);
      if Writes(t, run[n], name) {
        assert LastWrite(s, run, n, name);
      } else if Removes(t, run[n], name) {
        assert forall k :: 0 <= k < n ==> !LastWrite(s, run, k, name);
      } else {
        forall k | 0 <= k < n ensures LastWrite(s, run, k, name) <==> LastWrite(s, shorter, k, name) {
          LongerLastWrite(s, run, k, name);
        }
      }
    } else {
      assert Run(s, run) == s;
    }
  }

  lemma LongerLastWrite(s: State, run: seq<Action>, k: nat, name: string)
    requires k < |run| - 1 && !Removes(Run(s, run[..|run| - 1]), run[|run| - 1], name)
    ensures LastWrite(s, run, k, name) <==> LastWrite(s, run[..|run| - 1], k, name)
  {
    var shorter := run[..|run| - 1];
    assert forall j :: 0 <= j <= |shorter| ==> run[..j] == shorter[..j];
  }

  lemma WriteOrRemove(s: State, a: Action, name: string)
    ensures name in Step(s, a).evidence <==> Writes(s, a, name) || (name in s.evidence && !Removes(s, a, name))
  {
  }

  lemma RunSplits(s: State, run: seq<Action>)
    requires run != []
    ensures Run(s, run) == Step(Run(s, run[..|run| - 1]), run[|run| - 1])
  {
    var last := run[|run| - 1];
    assert run == run[..|run| - 1] + [last];
    RunConcat(s, run[..|run| - 1], [last]);
    assert Run(Run(s, run[..|run| - 1]), [last]) == Step(Run(s, run[..|run| - 1]), last);
  }

  // No worker of this server numbered below `w` can write any more.
  ghost predicate AllJoined(s: State, name: string, w: nat) {
    && w <= s.nextWorker
    && (forall v <- s.workers :: v < w && s.workers[v].name == name ==> !Live(s.workers[v]))
  }

  // Remove joins the worker before it deletes the evidence, so a worker that existed then never
  // writes again. From then on the store has a record exactly if, since the last removal, a
  // worker started later has written, or somebody else has.
  lemma RemovedEvidenceReturnsExactlyWhen(run: seq<Action>, name: string, more: seq<Action>)
    requires Removes(Run(Init(), run), AFinishStop, name)
    ensures var s := Run(Init(), run + [AFinishStop]);
            && (name in Run(s, more).evidence <==> exists k :: 0 <= k < |more| && LastWrite(s, more, k, name))
            && (forall k :: 0 <= k < |more| && LastWrite(s, more, k, name) ==>
                  more[k] == AForeignWrite(name) || (more[k].AWrite? && more[k].w >= s.nextWorker))
  {
    hide LastWrite;
    var r := Run(Init(), run);
    var s := Run(Init(), run + [AFinishStop]);
    RunKeeps(Init(), run);
    RunConcat(Init(), run, [AFinishStop]);
    assert Run(r, [AFinishStop]) == FinishStop(r);
    RemoveEnds(r, name);
    EvidenceExactlyWhen(s, more, name);
    forall k | 0 <= k < |more| && LastWrite(s, more, k, name)
      ensures more[k] == AForeignWrite(name) || (more[k].AWrite? && more[k].w >= s.nextWorker)
    {
      StaysJoined(s, more[..k], name, s.nextWorker);
      WriterIsLater(s, more, k, name);
    }
  }

  lemma WriterIsLater(s: State, run: seq<Action>, k: nat, name: string)
    requires k < |run| && LastWrite(s, run, k, name) && AllJoined(Run(s, run[..k]), name, s.nextWorker)
    ensures run[k] == AForeignWrite(name) || (run[k].AWrite? && run[k].w >= s.nextWorker)
  {
  }

  lemma RemoveEnds(s: State, name: string)
    requires Inv(s) && Removes(s, AFinishStop, name)
    ensures name !in FinishStop(s).evidence && AllJoined(FinishStop(s), name, FinishStop(s).nextWorker)
  {
  }

  lemma {:induction false} StaysJoined(s: State, run: seq<Action>, name: string, w: nat)
    requires AllJoined(s, name, w)
    ensures AllJoined(Run(s, run), name, w)
    decreases |run|
  {
    hide AllJoined;
    if run != [] {
      StepStaysJoined(s, run[0], name, w);
      StaysJoined(Step(s, run[0]), run[1..], name, w);
    }
  }

  lemma StepStaysJoined(s: State, a: Action, name: string, w: nat)
    requires AllJoined(s, name, w)
    ensures AllJoined(Step(s, a), name, w)
  {
  }

  // So the evidence of a stopped server can come back although it is never started again: the
  // daemon removes the probe worker before it tears the proxies down, and a session probe
  // that is still running writes.
  lemma RemovedEvidenceCanReturn(run: seq<Action>, name: string)
    requires Removes(Run(Init(), run), AFinishStop, name)
    ensures name !in Run(Init(), run + [AFinishStop]).evidence
    ensures name in Run(Init(), run + [AFinishStop] + [AForeignWrite(name)]).evidence
  {
    RunKeeps(Init(), run);
    RunConcat(Init(), run, [AFinishStop]);
    assert Run(Run(Init(), run), [AFinishStop]) == FinishStop(Run(Init(), run));
    RemoveEnds(Run(Init(), run), name);
    RunConcat(Init(), run + [AFinishStop], [AForeignWrite(name)]);
    var s := Run(Init(), run + [AFinishStop]);
    assert Run(s, [AForeignWrite(name)]) == ForeignWrite(s, name);
  }

  // ----- what each operation leads to

  lemma OneMore(s: State, run: seq<Action>, a: Action)
    ensures Run(s, run + [a]) == Step(Run(s, run), a)
  {
    RunConcat(s, run, [a]);
    assert Run(Run(s, run), [a]) == Step(Run(s, run), a);
  }

  // The worker leaves: it returns, unregisters itself and closes its channel.
  function Leaves(w: nat): seq<Action> { [AReturn(w), AUnregister(w), AJoin(w)] }

  lemma LeavingJoins(s: State, w: nat)
    requires w in s.workers && s.workers[w].stage == Runs
    requires s.workers[w].name in s.registered ==> s.registered[s.workers[w].name] != w
    ensures Run(s, Leaves(w)) == s.(workers := s.workers[w := Worker(s.workers[w].name, Joined)])
  {
    OneMore(s, [], AReturn(w));
    OneMore(s, [AReturn(w)], AUnregister(w));
    OneMore(s, [AReturn(w), AUnregister(w)], AJoin(w));
    assert [] + [AReturn(w)] == [AReturn(w)] && [AReturn(w)] + [AUnregister(w)] == [AReturn(w), AUnregister(w)];
    assert [AReturn(w), AUnregister(w)] + [AJoin(w)] == Leaves(w);
    var name := s.workers[w].name;
    assert s.workers[w := Worker(name, Returned)][w := Worker(name, Unregistered)][w := Worker(name, Joined)]
        == s.workers[w := Worker(name, Joined)];
  }

  // A running worker is replaced: its successor is registered and runs, and not before the
  // worker has left; a first worker is registered at once. Other servers keep theirs.
  lemma StartRegistersAWorker(run: seq<Action>, name: string)
    requires Run(Init(), run).op.NoOperation?
    requires var s := Run(Init(), run); name in s.registered ==> s.registered[name] in s.workers && s.workers[s.registered[name]].stage == Runs
    ensures var s := Run(Init(), run);
            var b := Step(s, ABeginStop(name, ThenStart));
            var u := Step(if name in s.registered then Run(b, Leaves(s.registered[name])) else b, AFinishStop);
            && u.registered == s.registered[name := s.nextWorker] && u.nextWorker == s.nextWorker + 1 && u.op.NoOperation?
            && s.nextWorker in u.workers && u.workers[s.nextWorker] == Worker(name, Runs)
            && name in Step(u, AWrite(s.nextWorker)).evidence
            && (name in s.registered ==>
                  && Step(b, AFinishStop) == b
                  && s.registered[name] in u.workers && u.workers[s.registered[name]].stage == Joined)
  {
    var s := Run(Init(), run);
    RunKeeps(Init(), run);
    RegisteredExists(s, name);
    hide Inv, Run;
    var b := Step(s, ABeginStop(name, ThenStart));
    if name in s.registered {
      LeavingJoins(b, s.registered[name]);
      assert (s.registered - {name})[name := s.nextWorker] == s.registered[name := s.nextWorker];
    } else {
      assert s.registered - {name} == s.registered;
    }
  }

  lemma RegisteredExists(s: State, name: string)
    requires Inv(s)
    ensures name in s.registered ==>
              && s.registered[name] in s.workers && s.workers[s.registered[name]].name == name && s.registered[name] < s.nextWorker
  {
  }

  // Removing a server takes its worker out and deletes its evidence.
  lemma RemoveDeletesTheEvidence(run: seq<Action>, name: string)
    requires Run(Init(), run).op.NoOperation?
    requires var s := Run(Init(), run); name in s.registered ==> s.registered[name] in s.workers && s.workers[s.registered[name]].stage == Runs
    ensures var s := Run(Init(), run);
            var b := Step(s, ABeginStop(name, ThenRemove));
            var u := Step(if name in s.registered then Run(b, Leaves(s.registered[name])) else b, AFinishStop);
            u.registered == s.registered - {name} && u.evidence == s.evidence - {name} && u.op.NoOperation?
  {
    var s := Run(Init(), run);
    RunKeeps(Init(), run);
    RegisteredExists(s, name);
    hide Inv, Run;
    var b := Step(s, ABeginStop(name, ThenRemove));
    if name in s.registered {
      LeavingJoins(b, s.registered[name]);
    }
  }

  // Close takes every worker out and is over exactly when all of them have left.
  lemma CloseWaitsForAll(s: State)
    requires s.op.NoOperation?
    ensures var b := Step(s, ABeginClose);
            b.registered == map[] && b.op.Closing? && forall name <- s.registered :: s.registered[name] in b.op.waits
  {
    forall name <- s.registered ensures s.registered[name] in s.registered.Values {}
  }

  lemma CloseEndsExactlyWhen(s: State)
    requires s.op.Closing?
    ensures Step(s, AFinishClose).op.NoOperation? <==>
              forall w <- s.op.waits :: w in s.workers && s.workers[w].stage == Joined
  {
  }

  // ----- the manager with its table

  class Manager {
    var workers: map<string, nat>

    // goroutines, the operation inside lifecycleMu, and the store
    ghost var goroutines: map<nat, Worker>
    var nextWorker: nat
    ghost var op: Operation
    ghost var evidence: set<string>

    ghost function View(): State
      reads this
    {
      State(workers, goroutines, nextWorker, op, evidence)
    }

    ghost predicate Valid()
      reads this
    {
      Inv(View())
    }

    constructor ()
      ensures Valid() && View() == Init()
    {
      workers, goroutines, nextWorker, op, evidence := map[], map[], 0, NoOperation, {};
    }

    // stop, under mu: which worker to cancel and wait for.
    method TakeOut(name: string, ghost next: Then) returns (handle: Option<nat>)
      requires Valid() && op.NoOperation?
      modifies this
      ensures Valid() && View() == BeginStop(old(View()), name, next)
      ensures handle == if name in old(workers) then Some(old(workers)[name]) else None
    {
      hide Inv;
      StepKeeps(View(), ABeginStop(name, next));
      handle := if name in workers then Some(workers[name]) else None;
      workers := workers - {name};
      op := Stopping(name, handle, next);
    }

    // startWithProbes after its stop.
    method Register(name: string) returns (handle: nat)
      requires Valid() && op.Stopping? && op.name == name && op.next == ThenStart
      requires op.wait.Some? ==> IsJoined(View(), op.wait.value)
      modifies this
      ensures Valid() && View() == FinishStop(old(View())) && handle == old(nextWorker)
    {
      hide Inv;
      StepKeeps(View(), AFinishStop);
      handle := nextWorker;
      workers := workers[name := handle];
      goroutines := goroutines[handle := Worker(name, Runs)];
      nextWorker := nextWorker + 1;
      op := NoOperation;
    }

    method Finished(name: string, handle: nat)
      requires Valid() && handle in goroutines && goroutines[handle] == Worker(name, Returned)
      modifies this
      ensures Valid() && View() == Unregister(old(View()), handle)
    {
      hide Inv;
      StepKeeps(View(), AUnregister(handle));
      goroutines := goroutines[handle := Worker(name, Unregistered)];
      if name in workers && workers[name] == handle {
        workers := workers - {name};
      }
    }
  }
}

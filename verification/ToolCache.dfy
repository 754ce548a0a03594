/**
 The shared tool results of internal/mcp/proxy.go: one execution per key at a time, its result
 handed to everybody who asked meanwhile and kept for a while. One action is one section under
 the coordinator's lock, or the clock reading that precedes it.
*/
module ToolCache {
  import opened Wrappers

  datatype Outcome = Success(result: nat) | NilResult | Failure(code: nat)

  // An execution of fn: who runs it, when it started and, once it is over, when and how it ended.
  datatype Ending = Ending(outcome: Outcome, at: int)
  datatype Call = Call(key: string, runner: nat, startedAt: int, ending: Option<Ending>)

  // `src` names the execution the entry came from.
  datatype Entry = Entry(src: nat, result: nat, expiresAt: int, createdAt: int)

  datatype Phase = Entered | Waits(c: nat) | Executes(c: nat) | Returned(src: nat, outcome: Outcome) | GaveUp

  // A caller of execute; `readAt` is the clock it read before it took the lock, `lookedUpAt`
  // the time at which it had the lock and looked its key up.
  datatype Caller = Caller(key: string, readAt: int, lookedUpAt: int, phase: Phase)

  datatype State = State(
    ttl: int, maxEntries: int, clock: int,
    cache: map<string, Entry>, inflight: map<string, nat>,
    calls: map<nat, Call>, nextCall: nat, callers: map<nat, Caller>)

  function Init(ttl: int, maxEntries: int): State { State(ttl, maxEntries, 0, map[], map[], map[], 0, map[]) }

  function Tick(s: State, d: nat): State { s.(clock := s.clock + d) }

  function Enter(s: State, t: nat, key: string): State {
    if t in s.callers || key == "" then s else s.(callers := s.callers[t := Caller(key, s.clock, s.clock, Entered)])
  }

  predicate In(s: State, t: nat) { t in s.callers && s.callers[t].phase == Entered }

  predicate Usable(ttl: int, cache: map<string, Entry>, key: string, readAt: int) {
    key in cache && ttl > 0 && readAt < cache[key].expiresAt
  }

  function Becomes(s: State, t: nat, phase: Phase): map<nat, Caller>
    requires t in s.callers
  {
    s.callers[t := s.callers[t].(phase := phase)]
  }

  function Lookup(s: State, t: nat): State { if In(s, t) then Answer(Stamped(s, t), t) else s }

  function Stamped(s: State, t: nat): State
    requires t in s.callers
  {
    s.(callers := s.callers[t := s.callers[t].(lookedUpAt := s.clock)])
  }

  // A usable entry is returned; otherwise a stale one is dropped and the caller joins the
  // execution under way or starts one. What is usable depends on the clock read before.
  function Answer(s: State, t: nat): State
    requires In(s, t)
  {
    var key := s.callers[t].key;
    if Usable(s.ttl, s.cache, key, s.callers[t].readAt)
    then s.(callers := Becomes(s, t, Returned(s.cache[key].src, Success(s.cache[key].result))))
    else if key in s.inflight
    then s.(cache := s.cache - {key}, callers := Becomes(s, t, Waits(s.inflight[key])))
    else s.(cache := s.cache - {key}, inflight := s.inflight[key := s.nextCall],
            calls := s.calls[s.nextCall := Call(key, t, s.clock, None)], nextCall := s.nextCall + 1,
            callers := Becomes(s, t, Executes(s.nextCall)))
  }

  // What trimming may leave: nothing that is not oldest goes, and only while there are too many.
  ghost predicate Trimmed(before: map<string, Entry>, after: map<string, Entry>, maxEntries: int) {
    && (forall key <- after :: key in before && after[key] == before[key])
    && (forall gone, kept :: gone in before && gone !in after && kept in after ==>
          before[gone].createdAt <= before[kept].createdAt)
    && |after| == if 0 < maxEntries < |before| then maxEntries else |before|
  }

  predicate Running(s: State, t: nat) { t in s.callers && s.callers[t].phase.Executes? }

  predicate Stored(s: State, outcome: Outcome) { outcome.Success? && s.ttl > 0 }

  // What the cache holds once the result of call c has been stored, before the trim; the two
  // clock readings are `d` apart.
  function WithResult(s: State, key: string, c: nat, outcome: Outcome, d: nat): map<string, Entry> {
    if Stored(s, outcome) then s.cache[key := Entry(c, outcome.result, s.clock + s.ttl, s.clock + d)] else s.cache
  }

  // fn returned `outcome` to caller t; `trimmed` is what trimCacheLocked leaves, which depends
  // on the iteration order when entries are equally old.
  ghost function Finish(s: State, t: nat, outcome: Outcome, d: nat, trimmed: map<string, Entry>): State {
    if !Running(s, t) then s else
    var key, c := s.callers[t].key, s.callers[t].phase.c;
    if c !in s.calls || !Trimmed(WithResult(s, key, c, outcome, d), trimmed, s.maxEntries) then s
    else s.(clock := s.clock + d, inflight := s.inflight - {key},
            cache := if Stored(s, outcome) then trimmed else s.cache,
            calls := s.calls[c := s.calls[c].(ending := Some(Ending(outcome, s.clock)))],
            callers := Becomes(s, t, Returned(c, outcome)))
  }

  predicate Done(s: State, c: nat) { c in s.calls && s.calls[c].ending.Some? }

  function Wake(s: State, t: nat): State {
    if t in s.callers && s.callers[t].phase.Waits? && Done(s, s.callers[t].phase.c)
    then s.(callers := Becomes(s, t, Returned(s.callers[t].phase.c, s.calls[s.callers[t].phase.c].ending.value.outcome)))
    else s
  }

  function GiveUp(s: State, t: nat): State {
    if t in s.callers && s.callers[t].phase.Waits? then s.(callers := Becomes(s, t, GaveUp)) else s
  }

  datatype Action =
    | ATick(d: nat) | AEnter(t: nat, key: string) | ALookup(t: nat)
    | AFinish(t: nat, outcome: Outcome, d: nat, trimmed: map<string, Entry>) | AWake(t: nat) | AGiveUp(t: nat)

  ghost function Step(s: State, a: Action): State {
    match a
    case ATick(d) => Tick(s, d)
    case AEnter(t, key) => Enter(s, t, key)
    case ALookup(t) => Lookup(s, t)
    case AFinish(t, outcome, d, trimmed) => Finish(s, t, outcome, d, trimmed)
    case AWake(t) => Wake(s, t)
    case AGiveUp(t) => GiveUp(s, t)
  }

  ghost function Run(s: State, run: seq<Action>): State
    decreases |run|
  {
    if run == [] then s else Run(Step(s, run[0]), run[1..])
  }

  // ----- invariants

  // An execution is in flight under its key exactly while it has not ended.
  ghost predicate FlightInv(inflight: map<string, nat>, calls: map<nat, Call>) {
    && (forall key <- inflight :: inflight[key] in calls && calls[inflight[key]].key == key && calls[inflight[key]].ending.None?)
    && (forall c <- calls :: calls[c].ending.None? ==> calls[c].key in inflight && inflight[calls[c].key] == c)
  }

  predicate CallKept(call: Call, clock: int) {
    call.startedAt <= clock && (call.ending.Some? ==> call.startedAt <= call.ending.value.at <= clock)
  }

  ghost predicate CallsInv(calls: map<nat, Call>, nextCall: nat, clock: int) {
    forall c <- calls :: c < nextCall && CallKept(calls[c], clock)
  }

  predicate FromExecution(ttl: int, calls: map<nat, Call>, key: string, e: Entry) {
    && e.src in calls && calls[e.src].key == key
    && calls[e.src].ending == Some(Ending(Success(e.result), e.expiresAt - ttl))
  }

  ghost predicate CacheInv(ttl: int, maxEntries: int, cache: map<string, Entry>, inflight: map<string, nat>, calls: map<nat, Call>) {
    && "" !in cache
    && (maxEntries > 0 ==> |cache| <= maxEntries)
    && (forall key <- cache :: FromExecution(ttl, calls, key, cache[key]))
    && (forall key <- inflight :: key !in cache)
  }

  // Execution c answered a caller of `key` that began at `readAt`: it ended during the call,
  // or it succeeded less than the ttl before.
  predicate Answers(ttl: int, calls: map<nat, Call>, c: nat, key: string, readAt: int, outcome: Outcome) {
    && c in calls && calls[c].key == key && calls[c].ending.Some?
    && calls[c].ending.value.outcome == outcome
    && (calls[c].ending.value.at >= readAt || (outcome.Success? && readAt < calls[c].ending.value.at + ttl))
  }

  predicate CallerKept(ttl: int, calls: map<nat, Call>, clock: int, t: nat, caller: Caller) {
    && caller.key != "" && caller.readAt <= caller.lookedUpAt <= clock
    && match caller.phase
       case Waits(c) =>
         c in calls && calls[c].key == caller.key && (calls[c].ending.Some? ==> calls[c].ending.value.at >= caller.readAt)
       case Executes(c) =>
         c in calls && calls[c].key == caller.key && calls[c].ending.None? && calls[c].runner == t
       case Returned(c, outcome) => Answers(ttl, calls, c, caller.key, caller.readAt, outcome)
       case _ => true
  }

  ghost predicate CallersInv(ttl: int, calls: map<nat, Call>, clock: int, callers: map<nat, Caller>) {
    forall t <- callers :: CallerKept(ttl, calls, clock, t, callers[t])
  }

  // An execution under way is run by the caller that started it.
  ghost predicate RunnersInv(calls: map<nat, Call>, callers: map<nat, Caller>) {
    forall c <- calls :: calls[c].ending.None? ==> calls[c].runner in callers && callers[calls[c].runner].phase == Executes(c)
  }

  ghost predicate Inv(s: State) {
    && FlightInv(s.inflight, s.calls)
    && CallsInv(s.calls, s.nextCall, s.clock)
    && CacheInv(s.ttl, s.maxEntries, s.cache, s.inflight, s.calls)
    && CallersInv(s.ttl, s.calls, s.clock, s.callers)
    && RunnersInv(s.calls, s.callers)
  }

  lemma TickKeeps(s: State, d: nat)
    requires Inv(s)
    ensures Inv(Tick(s, d))
  {
    hide FlightInv, RunnersInv;
  }

  lemma EnterKeeps(s: State, t: nat, key: string)
    requires Inv(s)
    ensures Inv(Enter(s, t, key))
  {
    hide FlightInv, CallsInv;
  }

  // A caller that moves on without an execution starting or ending.
  lemma MoveKeeps(s: State, t: nat, phase: Phase)
    requires Inv(s) && t in s.callers && !s.callers[t].phase.Executes? && !phase.Executes?
    requires CallerKept(s.ttl, s.calls, s.clock, t, s.callers[t].(phase := phase))
    ensures Inv(s.(callers := Becomes(s, t, phase)))
  {
    hide FlightInv, CallsInv, CacheInv;
  }

  lemma WakeKeeps(s: State, t: nat)
    requires Inv(s)
    ensures Inv(Wake(s, t)) && Inv(GiveUp(s, t))
  {
    if t in s.callers && s.callers[t].phase.Waits? {
      assert CallerKept(s.ttl, s.calls, s.clock, t, s.callers[t]);
      MoveKeeps(s, t, GaveUp);
      var c := s.callers[t].phase.c;
      if Done(s, c) {
        MoveKeeps(s, t, Returned(c, s.calls[c].ending.value.outcome));
      }
    }
  }

  // Dropping a stale entry.
  lemma DropKeeps(s: State, key: string)
    requires Inv(s)
    ensures Inv(s.(cache := s.cache - {key}))
  {
    hide FlightInv, CallsInv, CallersInv, RunnersInv;
    assert |s.cache - {key}| <= |s.cache| by {
      if key in s.cache {
        assert s.cache.Keys == (s.cache - {key}).Keys + {key};
      } else {
        assert s.cache - {key} == s.cache;
      }
    }
  }

  lemma LookupKeeps(s: State, t: nat)
    requires Inv(s)
    ensures Inv(Lookup(s, t))
  {
    hide Inv, Answer;
    if In(s, t) {
      StampKeeps(s, t);
      AnswerKeeps(Stamped(s, t), t);
    }
  }

  lemma StampKeeps(s: State, t: nat)
    requires Inv(s) && In(s, t)
    ensures Inv(Stamped(s, t))
  {
    hide FlightInv, CallsInv, CacheInv;
  }

  lemma AnswerKeeps(s: State, t: nat)
    requires Inv(s) && In(s, t)
    ensures Inv(Answer(s, t))
  {
    hide FlightInv, CallsInv, CacheInv, CallersInv, RunnersInv;
    var key := s.callers[t].key;
    CallerAt(s, t);
    if Usable(s.ttl, s.cache, key, s.callers[t].readAt) {
      EntryAt(s, key);
      MoveKeeps(s, t, Returned(s.cache[key].src, Success(s.cache[key].result)));
    } else {
      DropKeeps(s, key);
      var u := s.(cache := s.cache - {key});
      if key in s.inflight {
        FlightAt(s, key);
        MoveKeeps(u, t, Waits(s.inflight[key]));
      } else {
        StartKeeps(u, t);
      }
    }
  }

  lemma CallerAt(s: State, t: nat)
    requires Inv(s) && t in s.callers
    ensures CallerKept(s.ttl, s.calls, s.clock, t, s.callers[t])
  {
  }

  lemma EntryAt(s: State, key: string)
    requires Inv(s) && key in s.cache
    ensures FromExecution(s.ttl, s.calls, key, s.cache[key])
  {
  }

  lemma FlightAt(s: State, key: string)
    requires Inv(s) && key in s.inflight
    ensures s.inflight[key] in s.calls && s.calls[s.inflight[key]].key == key && s.calls[s.inflight[key]].ending.None?
  {
  }

  function Started(s: State, t: nat): State
    requires t in s.callers
  {
    s.(inflight := s.inflight[s.callers[t].key := s.nextCall],
       calls := s.calls[s.nextCall := Call(s.callers[t].key, t, s.clock, None)], nextCall := s.nextCall + 1,
       callers := Becomes(s, t, Executes(s.nextCall)))
  }

  lemma StartKeeps(s: State, t: nat)
    requires Inv(s) && In(s, t) && s.callers[t].key !in s.inflight && s.callers[t].key !in s.cache
    ensures Inv(Started(s, t))
  {
    hide FlightInv, CacheInv, CallersInv, RunnersInv;
    CallerAt(s, t);
    assert s.nextCall !in s.calls;
    StartFlight(s.inflight, s.calls, s.nextCall, Call(s.callers[t].key, t, s.clock, None));
    StartRunners(s, t);
    StartCallers(s, t);
    StartCache(s, t);
  }

  lemma StartFlight(inflight: map<string, nat>, calls: map<nat, Call>, c: nat, call: Call)
    requires FlightInv(inflight, calls) && c !in calls && call.key !in inflight && call.ending.None?
    ensures FlightInv(inflight[call.key := c], calls[c := call])
  {
  }

  lemma StartRunners(s: State, t: nat)
    requires RunnersInv(s.calls, s.callers) && In(s, t) && s.nextCall !in s.calls
    ensures RunnersInv(Started(s, t).calls, Started(s, t).callers)
  {
  }

  lemma StartCache(s: State, t: nat)
    requires CacheInv(s.ttl, s.maxEntries, s.cache, s.inflight, s.calls)
    requires t in s.callers && s.nextCall !in s.calls && s.callers[t].key !in s.cache
    ensures CacheInv(s.ttl, s.maxEntries, s.cache, Started(s, t).inflight, Started(s, t).calls)
  {
  }

  lemma StartCallers(s: State, t: nat)
    requires CallersInv(s.ttl, s.calls, s.clock, s.callers) && t in s.callers && s.nextCall !in s.calls
    ensures CallersInv(s.ttl, Started(s, t).calls, s.clock, Started(s, t).callers)
  {
  }

  lemma FinishKeeps(s: State, t: nat, outcome: Outcome, d: nat, trimmed: map<string, Entry>)
    requires Inv(s)
    ensures Inv(Finish(s, t, outcome, d, trimmed))
  {
    hide CallsInv, CacheInv, CallersInv, RunnersInv, Trimmed;
    if Running(s, t) {
      var key, c := s.callers[t].key, s.callers[t].phase.c;
      var u := Finish(s, t, outcome, d, trimmed);
      CallerAt(s, t);
      assert s.inflight[key] == c;
      if Trimmed(WithResult(s, key, c, outcome, d), trimmed, s.maxEntries) {
        EndCalls(s.calls, s.nextCall, s.clock, c, outcome, d);
        EndRunners(s, t, outcome);
        EndCallers(s, t, outcome, d);
        EndCache(s, t, outcome, d, trimmed);
      }
    }
  }

  function Ended(calls: map<nat, Call>, c: nat, outcome: Outcome, at: int): map<nat, Call>
    requires c in calls
  {
    calls[c := calls[c].(ending := Some(Ending(outcome, at)))]
  }

  lemma EndCalls(calls: map<nat, Call>, nextCall: nat, clock: int, c: nat, outcome: Outcome, d: nat)
    requires CallsInv(calls, nextCall, clock) && c in calls
    ensures CallsInv(Ended(calls, c, outcome, clock), nextCall, clock + d)
  {
  }

  lemma EndRunners(s: State, t: nat, outcome: Outcome)
    requires RunnersInv(s.calls, s.callers) && Running(s, t) && s.callers[t].phase.c in s.calls
    ensures var c := s.callers[t].phase.c;
            RunnersInv(Ended(s.calls, c, outcome, s.clock), Becomes(s, t, Returned(c, outcome)))
  {
  }

  lemma EndCallers(s: State, t: nat, outcome: Outcome, d: nat)
    requires CallersInv(s.ttl, s.calls, s.clock, s.callers) && Running(s, t) && s.callers[t].phase.c in s.calls
    ensures var c := s.callers[t].phase.c;
            CallersInv(s.ttl, Ended(s.calls, c, outcome, s.clock), s.clock + d, Becomes(s, t, Returned(c, outcome)))
  {
    assert CallerKept(s.ttl, s.calls, s.clock, t, s.callers[t]);
  }

  lemma EndCache(s: State, t: nat, outcome: Outcome, d: nat, trimmed: map<string, Entry>)
    requires CacheInv(s.ttl, s.maxEntries, s.cache, s.inflight, s.calls) && Running(s, t)
    requires s.callers[t].phase.c in s.calls && s.calls[s.callers[t].phase.c].ending.None?
    requires s.callers[t].key != "" && s.calls[s.callers[t].phase.c].key == s.callers[t].key
    requires Trimmed(WithResult(s, s.callers[t].key, s.callers[t].phase.c, outcome, d), trimmed, s.maxEntries)
    ensures CacheInv(s.ttl, s.maxEntries, if Stored(s, outcome) then trimmed else s.cache,
                     s.inflight - {s.callers[t].key}, Ended(s.calls, s.callers[t].phase.c, outcome, s.clock))
  {
  }

  lemma StepKeeps(s: State, a: Action)
    requires Inv(s)
    ensures Inv(Step(s, a))
  {
    hide Inv;
    match a
    case ATick(d) => TickKeeps(s, d);
    case AEnter(t, key) => EnterKeeps(s, t, key);
    case ALookup(t) => LookupKeeps(s, t);
    case AFinish(t, outcome, d, trimmed) => FinishKeeps(s, t, outcome, d, trimmed);
    case AWake(t) => WakeKeeps(s, t);
    case AGiveUp(t) => WakeKeeps(s, t);
  }

  lemma {:induction false} RunKeeps(s: State, run: seq<Action>)
    requires Inv(s)
    ensures Inv(Run(s, run)) && Run(s, run).ttl == s.ttl && Run(s, run).maxEntries == s.maxEntries
    decreases |run|
  {
    hide Inv;
    if run != [] {
      StepKeeps(s, run[0]);
      RunKeeps(Step(s, run[0]), run[1..]);
    }
  }

  // At most one execution per key is under way, and a key that is being executed is not cached.
  lemma OneExecutionPerKey(ttl: int, maxEntries: int, run: seq<Action>, c: nat, e: nat)
    requires c in Run(Init(ttl, maxEntries), run).calls && Run(Init(ttl, maxEntries), run).calls[c].ending.None?
    requires e in Run(Init(ttl, maxEntries), run).calls && Run(Init(ttl, maxEntries), run).calls[e].ending.None?
    requires Run(Init(ttl, maxEntries), run).calls[c].key == Run(Init(ttl, maxEntries), run).calls[e].key
    ensures c == e && Run(Init(ttl, maxEntries), run).calls[c].key !in Run(Init(ttl, maxEntries), run).cache
  {
    RunKeeps(Init(ttl, maxEntries), run);
  }

  // Whatever a caller gets back is the outcome of one execution of its own key that ended
  // while the call was going on, or that succeeded less than the ttl before the call read the
  // clock.
  lemma ReturnedResultIsFresh(ttl: int, maxEntries: int, run: seq<Action>, t: nat)
    requires t in Run(Init(ttl, maxEntries), run).callers && Run(Init(ttl, maxEntries), run).callers[t].phase.Returned?
    ensures var s := Run(Init(ttl, maxEntries), run);
            var caller := s.callers[t];
            && caller.phase.src in s.calls
            && var call := s.calls[caller.phase.src];
            && call.key == caller.key && call.ending.Some? && call.ending.value.outcome == caller.phase.outcome
            && call.startedAt <= call.ending.value.at <= s.clock
            && (call.ending.value.at >= caller.readAt ||
                (call.ending.value.outcome.Success? && caller.readAt - call.ending.value.at < ttl))
  {
    RunKeeps(Init(ttl, maxEntries), run);
    CallerAt(Run(Init(ttl, maxEntries), run), t);
  }

  // The moment of the lookup is another matter: a hit is then as old as the ttl, or older,
  // exactly if the entry expired between the clock reading and the lookup.
  lemma StaleHitExactlyWhen(ttl: int, maxEntries: int, run: seq<Action>, t: nat)
    requires var s := Run(Init(ttl, maxEntries), run);
             In(s, t) && Usable(ttl, s.cache, s.callers[t].key, s.callers[t].readAt)
    ensures var s := Run(Init(ttl, maxEntries), run);
            var u := Step(s, ALookup(t));
            var hit := u.callers[t];
            && hit.phase.Returned? && hit.phase.src in u.calls && u.calls[hit.phase.src].ending.Some?
            && (hit.lookedUpAt - u.calls[hit.phase.src].ending.value.at >= ttl <==> s.clock >= s.cache[hit.key].expiresAt)
  {
    RunKeeps(Init(ttl, maxEntries), run);
    var s := Run(Init(ttl, maxEntries), run);
    EntryAt(s, s.callers[t].key);
  }

  // And it happens: whoever has read the clock and finds a usable entry may get the lock only
  // after the entry has expired, and is given the expired result.
  lemma StaleHitIsPossible(ttl: int, maxEntries: int, run: seq<Action>, t: nat)
    requires var s := Run(Init(ttl, maxEntries), run);
             In(s, t) && Usable(ttl, s.cache, s.callers[t].key, s.callers[t].readAt)
    ensures exists d ::
              var u := Run(Init(ttl, maxEntries), run + [ATick(d)] + [ALookup(t)]);
              && t in u.callers && u.callers[t].phase.Returned? && u.callers[t].phase.src in u.calls
              && u.calls[u.callers[t].phase.src].ending.Some?
              && u.callers[t].lookedUpAt - u.calls[u.callers[t].phase.src].ending.value.at >= ttl
  {
    var s := Run(Init(ttl, maxEntries), run);
    var left := s.cache[s.callers[t].key].expiresAt - s.clock;
    var d: nat := if left > 0 then left else 0;
    RunConcat(Init(ttl, maxEntries), run, [ATick(d)]);
    assert Run(s, [ATick(d)]) == Tick(s, d);
    RunConcat(Init(ttl, maxEntries), run + [ATick(d)], [ALookup(t)]);
    assert Run(Tick(s, d), [ALookup(t)]) == Step(Tick(s, d), ALookup(t));
    RunKeeps(Init(ttl, maxEntries), []);
    RunKeeps(Init(ttl, maxEntries), run);
    StaleHitExactlyWhen(ttl, maxEntries, run + [ATick(d)], t);
  }

  lemma {:induction false} RunConcat(s: State, first: seq<Action>, second: seq<Action>)
    ensures Run(s, first + second) == Run(Run(s, first), second)
    decreases |first|
  {
    if first == [] {
      assert first + second == second;
    } else {
      assert (first + second)[1..] == first[1..] + second;
      RunConcat(Step(s, first[0]), first[1..], second);
    }
  }

  // Outside the lock the cache never holds more than its limit.
  lemma CacheIsBounded(ttl: int, maxEntries: int, run: seq<Action>)
    requires maxEntries > 0
    ensures |Run(Init(ttl, maxEntries), run).cache| <= maxEntries
  {
    RunKeeps(Init(ttl, maxEntries), run);
  }

  // ----- what a caller gets

  lemma RunMore(s: State, run: seq<Action>, a: Action)
    ensures Run(s, run + [a]) == Step(Run(s, run), a)
  {
    RunConcat(s, run, [a]);
    assert Run(Run(s, run), [a]) == Step(Run(s, run), a);
  }

  // What a lookup comes to: a fresh entry is returned; without one a caller whose key is being
  // executed waits for that execution, and only one whose key is not starts a new one.
  lemma LookupExactlyWhen(s: State, t: nat)
    requires t in s.callers && s.callers[t].phase == Entered
    ensures var u := Step(s, ALookup(t));
            var caller := s.callers[t];
            var hit := s.ttl > 0 && caller.key in s.cache && caller.readAt < s.cache[caller.key].expiresAt;
            && t in u.callers && u.callers[t].key == caller.key
            && (hit ==> u.callers[t].phase == Returned(s.cache[caller.key].src, Success(s.cache[caller.key].result)))
            && (!hit && caller.key in s.inflight ==> u.callers[t].phase == Waits(s.inflight[caller.key]))
            && (!hit && caller.key !in s.inflight ==>
                  && u.callers[t].phase == Executes(s.nextCall) && u.inflight == s.inflight[caller.key := s.nextCall]
                  && u.calls == s.calls[s.nextCall := Call(caller.key, t, s.clock, None)])
            && (hit || caller.key in s.inflight ==> u.calls == s.calls && u.inflight == s.inflight)
            && u.cache == if hit then s.cache else s.cache - {caller.key}
  {
  }

  // Whoever asks later: enters and looks up.
  function Asks(wait: nat, u: nat, key: string): seq<Action> { [ATick(wait), AEnter(u, key), ALookup(u)] }

  lemma Asked(s: State, wait: nat, u: nat, key: string)
    requires u !in s.callers && key != ""
    ensures Run(s, Asks(wait, u, key))
         == Step(s.(clock := s.clock + wait, callers := s.callers[u := Caller(key, s.clock + wait, s.clock + wait, Entered)]), ALookup(u))
  {
    hide Step;
    RunMore(s, [], ATick(wait));
    RunMore(s, [ATick(wait)], AEnter(u, key));
    RunMore(s, [ATick(wait), AEnter(u, key)], ALookup(u));
    assert [] + [ATick(wait)] == [ATick(wait)] && [ATick(wait)] + [AEnter(u, key)] == [ATick(wait), AEnter(u, key)];
    assert [ATick(wait), AEnter(u, key)] + [ALookup(u)] == Asks(wait, u, key);
    TickedAndEntered(s, wait, u, key);
  }

  lemma TickedAndEntered(s: State, wait: nat, u: nat, key: string)
    requires u !in s.callers && key != ""
    ensures Step(Step(s, ATick(wait)), AEnter(u, key))
         == s.(clock := s.clock + wait, callers := s.callers[u := Caller(key, s.clock + wait, s.clock + wait, Entered)])
  {
  }

  // A success with room for it in the cache is served to whoever asks within the ttl, without
  // another execution; whoever asks later executes anew.
  lemma SuccessIsServedAgain(s: State, t: nat, result: nat, d: nat, wait: nat, u: nat)
    requires Inv(s) && t in s.callers && s.callers[t].phase.Executes? && u !in s.callers
    requires s.ttl > 0 && (s.maxEntries <= 0 || |s.cache| < s.maxEntries)
    ensures var key, c := s.callers[t].key, s.callers[t].phase.c;
            var kept := s.cache[key := Entry(c, result, s.clock + s.ttl, s.clock + d)];
            var v := Run(Step(s, AFinish(t, Success(result), d, kept)), Asks(wait, u, key));
            && u in v.callers
            && (d + wait < s.ttl ==> v.callers[u].phase == Returned(c, Success(result)) && v.calls.Keys == s.calls.Keys)
            && (d + wait >= s.ttl ==> v.callers[u].phase == Executes(s.nextCall))
  {
    var key, c := s.callers[t].key, s.callers[t].phase.c;
    var kept := s.cache[key := Entry(c, result, s.clock + s.ttl, s.clock + d)];
    NotCachedWhileExecuting(s, t);
    KeysAreNamed(s, t);
    hide Inv, Run;
    SuccessIsStored(s, t, result, d);
    hide Step, Asks;
    var v := Step(s, AFinish(t, Success(result), d, kept));
    Asked(v, wait, u, key);
    LookupExactlyWhen(v.(clock := v.clock + wait, callers := v.callers[u := Caller(key, v.clock + wait, v.clock + wait, Entered)]), u);
  }

  lemma NotCachedWhileExecuting(s: State, t: nat)
    requires Inv(s) && t in s.callers && s.callers[t].phase.Executes?
    ensures s.callers[t].phase.c in s.calls && s.callers[t].key !in s.cache
    ensures s.callers[t].key in s.inflight && s.inflight[s.callers[t].key] == s.callers[t].phase.c
  {
    CallerAt(s, t);
  }

  lemma SuccessIsStored(s: State, t: nat, result: nat, d: nat)
    requires t in s.callers && s.callers[t].phase.Executes? && s.callers[t].phase.c in s.calls
    requires s.callers[t].key !in s.cache && s.ttl > 0 && (s.maxEntries <= 0 || |s.cache| < s.maxEntries)
    ensures var key, c := s.callers[t].key, s.callers[t].phase.c;
            var kept := s.cache[key := Entry(c, result, s.clock + s.ttl, s.clock + d)];
            var v := Step(s, AFinish(t, Success(result), d, kept));
            && v.cache == kept && v.inflight == s.inflight - {key} && v.clock == s.clock + d && v.ttl == s.ttl
            && v.calls.Keys == s.calls.Keys && v.callers.Keys == s.callers.Keys && v.nextCall == s.nextCall
  {
    var key, c := s.callers[t].key, s.callers[t].phase.c;
    var kept := s.cache[key := Entry(c, result, s.clock + s.ttl, s.clock + d)];
    assert kept.Keys == s.cache.Keys + {key};
  }

  // A failure, a result that is nil, or any result without a ttl is not kept: the next caller
  // executes anew.
  lemma OthersAreNotServedAgain(s: State, t: nat, outcome: Outcome, d: nat, wait: nat, u: nat)
    requires Inv(s) && t in s.callers && s.callers[t].phase.Executes? && u !in s.callers
    requires !outcome.Success? || s.ttl <= 0
    ensures var v := Run(Step(s, AFinish(t, outcome, d, s.cache)), Asks(wait, u, s.callers[t].key));
            u in v.callers && v.callers[u].phase == Executes(s.nextCall) && v.cache == s.cache
  {
    var key := s.callers[t].key;
    NotCachedWhileExecuting(s, t);
    NothingToTrim(s);
    KeysAreNamed(s, t);
    hide Inv, Run, Trimmed;
    NothingIsStored(s, t, outcome, d);
    hide Step, Asks;
    var v := Step(s, AFinish(t, outcome, d, s.cache));
    Asked(v, wait, u, key);
    LookupExactlyWhen(v.(clock := v.clock + wait, callers := v.callers[u := Caller(key, v.clock + wait, v.clock + wait, Entered)]), u);
    assert s.cache - {key} == s.cache;
  }

  lemma NothingIsStored(s: State, t: nat, outcome: Outcome, d: nat)
    requires t in s.callers && s.callers[t].phase.Executes? && s.callers[t].phase.c in s.calls
    requires (!outcome.Success? || s.ttl <= 0) && Trimmed(s.cache, s.cache, s.maxEntries)
    ensures var v := Step(s, AFinish(t, outcome, d, s.cache));
            && v.cache == s.cache && v.inflight == s.inflight - {s.callers[t].key} && v.clock == s.clock + d && v.ttl == s.ttl
            && v.callers.Keys == s.callers.Keys && v.nextCall == s.nextCall
  {
    hide Trimmed;
  }

  // Whoever waits for an execution, and whoever runs it, is given what it came to.
  lemma WaiterGetsTheOutcome(s: State, t: nat, w: nat, outcome: Outcome, d: nat)
    requires Inv(s) && t in s.callers && s.callers[t].phase.Executes?
    requires w in s.callers && s.callers[w].phase == Waits(s.callers[t].phase.c)
    requires !outcome.Success? || s.ttl <= 0 || s.maxEntries <= 0 || |s.cache| < s.maxEntries
    ensures var key, c := s.callers[t].key, s.callers[t].phase.c;
            var kept := if outcome.Success? && s.ttl > 0
                        then s.cache[key := Entry(c, outcome.result, s.clock + s.ttl, s.clock + d)] else s.cache;
            var v := Step(Step(s, AFinish(t, outcome, d, kept)), AWake(w));
            && t in v.callers && v.callers[t].phase == Returned(c, outcome)
            && w in v.callers && v.callers[w].phase == Returned(c, outcome)
  {
    var key, c := s.callers[t].key, s.callers[t].phase.c;
    var kept := if outcome.Success? && s.ttl > 0
                then s.cache[key := Entry(c, outcome.result, s.clock + s.ttl, s.clock + d)] else s.cache;
    NotCachedWhileExecuting(s, t);
    NothingToTrim(s);
    hide Inv, Step, Trimmed;
    RoomMeansKept(s, kept, key);
    OutcomeIsHandedOut(s, t, w, outcome, d, kept);
  }

  // A waiter whose context ends leaves alone; the execution goes on.
  lemma WaiterGivesUp(s: State, w: nat)
    requires w in s.callers && s.callers[w].phase.Waits?
    ensures Step(s, AGiveUp(w)) == s.(callers := s.callers[w := s.callers[w].(phase := GaveUp)])
  {
  }

  lemma RoomMeansKept(s: State, kept: map<string, Entry>, key: string)
    requires Trimmed(s.cache, s.cache, s.maxEntries)
    requires kept == s.cache || (key in kept && key !in s.cache && kept - {key} == s.cache && (s.maxEntries <= 0 || |s.cache| < s.maxEntries))
    ensures Trimmed(kept, kept, s.maxEntries)
  {
    if kept != s.cache {
      assert kept.Keys == s.cache.Keys + {key} by {
        forall k ensures k in kept <==> k in s.cache || k == key {
          assert k in s.cache <==> k in kept - {key};
        }
      }
    }
  }

  lemma OutcomeIsHandedOut(s: State, t: nat, w: nat, outcome: Outcome, d: nat, kept: map<string, Entry>)
    requires t in s.callers && s.callers[t].phase.Executes? && s.callers[t].phase.c in s.calls
    requires w in s.callers && s.callers[w].phase == Waits(s.callers[t].phase.c)
    requires Trimmed(kept, kept, s.maxEntries)
    requires kept == if outcome.Success? && s.ttl > 0
                     then s.cache[s.callers[t].key := Entry(s.callers[t].phase.c, outcome.result, s.clock + s.ttl, s.clock + d)]
                     else s.cache
    ensures var v := Step(Step(s, AFinish(t, outcome, d, kept)), AWake(w));
            && t in v.callers && v.callers[t].phase == Returned(s.callers[t].phase.c, outcome)
            && w in v.callers && v.callers[w].phase == Returned(s.callers[t].phase.c, outcome)
  {
    hide Trimmed;
  }

  // ----- the coordinator with its fields

  // What surrounds the fields: the clock, the executions and the callers.
  datatype Runtime = Runtime(clock: int, calls: map<nat, Call>, callers: map<nat, Caller>)

  lemma KeysAreNamed(s: State, t: nat)
    requires Inv(s) && t in s.callers
    ensures s.callers[t].key != "" && "" !in s.cache
  {
  }

  lemma NothingToTrim(s: State)
    requires Inv(s)
    ensures Trimmed(s.cache, s.cache, s.maxEntries)
  {
  }

  lemma Finishes(s: State, t: nat, outcome: Outcome, d: nat, trimmed: map<string, Entry>)
    requires Running(s, t) && s.callers[t].phase.c in s.calls
    requires Trimmed(WithResult(s, s.callers[t].key, s.callers[t].phase.c, outcome, d), trimmed, s.maxEntries)
    ensures var u := Finish(s, t, outcome, d, trimmed);
            var c := s.callers[t].phase.c;
            && u == s.(clock := s.clock + d, inflight := s.inflight - {s.callers[t].key}, cache := u.cache,
                       calls := Ended(s.calls, c, outcome, s.clock), callers := Becomes(s, t, Returned(c, outcome)))
            && u.cache == if Stored(s, outcome) then trimmed else s.cache
  {
    hide Trimmed;
  }

  class SharedToolCoordinator {
    const cacheTTL: int
    const maxEntries: int
    var cache: map<string, Entry>
    var inflight: map<string, nat>
    var nextCall: nat
    ghost var rt: Runtime

    ghost function View(): State
      reads this
    {
      State(cacheTTL, maxEntries, rt.clock, cache, inflight, rt.calls, nextCall, rt.callers)
    }

    ghost predicate Valid()
      reads this
    {
      Inv(View())
    }

    constructor (cacheTTL: int, maxEntries: int)
      ensures Valid() && View() == Init(cacheTTL, maxEntries)
    {
      this.cacheTTL, this.maxEntries, cache, inflight, nextCall := cacheTTL, maxEntries, map[], map[], 0;
      rt := Runtime(0, map[], map[]);
      new;
      RunKeeps(Init(cacheTTL, maxEntries), []);
    }

    // execute under the lock, up to the point where it returns, waits or runs fn itself.
    method Enter(ghost t: nat, key: string, now: int) returns (hit: Option<nat>, wait: Option<nat>)
      requires Valid() && In(View(), t) && rt.callers[t].key == key && rt.callers[t].readAt == now
      modifies this
      ensures Valid() && View() == Lookup(old(View()), t)
      ensures hit.Some? <==> Usable(cacheTTL, old(cache), key, now)
      ensures hit.Some? ==> hit.value == old(cache)[key].result
      ensures hit.None? ==> wait == if key in old(inflight) then Some(old(inflight)[key]) else None
    {
      hide Inv;
      LookupKeeps(View(), t);
      rt := rt.(callers := rt.callers[t := rt.callers[t].(lookedUpAt := rt.clock)]);
      if key in cache {
        var entry := cache[key];
        if cacheTTL > 0 && now < entry.expiresAt {
          rt := rt.(callers := Becomes(View(), t, Returned(entry.src, Success(entry.result))));
          return Some(entry.result), None;
        }
      }
      cache := cache - {key};
      if key in inflight {
        rt := rt.(callers := Becomes(View(), t, Waits(inflight[key])));
        return None, Some(inflight[key]);
      }
      rt := rt.(calls := rt.calls[nextCall := Call(key, t, rt.clock, None)], callers := Becomes(View(), t, Executes(nextCall)));
      inflight := inflight[key := nextCall];
      nextCall := nextCall + 1;
      return None, None;
    }

    // What execute does with the result of fn; the two clock readings are d apart.
    method Leave(ghost t: nat, key: string, c: nat, outcome: Outcome, ghost d: nat, expiryClock: int, createdClock: int)
      requires Valid() && Running(View(), t) && rt.callers[t].key == key && rt.callers[t].phase.c == c && c in rt.calls
      requires expiryClock == rt.clock && createdClock == rt.clock + d
      modifies this
      ensures Valid() && View() == Finish(old(View()), t, outcome, d, cache)
    {
      hide Inv, Trimmed, Finish;
      ghost var before := View();
      KeysAreNamed(before, t);
      NothingToTrim(before);
      inflight := inflight - {key};
      if outcome.Success? && cacheTTL > 0 {
        cache := cache[key := Entry(c, outcome.result, expiryClock + cacheTTL, createdClock)];
        TrimCacheLocked();
      }
      FinishKeeps(before, t, outcome, d, cache);
      Finishes(before, t, outcome, d, cache);
      rt := Runtime(rt.clock + d, rt.calls[c := rt.calls[c].(ending := Some(Ending(outcome, rt.clock)))],
                    Becomes(before, t, Returned(c, outcome)));
    }

    // Evicts an oldest entry as long as there are too many. Keys contain a colon, so the
    // guard against an empty oldest key never ends the loop early.
    method TrimCacheLocked()
      requires "" !in cache
      modifies this`cache
      ensures Trimmed(old(cache), cache, maxEntries)
    {
      if maxEntries <= 0 {
        return;
      }
      while |cache| > maxEntries
        invariant "" !in cache && |cache| >= Min(maxEntries, |old(cache)|)
        invariant forall key <- cache :: key in old(cache) && cache[key] == old(cache)[key]
        invariant forall gone, kept :: gone in old(cache) && gone !in cache && kept in cache ==>
                    old(cache)[gone].createdAt <= cache[kept].createdAt
        decreases |cache|
      {
        var oldestKey := Oldest(cache);
        if oldestKey == "" {
          return;
        }
        assert cache.Keys == (cache - {oldestKey}).Keys + {oldestKey};
        cache := cache - {oldestKey};
      }
    }
  }

  function Min(a: int, b: int): int { if a <= b then a else b }

  // The inner loop of trimCacheLocked.
  method Oldest(cache: map<string, Entry>) returns (oldestKey: string)
    requires cache != map[]
    ensures oldestKey in cache
    ensures forall key <- cache :: cache[oldestKey].createdAt <= cache[key].createdAt
  {
    oldestKey := "";
    var oldestTime := 0;
    var first := true;
    var todo := cache.Keys;
    while todo != {}
      invariant todo <= cache.Keys && (first <==> todo == cache.Keys)
      invariant !first ==> oldestKey in cache && cache[oldestKey].createdAt == oldestTime
      invariant forall key <- cache :: key !in todo ==> oldestTime <= cache[key].createdAt
      decreases |todo|
    {
      var key :| key in todo;
      todo := todo - {key};
      if first || cache[key].createdAt < oldestTime {
        oldestKey := key;
        oldestTime := cache[key].createdAt;
        first := false;
      }
    }
  }
}

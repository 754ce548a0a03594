/**
 The restart window and its backoff (internal/supervisor/restart_policy.go). Times are
 nanoseconds; the clock does not run back.
*/
module RestartTracker {

  const WINDOW := 300_000_000_000      // five minutes
  const MAX_INT64 := 0x7FFF_FFFF_FFFF_FFFF

  type Duration = d: int | -MAX_INT64 - 1 <= d <= MAX_INT64

  // `commits` is a history variable: the time of every restart ever committed.
  datatype Tracker = Tracker(
    limit: int, base: Duration, maxDelay: Duration, initial: bool, attempts: seq<int>, total: nat,
    commits: seq<int>, clock: int)

  function New(limit: int, base: Duration, maxDelay: Duration, clock: int): Tracker {
    Tracker(limit, base, maxDelay, false, [], 0, [], clock)
  }

  function Pruned(attempts: seq<int>, now: int): seq<int> {
    if attempts != [] && now - attempts[0] >= WINDOW then Pruned(attempts[1..], now) else attempts
  }

  // One call: BeforeStart reads the clock, sleeps, and reads the clock again; Count reads it once.
  datatype Call = BeforeStart(now: int, slept: bool, later: int) | Count(now: int)

  predicate InTime(t: Tracker, c: Call) { t.clock <= c.now && (c.BeforeStart? ==> c.now <= c.later) }

  predicate Refused(t: Tracker, now: int) { |Pruned(t.attempts, now)| >= t.limit }

  function Step(t: Tracker, c: Call): Tracker {
    match c
    case Count(now) => t.(attempts := Pruned(t.attempts, now), clock := now)
    case BeforeStart(now, slept, later) =>
      if !t.initial then t.(initial := true, clock := later)
      else if Refused(t, now) then t.(attempts := Pruned(t.attempts, now), clock := later)
      else if !slept then t.(attempts := Pruned(t.attempts, now), clock := later)
      else t.(attempts := Pruned(t.attempts, now) + [later], total := t.total + 1,
              commits := t.commits + [later], clock := later)
  }

  // A run; a call that would turn the clock back does not happen.
  function Run(t: Tracker, calls: seq<Call>): Tracker
    decreases |calls|
  {
    if calls == [] then t
    else if InTime(t, calls[0]) then Run(Step(t, calls[0]), calls[1..])
    else Run(t, calls[1..])
  }

  predicate Ascending(s: seq<int>) { forall i, j :: 0 <= i < j < |s| ==> s[i] <= s[j] }

  // How many of the commits are younger than five minutes.
  function Recent(commits: seq<int>, now: int): nat {
    if commits == [] then 0
    else Recent(commits[..|commits| - 1], now) + if now - commits[|commits| - 1] < 300_000_000_000 then 1 else 0
  }

  // The commits before index k are a window old at time clock.
  predicate Old(commits: seq<int>, k: int, clock: int) {
    forall i :: 0 <= i < k && i < |commits| ==> commits[i] + WINDOW <= clock
  }

  predicate Past(commits: seq<int>, clock: int) { forall i :: 0 <= i < |commits| ==> commits[i] <= clock }

  ghost predicate Spaced(commits: seq<int>, limit: nat) {
    forall i, j :: 0 <= i && j == i + limit && j < |commits| ==> commits[j] - commits[i] >= WINDOW
  }

  // The remembered attempts are the newest commits, and every forgotten one has left the window.
  ghost predicate Inv(t: Tracker) {
    && Ascending(t.commits) && Past(t.commits, t.clock)
    && |t.attempts| <= |t.commits| == t.total
    && t.attempts == t.commits[|t.commits| - |t.attempts|..]
    && Old(t.commits, |t.commits| - |t.attempts|, t.clock)
    && (if t.limit >= 0 then Spaced(t.commits, t.limit) else t.commits == [])
  }

  // Pruning forgets exactly the attempts that have left the window.
  lemma {:induction false} PrunedIsSuffix(attempts: seq<int>, now: int)
    requires Ascending(attempts)
    ensures var p := Pruned(attempts, now);
            && |p| <= |attempts| && p == attempts[|attempts| - |p|..]
            && (forall i :: 0 <= i < |attempts| - |p| ==> now - attempts[i] >= WINDOW)
            && (forall i :: |attempts| - |p| <= i < |attempts| ==> now - attempts[i] < WINDOW)
    decreases |attempts|
  {
    if attempts != [] && now - attempts[0] >= WINDOW {
      PrunedIsSuffix(attempts[1..], now);
    }
  }

  lemma PruneKeeps(t: Tracker, now: int, clock: int)
    requires Inv(t) && t.clock <= now <= clock
    ensures var p := Pruned(t.attempts, now);
            && Inv(t.(attempts := p, clock := clock))
            && |p| <= |t.commits| && Old(t.commits, |t.commits| - |p|, now)
            && |p| == Recent(t.commits, now)
  {
    hide Spaced, Old, Past, Ascending, Pruned, Recent;
    Later(t.commits, |t.commits| - |t.attempts|, t.clock, now);
    PrunedCommits(t.commits, t.attempts, now);
    Later(t.commits, |t.commits| - |Pruned(t.attempts, now)|, now, clock);
    Later(t.commits, 0, t.clock, clock);
  }

  lemma PrunedCommits(commits: seq<int>, attempts: seq<int>, now: int)
    requires Ascending(commits) && |attempts| <= |commits| && attempts == commits[|commits| - |attempts|..]
    requires Old(commits, |commits| - |attempts|, now)
    ensures var p := Pruned(attempts, now);
            && |p| <= |commits| && p == commits[|commits| - |p|..]
            && Old(commits, |commits| - |p|, now) && |p| == Recent(commits, now)
  {
    hide Old, Ascending, Pruned, Recent;
    var k := |commits| - |attempts|;
    SuffixAscending(commits, k);
    PrunedIsSuffix(attempts, now);
    SuffixOfSuffix(commits, k, |attempts| - |Pruned(attempts, now)|, now);
    RecentIsSuffix(commits, |commits| - |Pruned(attempts, now)|, now);
  }

  lemma Later(commits: seq<int>, k: int, clock: int, later: int)
    requires clock <= later
    ensures Old(commits, k, clock) ==> Old(commits, k, later)
    ensures Past(commits, clock) ==> Past(commits, later)
  {
  }

  lemma SuffixAscending(commits: seq<int>, k: nat)
    requires Ascending(commits) && k <= |commits|
    ensures Ascending(commits[k..])
  {
  }

  lemma SuffixOfSuffix(commits: seq<int>, k: nat, m: nat, now: int)
    requires k + m <= |commits| && Old(commits, k, now)
    requires forall i :: 0 <= i < m ==> now - commits[k..][i] >= WINDOW
    requires forall i :: m <= i < |commits| - k ==> now - commits[k..][i] < WINDOW
    ensures commits[k..][m..] == commits[k + m..] && Old(commits, k + m, now)
    ensures forall i :: k + m <= i < |commits| ==> now - commits[i] < WINDOW
  {
    forall i | k <= i < |commits| ensures commits[i] == commits[k..][i - k] {
    }
  }

  lemma {:induction false} RecentIsSuffix(commits: seq<int>, left: nat, now: int)
    requires left <= |commits|
    requires Old(commits, left, now)
    requires forall i :: left <= i < |commits| ==> now - commits[i] < WINDOW
    ensures Recent(commits, now) == |commits| - left
    decreases |commits|
  {
    if commits != [] {
      var init := commits[..|commits| - 1];
      RecentIsSuffix(init, if left == |commits| then left - 1 else left, now);
    }
  }

  lemma StepKeeps(t: Tracker, c: Call)
    requires Inv(t) && InTime(t, c)
    ensures Inv(Step(t, c))
  {
    hide Inv;
    match c
    case Count(now) => PruneKeeps(t, now, now);
    case BeforeStart(now, slept, later) =>
      if !t.initial {
        LaterKeeps(t, later);
      } else {
        PruneKeeps(t, now, later);
        if !Refused(t, now) && slept {
          CommitKeeps(t.(attempts := Pruned(t.attempts, now), clock := later), now);
        }
      }
  }

  lemma LaterKeeps(t: Tracker, later: int)
    requires Inv(t) && t.clock <= later
    ensures Inv(t.(initial := true, clock := later))
  {
  }

  // Below the limit there is room: the commit limit places back has left the window.
  lemma CommitKeeps(t: Tracker, now: int)
    requires Inv(t) && |t.attempts| < t.limit && now <= t.clock && Old(t.commits, |t.commits| - |t.attempts|, now)
    ensures Inv(t.(attempts := t.attempts + [t.clock], total := t.total + 1, commits := t.commits + [t.clock]))
  {
    var commits := t.commits + [t.clock];
    forall i, j | 0 <= i && j == i + t.limit && j < |commits| ensures commits[j] - commits[i] >= WINDOW {
      if j < |t.commits| {
        assert commits[j] == t.commits[j] && commits[i] == t.commits[i];
      }
    }
  }

  lemma {:induction false} RunKeeps(t: Tracker, calls: seq<Call>)
    requires Inv(t)
    ensures Inv(Run(t, calls)) && Run(t, calls).limit == t.limit
    decreases |calls|
  {
    if calls != [] {
      if InTime(t, calls[0]) {
        StepKeeps(t, calls[0]);
        RunKeeps(Step(t, calls[0]), calls[1..]);
      } else {
        RunKeeps(t, calls[1..]);
      }
    }
  }

  // Whatever mix of starts, cancelled sleeps and counts: any limit + 1 consecutive committed
  // restarts span at least five minutes.
  lemma RestartsAreSpaced(limit: int, base: Duration, maxDelay: Duration, clock: int, calls: seq<Call>, i: nat)
    requires limit >= 0 && i + limit < |Run(New(limit, base, maxDelay, clock), calls).commits|
    ensures var commits := Run(New(limit, base, maxDelay, clock), calls).commits;
            commits[i + limit] - commits[i] >= 300_000_000_000
  {
    RunKeeps(New(limit, base, maxDelay, clock), calls);
  }

  // A start is refused exactly when the window already holds the limit, so no restart that
  // the spacing would permit is refused, and Count tells exactly how many the window holds.
  lemma RefusedExactlyAtTheLimit(limit: int, base: Duration, maxDelay: Duration, clock: int, calls: seq<Call>, now: int)
    requires Run(New(limit, base, maxDelay, clock), calls).clock <= now
    ensures var t := Run(New(limit, base, maxDelay, clock), calls);
            && |Pruned(t.attempts, now)| == Recent(t.commits, now)
            && (Refused(t, now) <==> Recent(t.commits, now) >= limit)
  {
    RunKeeps(New(limit, base, maxDelay, clock), calls);
    PruneKeeps(Run(New(limit, base, maxDelay, clock), calls), now, now);
  }

  // The initial launch is never counted. A later start is committed exactly if its sleep was
  // not cut short and fewer than the limit were committed in the last five minutes.
  lemma CommittedExactlyWhen(
    limit: int, base: Duration, maxDelay: Duration, clock: int, calls: seq<Call>, now: int, slept: bool, later: int)
    requires Run(New(limit, base, maxDelay, clock), calls).clock <= now <= later
    ensures var t := Run(New(limit, base, maxDelay, clock), calls);
            var u := Step(t, BeforeStart(now, slept, later));
            && u.initial
            && u.commits == (if t.initial && slept && Recent(t.commits, now) < limit then t.commits + [later] else t.commits)
            && (!t.initial ==> u.attempts == t.attempts)
            && u.total == |u.commits|
  {
    RunKeeps(New(limit, base, maxDelay, clock), calls);
    hide Inv, Pruned, Recent, Run;
    var t := Run(New(limit, base, maxDelay, clock), calls);
    PruneKeeps(t, now, now);
    CommitsAreCounted(t);
  }

  lemma CommitsAreCounted(t: Tracker)
    requires Inv(t)
    ensures t.total == |t.commits|
  {
  }

  // ----- backoff

  function Pow2(n: nat): nat { if n == 0 then 1 else 2 * Pow2(n - 1) }

  function Min(a: int, b: int): int { if a <= b then a else b }

  // The delay before the restart after `attempt` remembered ones.
  function Delay(base: int, maxDelay: int, attempt: nat): int {
    if base <= 0 || maxDelay <= 0 then 0 else Min(base * Pow2(attempt), maxDelay)
  }

  lemma {:induction false} Pow2Grows(base: int, i: nat, n: nat)
    requires base > 0 && i <= n
    ensures base * Pow2(i) <= base * Pow2(n)
    decreases n
  {
    if i < n {
      Pow2Grows(base, i, n - 1);
      DoubleStep(base, n - 1);
    }
  }

  lemma DoubleStep(base: int, n: nat)
    requires base > 0
    ensures base * Pow2(n + 1) == 2 * (base * Pow2(n))
    ensures base * Pow2(n) > 0
  {
    Pow2Positive(n);
  }

  lemma {:induction false} Pow2Positive(n: nat)
    ensures Pow2(n) >= 1
  {
    if n > 0 {
      Pow2Positive(n - 1);
    }
  }

  // The loop never leaves the int64 range, and what it holds is at most maxDelay whenever
  // base is.
  method Backoff(base: Duration, maxDelay: Duration, attempt: nat) returns (d: Duration)
    ensures d == Delay(base, maxDelay, attempt)
  {
    if base <= 0 || maxDelay <= 0 {
      return 0;
    }
    var delay: Duration := base;
    var i := 0;
    while i < attempt && delay < maxDelay
      invariant 0 <= i <= attempt && delay == base * Pow2(i)
      invariant base <= maxDelay ==> delay <= maxDelay
      decreases attempt - i
    {
      DoubleStep(base, i);
      if delay > maxDelay / 2 {
        Pow2Grows(base, i + 1, attempt);
        return maxDelay;
      }
      delay := delay * 2;
      i := i + 1;
    }
    Pow2Grows(base, i, attempt);
    if delay > maxDelay {
      return maxDelay;
    }
    return delay;
  }

  // ----- the tracker with its fields

  datatype Outcome = Started(delay: Duration) | LimitReached(limit: int, attempts: nat) | Cancelled

  class RestartTracker {
    const limit: int
    const base: Duration
    const maxDelay: Duration
    var initial: bool
    var attempts: seq<int>
    var total: nat
    ghost var commits: seq<int>
    ghost var clock: int

    ghost function View(): Tracker
      reads this
    {
      Tracker(limit, base, maxDelay, initial, attempts, total, commits, clock)
    }

    ghost predicate Valid()
      reads this
    {
      Inv(View())
    }

    constructor (limit: int, base: Duration, maxDelay: Duration, ghost now: int)
      ensures Valid() && View() == New(limit, base, maxDelay, now)
    {
      this.limit, this.base, this.maxDelay := limit, base, maxDelay;
      initial, attempts, total, commits, clock := false, [], 0, [], now;
    }

    method Prune(now: int)
      modifies this`attempts
      ensures attempts == Pruned(old(attempts), now)
    {
      var first := 0;
      while first < |attempts| && now - attempts[first] >= WINDOW
        invariant 0 <= first <= |attempts|
        invariant Pruned(attempts, now) == Pruned(attempts[first..], now)
      {
        first := first + 1;
      }
      if first > 0 {
        attempts := attempts[first..];
      } else {
        assert attempts[first..] == attempts;
      }
    }

    // One start; the lock is held through the sleep. The initial launch is free.
    method BeforeStart(now: int, slept: bool, later: int) returns (r: Outcome)
      requires Valid() && clock <= now <= later
      modifies this
      ensures Valid() && View() == Step(old(View()), Call.BeforeStart(now, slept, later))
      ensures !old(initial) ==> r == Started(0) && commits == old(commits)
      ensures old(initial) ==> (r.LimitReached? <==> Recent(old(commits), now) >= limit)
      ensures old(initial) && r.Started? ==>
                slept && r.delay == Delay(base, maxDelay, Recent(old(commits), now)) && commits == old(commits) + [later]
      ensures old(initial) && !r.Started? ==> commits == old(commits)
      ensures old(initial) && slept && Recent(old(commits), now) < limit ==> r.Started?
    {
      hide Inv;
      StepKeeps(View(), Call.BeforeStart(now, slept, later));
      PruneKeeps(View(), now, later);
      clock := later;
      if !initial {
        initial := true;
        return Started(0);
      }
      Prune(now);
      if |attempts| >= limit {
        return LimitReached(limit, |attempts|);
      }
      var delay := Backoff(base, maxDelay, |attempts|);
      if !slept {
        return Cancelled;
      }
      attempts := attempts + [later];
      total := total + 1;
      commits := commits + [later];
      return Started(delay);
    }

    method Count(now: int) returns (n: nat)
      requires Valid() && clock <= now
      modifies this
      ensures Valid() && View() == Step(old(View()), Call.Count(now))
      ensures n == Recent(commits, now)
    {
      hide Inv;
      StepKeeps(View(), Call.Count(now));
      PruneKeeps(View(), now, now);
      clock := now;
      Prune(now);
      return |attempts|;
    }
  }
}

/**
 The token bucket of internal/mcp/hardening.go: exact rate bounds over any sequence of calls.
 Times and intervals are nanoseconds.
*/
module TokenBucket {

  // Go's integer division truncates toward zero: what is left over is less than the divisor
  // and the product never lies beyond the dividend.
  function TruncDiv(a: int, b: int): (q: int)
    requires b > 0
    ensures a >= 0 ==> q >= 0 && 0 <= a - q * b < b
    ensures a < 0 ==> q <= 0 && -b < a - q * b <= 0
  {
    QuotientAndRest(a, b);
    QuotientAndRest(-a, b);
    if a >= 0 then a / b else -((-a) / b)
  }

  lemma QuotientAndRest(a: int, b: int)
    requires b > 0
    ensures 0 <= a - (a / b) * b < b && (a >= 0 ==> a / b >= 0) && (-(a / b)) * b == -((a / b) * b)
  {
    assert a == (a / b) * b + a % b;
  }

  datatype Bucket = Bucket(tokens: int, burst: int, interval: int, lastTime: int)

  function New(burst: int, interval: int, now: int): Bucket { Bucket(burst, burst, interval, now) }

  function Refill(b: Bucket, now: int): (r: Bucket)
    requires b.interval > 0
    ensures r.interval == b.interval && r.burst == b.burst
  {
    var refill := TruncDiv(now - b.lastTime, b.interval);
    if refill >= b.burst - b.tokens then b.(tokens := b.burst, lastTime := now)
    else b.(tokens := b.tokens + refill, lastTime := b.lastTime + refill * b.interval)
  }

  predicate Allows(b: Bucket, now: int)
    requires b.interval > 0
  {
    Refill(b, now).tokens > 0
  }

  function After(b: Bucket, now: int): (r: Bucket)
    requires b.interval > 0
    ensures r.interval == b.interval && r.burst == b.burst
  {
    var f := Refill(b, now);
    if f.tokens > 0 then f.(tokens := f.tokens - 1) else f
  }

  class Limiter {
    var tokens: int
    const burst: int
    const interval: int
    var lastTime: int

    ghost function View(): Bucket
      reads this
    {
      Bucket(tokens, burst, interval, lastTime)
    }

    constructor (burst: int, interval: int, now: int)
      ensures View() == New(burst, interval, now)
    {
      this.burst, this.interval, tokens, lastTime := burst, interval, burst, now;
    }

    method AllowAt(now: int) returns (ok: bool)
      requires interval > 0
      modifies this
      ensures View() == After(old(View()), now)
      ensures ok == Allows(old(View()), now)
    {
      var elapsed := now - lastTime;
      var refill := TruncDiv(elapsed, interval);
      if refill >= burst - tokens {
        tokens := burst;
        lastTime := now;
      } else {
        tokens := tokens + refill;
        lastTime := lastTime + refill * interval;
      }
      if tokens > 0 {
        tokens := tokens - 1;
        return true;
      }
      return false;
    }
  }

  // ----- sequences of calls

  // Calls at ts[0], ts[1], ... on a bucket made at time start; the clock does not run back.
  predicate Calls(start: int, ts: seq<int>) {
    && (ts != [] ==> start <= ts[0])
    && (forall i, j :: 0 <= i < j < |ts| ==> ts[i] <= ts[j])
  }

  // The bucket before call i.
  function At(b: Bucket, ts: seq<int>, i: nat): (r: Bucket)
    requires b.interval > 0 && i <= |ts|
    ensures r.interval == b.interval && r.burst == b.burst
  {
    if i == 0 then b else After(At(b, ts, i - 1), ts[i - 1])
  }

  predicate Granted(b: Bucket, ts: seq<int>, i: nat)
    requires b.interval > 0 && i < |ts|
  {
    Allows(At(b, ts, i), ts[i])
  }

  // How many of the calls i, ..., j - 1 were granted.
  function Grants(b: Bucket, ts: seq<int>, i: nat, j: nat): nat
    requires b.interval > 0 && i <= j <= |ts|
  {
    if i == j then 0 else Grants(b, ts, i, j - 1) + if Granted(b, ts, j - 1) then 1 else 0
  }

  lemma MulOrdered(a: int, c: int, d: int)
    requires a <= c && d > 0
    ensures a * d <= c * d
  {
  }

  lemma DivAdds(a: int, c: int, d: int)
    requires d > 0
    ensures a / d + c / d <= (a + c) / d <= a / d + c / d + 1
  {
    var qa, qc, q := a / d, c / d, (a + c) / d;
    assert a == qa * d + a % d && c == qc * d + c % d && a + c == q * d + (a + c) % d;
    assert (q - qa - qc) * d == a % d + c % d - (a + c) % d;
    if q - qa - qc <= -1 {
      MulOrdered(q - qa - qc, -1, d);
    } else if q - qa - qc >= 2 {
      MulOrdered(2, q - qa - qc, d);
    }
  }

  lemma DivShifts(a: int, r: int, d: int)
    requires d > 0
    ensures (a - r * d) / d == a / d - r
  {
    var q := a / d;
    assert a - r * d == (q - r) * d + a % d;
    DivUnique(a - r * d, q - r, a % d, d);
  }

  lemma DivUnique(a: int, q: int, rem: int, d: int)
    requires d > 0 && 0 <= rem < d && a == q * d + rem
    ensures a / d == q
  {
    var p := a / d;
    assert (p - q) * d == rem - a % d;
    if p - q >= 1 {
      MulOrdered(1, p - q, d);
    } else if p - q <= -1 {
      MulOrdered(p - q, -1, d);
    }
  }

  lemma DivMonotone(a: int, c: int, d: int)
    requires d > 0 && a <= c
    ensures a / d <= c / d
  {
    DivAdds(a, c - a, d);
    assert (c - a) / d >= 0;
  }

  // Before call i the bucket holds at most a burst and its clock is not ahead of the calls.
  lemma {:induction false} BucketBefore(b: Bucket, ts: seq<int>, i: nat)
    requires b.interval > 0 && b.tokens == b.burst && Calls(b.lastTime, ts) && i <= |ts|
    ensures var s := At(b, ts, i);
            && s.tokens <= s.burst && (s.burst >= 0 ==> s.tokens >= 0)
            && s.lastTime <= (if i == 0 then b.lastTime else ts[i - 1])
  {
    if i > 0 {
      BucketBefore(b, ts, i - 1);
      var s := At(b, ts, i - 1);
      RefillClock(s, ts[i - 1]);
    }
  }

  lemma RefillClock(s: Bucket, now: int)
    requires s.interval > 0 && s.lastTime <= now && s.tokens <= s.burst
    ensures var f := Refill(s, now);
            && f.lastTime <= now && f.tokens <= f.burst
            && (s.burst >= 0 && s.tokens >= 0 ==> f.tokens >= 0)
            && (f.tokens < f.burst ==> now < f.lastTime + s.interval)
  {
    var elapsed := now - s.lastTime;
    assert elapsed == (elapsed / s.interval) * s.interval + elapsed % s.interval;
  }

  // How many more calls a bucket can grant until time e.
  function Potential(s: Bucket, e: int): int
    requires s.interval > 0
  {
    s.tokens + (e - s.lastTime) / s.interval
  }

  // A refill never adds to the potential.
  lemma RefillPotential(s: Bucket, now: int, e: int)
    requires s.interval > 0 && s.lastTime <= now <= e && s.tokens <= s.burst
    ensures Potential(Refill(s, now), e) <= Potential(s, e)
    ensures Potential(Refill(s, now), e) <= s.burst + (e - now) / s.interval
  {
    var refill := (now - s.lastTime) / s.interval;
    DivAdds(now - s.lastTime, e - now, s.interval);
    if refill >= s.burst - s.tokens {
    } else {
      DivShifts(e - s.lastTime, refill, s.interval);
    }
  }

  // Every grant takes one from the potential.
  lemma {:induction false} GrantsSpendPotential(b: Bucket, ts: seq<int>, i: nat, j: nat, e: int)
    requires b.interval > 0 && b.tokens == b.burst && Calls(b.lastTime, ts) && i < j <= |ts| && ts[j - 1] <= e
    ensures Grants(b, ts, i, j) + Potential(At(b, ts, j), e) <= Potential(Refill(At(b, ts, i), ts[i]), e)
    decreases j
  {
    hide Refill;
    var f := Refill(At(b, ts, j - 1), ts[j - 1]);
    GrantSpends(b, ts, j, e);
    assert Grants(b, ts, i, j) == Grants(b, ts, i, j - 1) + if Granted(b, ts, j - 1) then 1 else 0;
    hide At, Grants, Granted, Potential;
    if j > i + 1 {
      GrantsSpendPotential(b, ts, i, j - 1, e);
      BucketBefore(b, ts, j - 1);
      RefillPotential(At(b, ts, j - 1), ts[j - 1], e);
    } else {
      assert Grants(b, ts, i, i) == 0;
    }
  }

  lemma GrantSpends(b: Bucket, ts: seq<int>, j: nat, e: int)
    requires b.interval > 0 && 0 < j <= |ts|
    ensures Potential(At(b, ts, j), e) + (if Granted(b, ts, j - 1) then 1 else 0)
            == Potential(Refill(At(b, ts, j - 1), ts[j - 1]), e)
  {
    hide Refill;
  }

  lemma {:induction false} NoBurstNoGrant(b: Bucket, ts: seq<int>, i: nat, j: nat)
    requires b.interval > 0 && b.tokens == b.burst && Calls(b.lastTime, ts) && i <= j <= |ts| && b.burst <= 0
    ensures Grants(b, ts, i, j) == 0
    decreases j
  {
    if i < j {
      NoBurstNoGrant(b, ts, i, j - 1);
      BucketBefore(b, ts, j - 1);
      RefillClock(At(b, ts, j - 1), ts[j - 1]);
    }
  }

  lemma PotentialLeft(b: Bucket, ts: seq<int>, j: nat, e: int)
    requires b.interval > 0 && b.tokens == b.burst >= 0 && Calls(b.lastTime, ts) && 0 < j <= |ts| && ts[j - 1] <= e
    ensures Potential(At(b, ts, j), e) >= 0
  {
    BucketBefore(b, ts, j);
    DivMonotone(0, e - At(b, ts, j).lastTime, b.interval);
  }

  // In any run, the calls made between times s and e are granted at most burst plus one per
  // full interval times.
  lemma GrantsInWindow(b: Bucket, ts: seq<int>, i: nat, j: nat, s: int, e: int)
    requires b.interval > 0 && b.tokens == b.burst && Calls(b.lastTime, ts) && i <= j <= |ts|
    requires s <= e && forall k :: i <= k < j ==> s <= ts[k] <= e
    ensures Grants(b, ts, i, j) <= (if b.burst > 0 then b.burst else 0) + (e - s) / b.interval
  {
    DivMonotone(0, e - s, b.interval);
    if b.burst <= 0 {
      NoBurstNoGrant(b, ts, i, j);
    } else if i < j {
      WindowFromFirstCall(b, ts, i, j, e);
      DivMonotone(e - ts[i], e - s, b.interval);
    }
  }

  lemma WindowFromFirstCall(b: Bucket, ts: seq<int>, i: nat, j: nat, e: int)
    requires b.interval > 0 && b.tokens == b.burst > 0 && Calls(b.lastTime, ts) && i < j <= |ts| && ts[j - 1] <= e
    ensures Grants(b, ts, i, j) <= b.burst + (e - ts[i]) / b.interval
  {
    hide At, Grants, Refill, Potential;
    GrantsSpendPotential(b, ts, i, j, e);
    PotentialLeft(b, ts, j, e);
    BucketBefore(b, ts, i);
    RefillPotential(At(b, ts, i), ts[i], e);
  }

  // A call at least one interval after the previous one, like the first call, is granted.
  lemma PacedCallIsGranted(b: Bucket, ts: seq<int>, i: nat)
    requires b.interval > 0 && b.tokens == b.burst > 0 && Calls(b.lastTime, ts) && i < |ts|
    requires i > 0 ==> ts[i] - ts[i - 1] >= b.interval
    ensures Granted(b, ts, i)
  {
    BucketBefore(b, ts, i);
    var s := At(b, ts, i);
    if i > 0 {
      DivMonotone(b.interval, ts[i] - s.lastTime, b.interval);
    }
  }

  // The bucket's clock stands `k` intervals after call i, which found it full, and it holds
  // what it has been given since minus what it has granted.
  predicate SinceFull(s: Bucket, from: int, k: int, grants: int) {
    s.lastTime == from + k * s.interval && s.tokens == s.burst + k - grants
  }

  lemma SinceFullRefills(s: Bucket, from: int, k: int, grants: int, now: int)
    requires s.interval > 0 && SinceFull(s, from, k, grants)
    requires TruncDiv(now - s.lastTime, s.interval) < s.burst - s.tokens
    ensures SinceFull(Refill(s, now), from, k + TruncDiv(now - s.lastTime, s.interval), grants)
    ensures Refill(s, now).tokens < s.burst == Refill(s, now).burst
  {
    var refill := TruncDiv(now - s.lastTime, s.interval);
    assert (k + refill) * s.interval == k * s.interval + refill * s.interval;
  }

  // At call j there is a call i <= j that found the bucket full; what the refill of call j
  // leaves is counted from there.
  lemma {:induction false} LastFull(b: Bucket, ts: seq<int>, j: nat) returns (i: nat, k: nat)
    requires b.interval > 0 && b.tokens == b.burst && Calls(b.lastTime, ts) && j < |ts|
    ensures i <= j
    ensures var f := Refill(At(b, ts, j), ts[j]);
            && SinceFull(f, ts[i], k, Grants(b, ts, i, j))
            && (f.tokens >= f.burst ==> i == j && k == 0)
    decreases j
  {
    hide SinceFull, Refill;
    var s := At(b, ts, j);
    BucketBefore(b, ts, j);
    RefillIsNonneg(s, ts[j]);
    var refill := TruncDiv(ts[j] - s.lastTime, s.interval);
    if refill >= s.burst - s.tokens {
      i, k := j, 0;
      FullNow(s, ts[j]);
    } else {
      hide At, Grants, TruncDiv;
      var before;
      i, before := LastFull(b, ts, j - 1);
      k := before + refill;
      CallCounted(b, ts, i, before, j);
      SinceFullRefills(s, ts[i], before, Grants(b, ts, i, j), ts[j]);
    }
  }

  lemma RefillIsNonneg(s: Bucket, now: int)
    requires s.interval > 0 && s.lastTime <= now
    ensures TruncDiv(now - s.lastTime, s.interval) >= 0
  {
  }

  lemma CallCounted(b: Bucket, ts: seq<int>, i: nat, k: int, j: nat)
    requires b.interval > 0 && i < j <= |ts|
    requires SinceFull(Refill(At(b, ts, j - 1), ts[j - 1]), ts[i], k, Grants(b, ts, i, j - 1))
    ensures SinceFull(At(b, ts, j), ts[i], k, Grants(b, ts, i, j))
  {
    hide Refill;
    assert At(b, ts, j) == After(At(b, ts, j - 1), ts[j - 1]);
  }

  lemma FullNow(s: Bucket, now: int)
    requires s.interval > 0 && TruncDiv(now - s.lastTime, s.interval) >= s.burst - s.tokens
    ensures SinceFull(Refill(s, now), now, 0, 0)
  {
  }

  // The window from call i to call j has already had all the grants its length allows.
  predicate Spent(b: Bucket, ts: seq<int>, i: nat, j: nat)
    requires b.interval > 0 && i <= j < |ts|
  {
    Grants(b, ts, i, j) >= b.burst + (ts[j] - ts[i]) / b.interval
  }

  // The bucket refuses a call exactly when granting it would break the bound of
  // GrantsInWindow for some window that ends with the call: it never refuses without need.
  lemma RefusedExactlyAtTheBound(b: Bucket, ts: seq<int>, j: nat)
    requires b.interval > 0 && b.tokens == b.burst && Calls(b.lastTime, ts) && j < |ts|
    ensures !Granted(b, ts, j) <==> exists i: nat :: i <= j && Spent(b, ts, i, j)
  {
    hide Granted, Spent;
    if Granted(b, ts, j) {
      forall i: nat | i <= j ensures !Spent(b, ts, i, j) {
        GrantedIsNotSpent(b, ts, i, j);
      }
    } else {
      var i := RefusedIsSpent(b, ts, j);
    }
  }

  lemma GrantedIsNotSpent(b: Bucket, ts: seq<int>, i: nat, j: nat)
    requires b.interval > 0 && b.tokens == b.burst && Calls(b.lastTime, ts) && i <= j < |ts| && Granted(b, ts, j)
    ensures !Spent(b, ts, i, j)
  {
    hide At, Refill, Grants, Granted;
    OneMoreGrant(b, ts, i, j);
    GrantNeedsBurst(b, ts, j);
    GrantsInWindow(b, ts, i, j + 1, ts[i], ts[j]);
  }

  lemma OneMoreGrant(b: Bucket, ts: seq<int>, i: nat, j: nat)
    requires b.interval > 0 && i <= j < |ts| && Granted(b, ts, j)
    ensures Grants(b, ts, i, j + 1) == Grants(b, ts, i, j) + 1
  {
    hide Granted;
  }

  lemma GrantNeedsBurst(b: Bucket, ts: seq<int>, j: nat)
    requires b.interval > 0 && b.tokens == b.burst && Calls(b.lastTime, ts) && j < |ts| && Granted(b, ts, j)
    ensures b.burst > 0
  {
    hide At, Refill;
    BucketBefore(b, ts, j);
    RefillClock(At(b, ts, j), ts[j]);
  }

  lemma RefusedIsSpent(b: Bucket, ts: seq<int>, j: nat) returns (i: nat)
    requires b.interval > 0 && b.tokens == b.burst && Calls(b.lastTime, ts) && j < |ts| && !Granted(b, ts, j)
    ensures i <= j && Spent(b, ts, i, j)
  {
    hide At, Refill, SinceFull, Grants;
    var k;
    i, k := LastFull(b, ts, j);
    BucketBefore(b, ts, j);
    RefillClock(At(b, ts, j), ts[j]);
    AtTheBound(Refill(At(b, ts, j), ts[j]), ts[i], k, Grants(b, ts, i, j), ts[j]);
  }

  lemma AtTheBound(f: Bucket, from: int, k: nat, grants: nat, now: int)
    requires f.interval > 0 && SinceFull(f, from, k, grants) && f.tokens <= 0 && f.lastTime <= now
    requires f.tokens < f.burst ==> now < f.lastTime + f.interval
    requires f.tokens >= f.burst ==> from == now && k == 0
    ensures grants >= f.burst + (now - from) / f.interval
  {
    if f.tokens < f.burst {
      DivUnique(now - from, k, now - f.lastTime, f.interval);
    }
  }
}

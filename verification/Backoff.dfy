/** Capped exponential backoff between transient accept failures. */
module Backoff {
  import opened Types

  function Min(a: int, b: int): int { if a <= b then a else b }

  function Pow2(n: nat): nat { if n == 0 then 1 else 2 * Pow2(n - 1) }

  /** The delay after the `k`-th consecutive failure: the base doubled `k - 1` times, capped. */
  function RetryDelay(o: Options, k: nat): int {
    Min(o.errorBackoff * Pow2(if k == 0 then 0 else k - 1), o.maxErrorBackoff)
  }

  /** The delays after failures `1..n`. */
  function Delays(o: Options, n: nat): seq<int> {
    if n == 0 then [] else Delays(o, n - 1) + [RetryDelay(o, n)]
  }

  function Sum(s: seq<int>): int {
    if s == [] then 0 else Sum(s[..|s| - 1]) + s[|s| - 1]
  }

  /** The loop of `accept_retry_delay`. `formed` lists every value the variable
      `delay` holds, so its length is one more than the number of iterations. */
  method AcceptRetryDelay(o: Options, k: nat) returns (result: int, ghost formed: seq<int>)
    requires o.Valid()
    ensures result == RetryDelay(o, k)
    // no value above the cap is ever formed, so nothing overflows a count that holds the cap
    ensures forall v <- formed :: 0 <= v <= o.maxErrorBackoff
    // the iteration count is the least of k - 1 and the number of doublings that reach the cap
    ensures 1 <= |formed| <= if k == 0 then 1 else k
    ensures |formed| >= 2 ==> o.errorBackoff * Pow2(|formed| - 2) < o.maxErrorBackoff
    ensures |formed| < k ==> o.errorBackoff * Pow2(|formed| - 1) >= o.maxErrorBackoff
    // so with a positive base it is logarithmic however many failures there were
    ensures o.errorBackoff >= 1 ==> |formed| - 1 <= Log2(o.maxErrorBackoff / o.errorBackoff) + 1
  {
    var delay := o.errorBackoff;
    formed := [delay];
    var i := 1;
    while i < k && delay < o.maxErrorBackoff
      invariant 1 <= i && (k == 0 || i <= k) && (k == 0 ==> i == 1)
      invariant |formed| == i
      invariant 0 <= delay <= o.maxErrorBackoff
      invariant delay == Min(o.errorBackoff * Pow2(i - 1), o.maxErrorBackoff)
      invariant forall v <- formed :: 0 <= v <= o.maxErrorBackoff
      invariant i >= 2 ==> o.errorBackoff * Pow2(i - 2) < o.maxErrorBackoff
      decreases k - i
    {
      assert o.errorBackoff * Pow2(i) == 2 * (o.errorBackoff * Pow2(i - 1));
      if delay > o.maxErrorBackoff / 2 {
        delay := o.maxErrorBackoff;
      } else {
        delay := delay * 2;
      }
      formed := formed + [delay];
      i := i + 1;
    }
    if i < k { Saturates(o, i, k); }
    if o.errorBackoff >= 1 && i >= 2 { DoublingsBelowCap(o.errorBackoff, o.maxErrorBackoff, i - 2); }
    result := Min(delay, o.maxErrorBackoff);
  }

  lemma {:induction false} Pow2Grows(j: nat, k: nat)
    requires j <= k
    ensures Pow2(j) <= Pow2(k)
    ensures k < Pow2(k)
    decreases k
  {
    if j < k { Pow2Grows(j, k - 1); } else if k > 0 { Pow2Grows(k - 1, k - 1); }
  }

  lemma MonotoneProduct(b: int, x: int, y: int)
    requires 0 <= b && x <= y
    ensures b * x <= b * y
  {}

  lemma FewerTimes(n: nat, m: nat, b: int)
    requires n <= m && 0 <= b
    ensures n * b <= m * b
  {
    MonotoneProduct(b, n, m);
  }

  /** Delays never shrink as failures accumulate. */
  lemma RetryDelayMonotone(o: Options, j: nat, k: nat)
    requires o.Valid() && j <= k
    ensures 0 <= RetryDelay(o, j) <= RetryDelay(o, k) <= o.maxErrorBackoff
  {
    var (x, y) := (if j == 0 then 0 else j - 1, if k == 0 then 0 else k - 1);
    Pow2Grows(x, y);
    MonotoneProduct(o.errorBackoff, Pow2(x), Pow2(y));
    MonotoneProduct(o.errorBackoff, 0, Pow2(x));
  }

  /** The first delay is the base, and each further one the double of the one before, capped. */
  lemma RetryDelayDoubles(o: Options, k: nat)
    requires o.Valid() && k >= 1
    ensures RetryDelay(o, 1) == o.errorBackoff
    ensures RetryDelay(o, k + 1) == Min(2 * RetryDelay(o, k), o.maxErrorBackoff)
  {
    assert o.errorBackoff * Pow2(k) == 2 * (o.errorBackoff * Pow2(k - 1));
  }

  lemma Saturates(o: Options, j: nat, k: nat)
    requires o.Valid() && 1 <= j <= k
    requires o.errorBackoff * Pow2(j - 1) >= o.maxErrorBackoff
    ensures RetryDelay(o, k) == o.maxErrorBackoff
  {
    Pow2Grows(j - 1, k - 1);
    MonotoneProduct(o.errorBackoff, Pow2(j - 1), Pow2(k - 1));
  }

  /** The exponent of the largest power of two that is at most `x`. */
  function Log2(x: nat): (n: nat)
    requires x > 0
    ensures Pow2(n) <= x < Pow2(n + 1)
  {
    if x == 1 then 0 else Log2(x / 2) + 1
  }

  lemma QuotientBounds(base: nat, cap: nat)
    requires base >= 1
    ensures cap < base * (cap / base + 1)
  {
    assert cap == base * (cap / base) + cap % base;
  }

  /** If `n` doublings of the base stay below the cap, there are no more of them than
      powers of two in the quotient. */
  lemma DoublingsBelowCap(base: nat, cap: nat, n: nat)
    requires 1 <= base <= cap && base * Pow2(n) < cap && cap / base > 0
    ensures n <= Log2(cap / base)
  {
    var q := cap / base;
    QuotientBounds(base, cap);
    DoublingsBelow(base, cap, q, n);
  }

  lemma DoublingsBelow(base: nat, cap: nat, q: nat, n: nat)
    requires q > 0 && base * Pow2(n) < cap < base * (q + 1)
    ensures n <= Log2(q)
  {
    if n > Log2(q) {
      Pow2Grows(Log2(q) + 1, n);
      MonotoneProduct(base, q + 1, Pow2(n));
      assert false;
    }
  }

  lemma {:induction false} DelaysAt(o: Options, n: nat, i: nat)
    requires o.Valid() && i < n
    ensures |Delays(o, n)| == n
    ensures Delays(o, n)[i] == RetryDelay(o, i + 1)
  {
    if n > 1 { DelaysAt(o, n - 1, if i < n - 1 then i else 0); }
  }

  lemma {:induction false} SumBounded(s: seq<int>, m: int)
    requires forall i :: 0 <= i < |s| ==> 0 <= s[i] <= m
    ensures 0 <= Sum(s) <= |s| * m
  {
    if s != [] {
      SumBounded(s[..|s| - 1], m);
      assert |s| * m == (|s| - 1) * m + m;
    }
  }

  /** The time spent in `n` successive retries is at most `n` caps. */
  lemma TotalDelayBounded(o: Options, n: nat)
    requires o.Valid()
    ensures 0 <= Sum(Delays(o, n)) <= n * o.maxErrorBackoff
  {
    if n > 0 {
      DelaysAt(o, n, 0);
      forall i | 0 <= i < n ensures 0 <= Delays(o, n)[i] <= o.maxErrorBackoff {
        DelaysAt(o, n, i);
        RetryDelayMonotone(o, i + 1, i + 1);
      }
      SumBounded(Delays(o, n), o.maxErrorBackoff);
    }
  }
}

/** computeBackoff of internal/controller/integration_controller.go, in int64 nanoseconds. */
module Backoffs {
  import opened Base

  const SECOND := 1_000_000_000
  const DEFAULT_INITIAL := 5 * SECOND
  const DEFAULT_MAX := 300 * SECOND
  const MAX_SHIFT := 16
  const TWO_48 := 0x1_0000_0000_0000
  const TWO_63 := 0x8000_0000_0000_0000
  const TWO_64 := 0x1_0000_0000_0000_0000

  datatype Strategy = Exponential | Fixed | UnsetStrategy

  datatype RetryPolicy = RetryPolicy(maxRetries: int, backoff: Strategy,
                                     initialDelay: Option<int>, maxDelay: Option<int>)

  predicate Int64(x: int) { -TWO_63 <= x < TWO_63 }

  /** Two's complement: what an int64 register keeps of x. */
  function Wrap(x: int): (w: int)
    ensures Int64(w) && (x - w) % TWO_64 == 0
    ensures Int64(x) ==> w == x
  {
    var m := x % TWO_64;
    if m < TWO_63 then m else m - TWO_64
  }

  function Pow2(n: nat): (p: nat)
    ensures p > 0
  {
    if n == 0 then 1 else 2 * Pow2(n - 1)
  }

  /** The exponent that is used for an attempt. */
  function Shift(attempt: int): int {
    if attempt - 1 > MAX_SHIFT then MAX_SHIFT else attempt - 1
  }

  /** A negative shift count is a huge unsigned one, and shifts everything out. */
  function Scaled(initial: int, shift: int): int {
    if shift < 0 then 0 else Wrap(initial * Pow2(shift))
  }

  function ComputeBackoff(policy: Option<RetryPolicy>, attempt: int): int {
    var initial := if policy.Some? && policy.value.initialDelay.Some? then policy.value.initialDelay.value
                   else DEFAULT_INITIAL;
    var max := if policy.Some? && policy.value.maxDelay.Some? then policy.value.maxDelay.value else DEFAULT_MAX;
    var strategy := if policy.Some? && policy.value.backoff != UnsetStrategy then policy.value.backoff else Exponential;
    if strategy == Fixed then initial
    else
      var d := Scaled(initial, Shift(attempt));
      if d <= 0 || d > max then max else d
  }

  // ---- What a policy asks for, told without reference to how it is computed ----

  predicate Constant(policy: Option<RetryPolicy>) { policy.Some? && policy.value.backoff == Fixed }

  /** Five seconds, if the policy does not say. */
  function Initial(policy: Option<RetryPolicy>): int {
    if policy.Some? && policy.value.initialDelay.Some? then policy.value.initialDelay.value else 5_000_000_000
  }

  /** Five minutes, if the policy does not say. */
  function Max(policy: Option<RetryPolicy>): int {
    if policy.Some? && policy.value.maxDelay.Some? then policy.value.maxDelay.value else 300_000_000_000
  }

  function Min(a: int, b: int): int { if a < b then a else b }

  /** The delay the documentation describes, in unbounded arithmetic: doubled with each attempt,
      sixteen times at most, and capped. */
  function Ideal(policy: Option<RetryPolicy>, attempt: nat): int
    requires attempt >= 1
  {
    Min(Initial(policy) * Pow2(if attempt <= 17 then attempt - 1 else 16), Max(policy))
  }

  /** The policy with this initial and maximal delay. */
  function Exponentially(initial: int, max: int): Option<RetryPolicy> {
    Some(RetryPolicy(5, Exponential, Some(initial), Some(max)))
  }

  lemma Pow2Doubles(n: nat)
    ensures Pow2(0) == 1 && Pow2(n + 1) == 2 * Pow2(n) && Pow2(16) == 65536
  {
    Pow2Sixteen();
  }

  /** A fixed policy asks for its initial delay, whatever the attempt and whatever the cap. */
  lemma FixedBackoff(policy: Option<RetryPolicy>, attempt: int)
    requires policy.Some? && policy.value.backoff == Fixed
    ensures ComputeBackoff(policy, attempt) ==
              if policy.value.initialDelay.Some? then policy.value.initialDelay.value else 5_000_000_000
  {
  }

  /** Everything a policy leaves open is as if it were written out: exponential, from five seconds
      to five minutes. */
  lemma DefaultBackoff(policy: Option<RetryPolicy>, attempt: int)
    requires !(policy.Some? && policy.value.backoff == Fixed)
    ensures var initial := if policy.Some? then policy.value.initialDelay else None;
            var max := if policy.Some? then policy.value.maxDelay else None;
            ComputeBackoff(policy, attempt) ==
            ComputeBackoff(Exponentially(if initial.Some? then initial.value else 5_000_000_000,
                                         if max.Some? then max.value else 300_000_000_000), attempt)
  {
    hide Scaled;
  }

  lemma {:induction false} Pow2Monotone(a: nat, b: nat)
    requires a <= b
    ensures Pow2(a) <= Pow2(b)
  {
    if a < b {
      Pow2Monotone(a, b - 1);
    }
  }

  lemma Pow2Sixteen()
    ensures Pow2(MAX_SHIFT) == 65536
  {
    assert Pow2(4) == 16;
    assert Pow2(8) == 256;
    assert Pow2(12) == 4096;
  }

  lemma ScaleMonotone(x: int, a: nat, b: nat)
    requires 0 < x && a <= b
    ensures 0 < x * Pow2(a) <= x * Pow2(b)
  {
    Pow2Monotone(a, b);
    assert x * (Pow2(b) - Pow2(a)) >= 0;
  }

  /** How the guard sees a product that did not fit: as itself minus multiples of 2^64. */
  lemma WrapOf(p: int)
    requires p >= 0
    ensures p < TWO_63 ==> Wrap(p) == p
    ensures TWO_63 <= p <= TWO_64 ==> Wrap(p) <= 0
    ensures p >= TWO_63 ==> Wrap(p) < p
  {
    if TWO_63 <= p < TWO_64 {
      assert p % TWO_64 == p;
    }
  }

  /** Despite the wrap-around the delay is exact up to an initial delay of 2^48 ns, about 78
      hours. */
  lemma BackoffIsExact(policy: Option<RetryPolicy>, attempt: nat)
    requires !Constant(policy) && attempt >= 1
    requires 0 < Initial(policy) <= TWO_48 && Int64(Max(policy))
    ensures ComputeBackoff(policy, attempt) == Ideal(policy, attempt)
  {
    var p := Initial(policy) * Pow2(Shift(attempt));
    ScaleMonotone(Initial(policy), Shift(attempt), MAX_SHIFT);
    Pow2Sixteen();
    assert Initial(policy) * 65536 <= TWO_48 * 65536 == TWO_64;
    WrapOf(p);
  }

  /** Hence the requested delay never shrinks as the attempts go on. */
  lemma BackoffIsMonotone(policy: Option<RetryPolicy>, a: nat, b: nat)
    requires !Constant(policy) && 1 <= a <= b
    requires 0 < Initial(policy) <= TWO_48 && Int64(Max(policy))
    ensures ComputeBackoff(policy, a) <= ComputeBackoff(policy, b)
  {
    BackoffIsExact(policy, a);
    BackoffIsExact(policy, b);
    ScaleMonotone(Initial(policy), Shift(a), Shift(b));
  }

  /** The exact condition: an attempt is served right under every cap if and only if its
      product fits, or wraps to something the guard rejects. */
  lemma ExactUnderEveryCap(initial: int, attempt: nat)
    requires 0 < initial < TWO_63 && attempt >= 1
    ensures var p := initial * Pow2(if attempt <= 17 then attempt - 1 else 16);
            (forall max: int | Int64(max) ::
               ComputeBackoff(Exponentially(initial, max), attempt) == Ideal(Exponentially(initial, max), attempt))
            <==> p < TWO_63 || Wrap(p) <= 0
  {
    var s := Shift(attempt);
    var p := initial * Pow2(s);
    ScaleMonotone(initial, 0, s);
    WrapOf(p);
    if p >= TWO_63 && Wrap(p) > 0 {
      var w := Wrap(p);
      assert s > 0;
      Halved(initial, s);
      EvenWrap(initial * Pow2(s - 1));
      var cap := w + 1;
      assert Int64(cap);
      assert ComputeBackoff(Exponentially(initial, cap), attempt) == w;
      assert Ideal(Exponentially(initial, cap), attempt) == cap;
    }
  }

  /** What is left of an even product is even. */
  lemma EvenWrap(half: int)
    ensures Wrap(2 * half) % 2 == 0
  {
    var q, r := half / TWO_63, half % TWO_63;
    assert 2 * half == TWO_64 * q + 2 * r && 0 <= 2 * r < TWO_64;
    assert (2 * half) % TWO_64 == 2 * r;
  }

  lemma Halved(initial: int, s: nat)
    requires s > 0
    ensures initial * Pow2(s) == 2 * (initial * Pow2(s - 1))
  {
    var y := Pow2(s - 1);
    assert initial * (2 * y) == 2 * (initial * y);
  }

  /** The bound 2^48 is sharp: one nanosecond more and the seventeenth attempt, and every
      later one, asks for 65536 ns under any larger cap. */
  lemma BoundIsSharp(max: int, attempt: nat)
    requires 65536 < max < TWO_63 && attempt >= 17
    ensures ComputeBackoff(Exponentially(TWO_48 + 1, max), attempt) ==
              65536 < Ideal(Exponentially(TWO_48 + 1, max), attempt)
  {
    Pow2Sixteen();
    assert (TWO_48 + 1) * 65536 == TWO_64 + 65536;
    assert (TWO_64 + 65536) % TWO_64 == 65536;
  }

  /** Wrap or no wrap, a delay stays positive and under its cap. */
  lemma BackoffInRange(policy: Option<RetryPolicy>, attempt: int)
    requires !Constant(policy) && 0 < Max(policy)
    ensures 0 < ComputeBackoff(policy, attempt) <= Max(policy)
  {
  }

  // ---- Whole streaks ----

  /** The sum of the delays of the first n attempts. */
  function TotalBackoff(policy: Option<RetryPolicy>, n: nat): int {
    if n == 0 then 0 else TotalBackoff(policy, n - 1) + ComputeBackoff(policy, n)
  }

  /** Attempt m is not capped: neither the shift nor the delay has reached its bound. */
  predicate Uncapped(policy: Option<RetryPolicy>, m: nat) {
    m <= 17 && (m >= 1 ==> Initial(policy) * Pow2(m - 1) <= Max(policy))
  }

  lemma UncappedDelay(policy: Option<RetryPolicy>, m: nat)
    requires !Constant(policy) && 0 < Initial(policy) <= TWO_48 && Int64(Max(policy))
    requires m >= 1 && Uncapped(policy, m)
    ensures ComputeBackoff(policy, m) == Initial(policy) * Pow2(m - 1)
  {
    BackoffIsExact(policy, m);
  }

  lemma CappedDelay(policy: Option<RetryPolicy>, m: nat, n: nat)
    requires !Constant(policy) && 0 < Initial(policy) <= TWO_48 && Int64(Max(policy))
    requires !Uncapped(policy, m + 1) && m < n
    ensures ComputeBackoff(policy, n) == Min(Initial(policy) * Pow2(16), Max(policy))
  {
    BackoffIsExact(policy, n);
    if m <= MAX_SHIFT {
      ScaleMonotone(Initial(policy), m, Shift(n));
      ScaleMonotone(Initial(policy), m, MAX_SHIFT);
    }
  }

  lemma Doubling(x: int, m: nat)
    requires m >= 1
    ensures x * (Pow2(m) - 1) == x * (Pow2(m - 1) - 1) + x * Pow2(m - 1)
  {
    var y := Pow2(m - 1);
    assert Pow2(m) == 2 * y;
    assert x * (2 * y - 1) == x * (y - 1) + x * y;
  }

  /** While no bound is reached the delays sum to initial * (2^m - 1). */
  lemma {:induction false} GeometricPrefix(policy: Option<RetryPolicy>, m: nat)
    requires !Constant(policy) && 0 < Initial(policy) <= TWO_48 && Int64(Max(policy))
    requires Uncapped(policy, m)
    ensures TotalBackoff(policy, m) == Initial(policy) * (Pow2(m) - 1)
  {
    if m > 0 {
      assert Uncapped(policy, m - 1) by {
        if m > 1 { ScaleMonotone(Initial(policy), m - 2, m - 1); }
      }
      GeometricPrefix(policy, m - 1);
      UncappedDelay(policy, m);
      Doubling(Initial(policy), m);
    }
  }

  /** The total of any streak: a geometric prefix up to the last uncapped attempt m, and the
      bounding delay for each of the n - m attempts after it. */
  lemma {:induction false} TotalDelay(policy: Option<RetryPolicy>, m: nat, n: nat)
    requires !Constant(policy) && 0 < Initial(policy) <= TWO_48 && Int64(Max(policy))
    requires Uncapped(policy, m) && !Uncapped(policy, m + 1) && m <= n
    ensures TotalBackoff(policy, n) ==
            Initial(policy) * (Pow2(m) - 1) + (n - m) * Min(Initial(policy) * Pow2(16), Max(policy))
  {
    hide ComputeBackoff, Pow2, Min, Uncapped;
    if n == m {
      GeometricPrefix(policy, m);
    } else {
      TotalDelay(policy, m, n - 1);
      CappedDelay(policy, m, n);
      OneMore(n - m, Min(Initial(policy) * Pow2(16), Max(policy)));
    }
  }

  lemma OneMore(k: int, bound: int)
    ensures (k - 1) * bound + bound == k * bound
  {
  }
}

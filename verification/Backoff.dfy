/** `backoff_for` in `src/forward.rs`. Times are in milliseconds. */
module Backoffs {
  /** The ceiling that `WorkerConfig::from_parts` fixes, and the largest representable duration. */
  const MAX_BACKOFF: nat := 60_000
  const MAX_DURATION: nat := 0xFFFF_FFFF_FFFF_FFFF * 1000 + 999

  function Min(a: nat, b: nat): nat {
    if a <= b then a else b
  }

  function Pow2(n: nat): (p: nat)
    ensures p >= 1
  {
    if n == 0 then 1 else 2 * Pow2(n - 1)
  }

  /** The multiplier, a shift clamped at 16 so that it fits 32 bits. */
  function Factor(attempt: nat): nat {
    Pow2(Min(attempt, 16))
  }

  function SaturatingMul(d: nat, factor: nat): nat {
    Min(d * factor, MAX_DURATION)
  }

  function BackoffFor(base: nat, attempt: nat): nat {
    Min(SaturatingMul(base, Factor(attempt)), MAX_BACKOFF)
  }

  lemma {:induction false} Pow2Grows(m: nat, n: nat)
    requires m <= n
    ensures Pow2(m) <= Pow2(n)
    decreases n
  {
    if m < n {
      Pow2Grows(m, n - 1);
    }
  }

  lemma Pow2Of16()
    ensures Pow2(16) == 65536
  {
    assert Pow2(4) == 16;
    assert Pow2(8) == 256;
    assert Pow2(12) == 4096;
  }

  lemma MulGrows(a: nat, b: nat, c: nat)
    requires b <= c
    ensures a * b <= a * c
  {
  }

  /** The clamp and the saturation never show: the delay is exactly `min(60 s, base * 2^attempt)`. */
  lemma BackoffIsExact(base: nat, attempt: nat)
    ensures BackoffFor(base, attempt) == Min(base * Pow2(attempt), MAX_BACKOFF)
  {
    if attempt > 16 && base > 0 {
      Pow2Of16();
      Pow2Grows(16, attempt);
      MulGrows(base, 65536, Pow2(attempt));
      MulGrows(65536, 1, base);
    }
  }

  lemma BackoffNeverShrinks(base: nat, m: nat, n: nat)
    requires m <= n
    ensures BackoffFor(base, m) <= BackoffFor(base, n)
  {
    Pow2Grows(Min(m, 16), Min(n, 16));
    MulGrows(base, Factor(m), Factor(n));
  }

  /** Time spent waiting by a run that retries `n` times. */
  function TotalBackoff(base: nat, n: nat): nat {
    if n == 0 then 0 else TotalBackoff(base, n - 1) + BackoffFor(base, n - 1)
  }

  /** How many delays stay below the ceiling. */
  function Doublings(base: nat): (k: nat)
    requires base > 0
    ensures base * Pow2(k) >= MAX_BACKOFF
    ensures forall j :: 0 <= j < k ==> base * Pow2(j) < MAX_BACKOFF
  {
    DoublingsFrom(base, 0)
  }

  function DoublingsFrom(base: nat, k: nat): (r: nat)
    requires base > 0 && forall j :: 0 <= j < k ==> base * Pow2(j) < MAX_BACKOFF
    ensures base * Pow2(r) >= MAX_BACKOFF
    ensures forall j :: 0 <= j < r ==> base * Pow2(j) < MAX_BACKOFF
    decreases MAX_BACKOFF - Min(base * Pow2(k), MAX_BACKOFF)
  {
    if base * Pow2(k) >= MAX_BACKOFF then k
    else
      assert base * Pow2(k + 1) == 2 * (base * Pow2(k)) && base * Pow2(k) >= 1 by {
        MulGrows(base, 1, Pow2(k));
      }
      DoublingsFrom(base, k + 1)
  }

  function ClosedForm(base: nat, n: nat, k: nat): int {
    base * (Pow2(Min(n, k)) - 1) + MAX_BACKOFF * (n - Min(n, k))
  }

  lemma GrowingStep(base: nat, n: nat, k: nat)
    requires 0 < n <= k
    ensures ClosedForm(base, n, k) == ClosedForm(base, n - 1, k) + base * Pow2(n - 1)
  {
    var p := Pow2(n - 1);
    assert base * (2 * p - 1) == base * (p - 1) + base * p;
  }

  lemma CappedStep(base: nat, n: nat, k: nat)
    requires 0 < n && k < n
    ensures ClosedForm(base, n, k) == ClosedForm(base, n - 1, k) + MAX_BACKOFF
  {
  }

  /** The total is a geometric sum up to the ceiling and linear after it. */
  lemma {:induction false} TotalBackoffClosedForm(base: nat, n: nat)
    requires base > 0
    ensures TotalBackoff(base, n) == ClosedForm(base, n, Doublings(base))
  {
    var k := Doublings(base);
    if n > 0 {
      TotalBackoffClosedForm(base, n - 1);
      BackoffIsExact(base, n - 1);
      if n <= k {
        GrowingStep(base, n, k);
      } else {
        CappedStep(base, n, k);
        CappedDelay(base, n - 1, k);
      }
    }
  }

  lemma CappedDelay(base: nat, attempt: nat, k: nat)
    requires base * Pow2(k) >= MAX_BACKOFF && k <= attempt
    ensures base * Pow2(attempt) >= MAX_BACKOFF
  {
    Pow2Grows(k, attempt);
    MulGrows(base, Pow2(k), Pow2(attempt));
  }
}

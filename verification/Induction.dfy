/** Induction along the indices of a run. The step is a fact about one index, proved apart from the run. */
module Inductions {
  /** `p` goes from `j` to the next index. */
  ghost predicate Links(p: nat -> bool, j: nat) {
    p(j) ==> p(j + 1)
  }

  lemma {:induction false} Chain(p: nat -> bool, k: nat, m: nat)
    requires k <= m && p(k) && forall j: nat {:trigger Links(p, j)} :: k <= j < m ==> Links(p, j)
    ensures p(m)
    decreases m - k
  {
    if k < m {
      Chain(p, k, m - 1);
      assert Links(p, m - 1);
    }
  }

  /** The last index at which `p` begins to hold for good. */
  lemma {:induction false} LastChange(p: nat -> bool, k: nat, m: nat) returns (j: nat)
    requires k <= m && !p(k) && p(m)
    ensures k <= j < m && !p(j) && forall i: nat :: j < i <= m ==> p(i)
    decreases m
  {
    if p(m - 1) {
      j := LastChange(p, k, m - 1);
    } else {
      j := m - 1;
    }
  }

  /** `p` does not grow at `j`, and shrinks if `q` holds there. */
  ghost predicate FallsAt(p: nat -> nat, q: nat -> bool, j: nat) {
    p(j + 1) <= p(j) && (q(j) ==> p(j + 1) < p(j))
  }

  lemma {:induction false} Descends(p: nat -> nat, q: nat -> bool, k: nat, m: nat)
    requires k <= m && forall j: nat {:trigger FallsAt(p, q, j)} :: k <= j < m ==> FallsAt(p, q, j)
    ensures p(m) <= p(k)
    decreases m - k
  {
    if k < m {
      Descends(p, q, k, m - 1);
      assert FallsAt(p, q, m - 1);
    }
  }

  /** A natural number that never grows shrinks finitely often. */
  lemma {:induction false} LastDescent(p: nat -> nat, q: nat -> bool, k: nat) returns (n: nat)
    requires forall j: nat {:trigger FallsAt(p, q, j)} :: FallsAt(p, q, j)
    ensures k <= n && forall m: nat :: n <= m ==> !q(m)
    decreases p(k)
  {
    if m: nat :| k <= m && q(m) {
      Descends(p, q, k, m);
      assert FallsAt(p, q, m);
      n := LastDescent(p, q, m + 1);
    } else {
      n := k;
    }
  }

  /** The indices below `k` that satisfy `q`. */
  function Below(q: nat -> bool, k: nat): set<nat> {
    set t: nat | t < k && q(t)
  }

  lemma BelowGrows(q: nat -> bool, k: nat)
    ensures |Below(q, k + 1)| == |Below(q, k)| + if q(k) then 1 else 0
  {
    if q(k) {
      assert Below(q, k + 1) == Below(q, k) + {k};
    } else {
      assert Below(q, k + 1) == Below(q, k);
    }
  }
}

/**
 * Cyclic index arithmetic shared by the project-card carousel
 * (`nextImage`/`prevImage`) and the footer's quote rotation (`nextQuote`):
 * step forward with `(k + 1) % n`, step back with `(k - 1 + n) % n`.
 * The operands are never negative there, so JavaScript's `%` and Dafny's
 * agree.
 */
module Cyclic {

  /** One step forward; stays in `[0, n)`. */
  function Next(k: int, n: int): (r: int)
    requires 0 <= k && 0 < n
    ensures 0 <= r < n
    ensures k < n - 1 ==> r == k + 1
    ensures k == n - 1 ==> r == 0
  {
    (k + 1) % n
  }

  /** One step back; stays in `[0, n)`. */
  function Prev(k: int, n: int): (r: int)
    requires 0 <= k && 0 < n
    ensures 0 <= r < n
    ensures 0 < k < n ==> r == k - 1
    ensures k == 0 ==> r == n - 1
  {
    (k - 1 + n) % n
  }

  /** Stepping back undoes stepping forward. */
  lemma PrevUndoesNext(k: int, n: int)
    requires 0 <= k < n
    ensures Prev(Next(k, n), n) == k
  {
  }

  /** Stepping forward undoes stepping back. */
  lemma NextUndoesPrev(k: int, n: int)
    requires 0 <= k < n
    ensures Next(Prev(k, n), n) == k
  {
  }

  /** `m` successive forward steps from `k`. */
  function Advance(k: int, n: int, m: nat): (r: int)
    requires 0 <= k < n
    ensures 0 <= r < n
    decreases m
  {
    if m == 0 then k else Next(Advance(k, n, m - 1), n)
  }

  /** Without wrapping, `m` forward steps simply add `m`. */
  lemma {:induction false} AdvanceWithoutWrap(k: int, n: int, m: nat)
    requires 0 <= k && k + m < n
    ensures Advance(k, n, m) == k + m
    decreases m
  {
    if m > 0 {
      AdvanceWithoutWrap(k, n, m - 1);
    }
  }

  /** Steps compose: `a + b` steps are `a` steps followed by `b` steps. */
  lemma {:induction false} AdvanceComposes(k: int, n: int, a: nat, b: nat)
    requires 0 <= k < n
    ensures Advance(k, n, a + b) == Advance(Advance(k, n, a), n, b)
    decreases b
  {
    if b > 0 {
      AdvanceComposes(k, n, a, b - 1);
    }
  }

  /** `n` forward steps from any position come back to it: the rotation is a full cycle. */
  lemma {:induction false} FullTurnReturns(k: int, n: int)
    requires 0 <= k < n
    ensures Advance(k, n, n) == k
  {
    AdvanceWithoutWrap(k, n, n - 1 - k);
    AdvanceComposes(k, n, n - 1 - k, k + 1);
    AdvanceComposes(n - 1, n, 1, k);
    AdvanceWithoutWrap(0, n, k);
  }
}

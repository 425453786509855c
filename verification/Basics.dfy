// Small shared vocabulary.
module Basics {
  datatype Option<+T> = None | Some(value: T)

  function Min(a: int, b: int): int {
    if a <= b then a else b
  }

  lemma MulLe(a: int, b: int, w: nat)
    ensures a <= b ==> a * w <= b * w
  {
    if a <= b {
      assert (b - a) * w >= 0;
    }
  }

  lemma DivMeaning(a: nat, n: nat)
    requires n > 0
    ensures (a / n) * n <= a < (a / n) * n + n
  {
    assert a == n * (a / n) + a % n;
  }

  /** A left fold over the first n elements, and over all of them. */
  function FoldTo<R, A>(f: (R, A) -> R, r: R, t: seq<A>, n: nat): R
    requires n <= |t|
  {
    if n == 0 then r else f(FoldTo(f, r, t, n - 1), t[n-1])
  }

  function Fold<R, A>(f: (R, A) -> R, r: R, t: seq<A>): R {
    FoldTo(f, r, t, |t|)
  }

  lemma {:induction false} FoldToPrefix<R, A>(f: (R, A) -> R, r: R, t: seq<A>, u: seq<A>, n: nat)
    requires n <= |t| && n <= |u| && forall i :: 0 <= i < n ==> t[i] == u[i]
    ensures FoldTo(f, r, t, n) == FoldTo(f, r, u, n)
  {
    if n > 0 {
      FoldToPrefix(f, r, t, u, n - 1);
    }
  }

  lemma FoldSnoc<R, A>(f: (R, A) -> R, r: R, t: seq<A>, a: A)
    ensures Fold(f, r, t + [a]) == f(Fold(f, r, t), a)
  {
    FoldToPrefix(f, r, t, t + [a], |t|);
  }

  /** What every step keeps is kept from any point on. */
  lemma {:induction false} FoldToKeeps<R(!new), A(!new)>(f: (R, A) -> R, r: R, t: seq<A>, p: R -> bool, m: nat, n: nat)
    requires m <= n <= |t| && p(FoldTo(f, r, t, m))
    requires forall s, a :: p(s) ==> p(f(s, a))
    ensures p(FoldTo(f, r, t, n))
    decreases n
  {
    if m < n {
      FoldToKeeps(f, r, t, p, m, n - 1);
    }
  }

  /** Step k takes the property from one point to the next. */
  predicate StepHolds<R, A>(f: (R, A) -> R, r: R, t: seq<A>, p: (nat, R) -> bool, k: nat) {
    k < |t| && p(k, FoldTo(f, r, t, k)) ==> p(k + 1, FoldTo(f, r, t, k + 1))
  }

  /** What every step takes from one point to the next holds at every point. */
  lemma {:induction false} FoldToInvariant<R, A>(f: (R, A) -> R, r: R, t: seq<A>, p: (nat, R) -> bool, n: nat)
    requires n <= |t| && p(0, r)
    requires forall k :: StepHolds(f, r, t, p, k)
    ensures p(n, FoldTo(f, r, t, n))
  {
    if n > 0 {
      FoldToInvariant(f, r, t, p, n - 1);
      assert StepHolds(f, r, t, p, n - 1);
    }
  }

  /** A count that each step either keeps or raises is the same at two points iff no step between raises it. */
  lemma {:induction false} FoldToCounts<R(!new), A(!new)>(
      f: (R, A) -> R, r: R, t: seq<A>, count: R -> int, up: (R, A) -> bool, m: nat, n: nat)
    requires m <= n <= |t|
    requires forall s, a :: count(f(s, a)) == count(s) + (if up(s, a) then 1 else 0)
    ensures count(FoldTo(f, r, t, m)) <= count(FoldTo(f, r, t, n))
    ensures count(FoldTo(f, r, t, m)) == count(FoldTo(f, r, t, n)) <==>
      forall k :: m <= k < n ==> !up(FoldTo(f, r, t, k), t[k])
    decreases n
  {
    if m < n {
      FoldToCounts(f, r, t, count, up, m, n - 1);
      assert FoldTo(f, r, t, n) == f(FoldTo(f, r, t, n - 1), t[n-1]);
      assert up(FoldTo(f, r, t, n - 1), t[n-1]) || !up(FoldTo(f, r, t, n - 1), t[n-1]);
    }
  }
}

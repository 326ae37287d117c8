/** Endless runs as functions of time: what fairness arguments share. */
module Endless {
  /** Between k and k + 1 the value moves or stays as it is. */
  predicate StaysAt<T(==)>(value: nat -> T, moves: nat -> bool, k: nat) {
    moves(k) || value(k + 1) == value(k)
  }

  /** The first move at or after i: the value is untouched until then. */
  lemma {:induction false} FirstMove<T>(value: nat -> T, moves: nat -> bool, i: nat, j: nat) returns (m: nat)
    requires forall k: nat :: StaysAt(value, moves, k)
    requires i <= j && (value(j) == value(i) ==> moves(j))
    ensures i <= m && value(m) == value(i) && moves(m)
    decreases j - i
  {
    if i == j || moves(i) {
      m := i;
    } else {
      assert StaysAt(value, moves, i);
      m := FirstMove(value, moves, i + 1, j);
    }
  }

  /** The states up to time k, as a finite run. */
  function Prefix<T>(f: nat -> T, k: nat): (run: seq<T>)
    ensures |run| == k + 1 && forall i :: 0 <= i <= k ==> run[i] == f(i)
  {
    seq(k + 1, i requires 0 <= i <= k => f(i))
  }
}

/** Small shared vocabulary: an optional value and the min/max helpers the game code uses. */
module Basics {

  datatype Option<+T> = None | Some(value: T)

  /** A real that is never negative: an enemy's progress, speed and slow timer. */
  type NonNegReal = r: real | r >= 0.0

  function Min(a: int, b: int): int { if a <= b then a else b }

  function MinReal(a: real, b: real): real { if a <= b then a else b }

  function MaxReal(a: real, b: real): real { if a >= b then a else b }

  lemma MulNonNeg(a: real, b: real)
    requires a >= 0.0 && b >= 0.0
    ensures a * b >= 0.0
  {}

  lemma MulPos(a: real, b: real)
    requires a > 0.0 && b > 0.0
    ensures a * b > 0.0
  {}

  lemma MulLe(a: real, b: real, c: real)
    requires a >= 0.0 && b <= c
    ensures a * b <= a * c
  {
    MulNonNeg(a, c - b);
    assert a * (c - b) == a * c - a * b;
  }

  lemma MulLt(a: real, b: real, c: real)
    requires a > 0.0 && b < c
    ensures a * b < a * c
  {
    assert a * (c - b) == a * c - a * b;
    MulPos(a, c - b);
  }

  /** Math.floor of an integer quotient is Dafny's integer division (the divisor is positive). */
  lemma FloorDiv(a: int, b: int)
    requires b > 0
    ensures (a as real / b as real).Floor == a / b
  {
    var q, r := a / b, a % b;
    assert a == q * b + r;
    var frac := r as real / b as real;
    assert 0.0 <= frac < 1.0 by {
      assert frac * b as real == r as real;
    }
    assert a as real / b as real == q as real + frac;
  }

  /** No element occurs twice. */
  predicate Distinct<T(==)>(xs: seq<T>)
  {
    forall i, j | 0 <= i < j < |xs| :: xs[i] != xs[j]
  }

  /** Array.prototype.filter with the verdicts already taken: the flagged elements, in order. */
  function Keep<T>(xs: seq<T>, keep: seq<bool>): (r: seq<T>)
    requires |keep| == |xs|
    ensures |r| <= |xs|
    ensures forall x | x in r :: exists i | 0 <= i < |xs| :: xs[i] == x && keep[i]
    ensures forall i | 0 <= i < |xs| && keep[i] :: xs[i] in r
    decreases |xs|
  {
    if xs == [] then []
    else
      var n := |xs| - 1;
      Keep(xs[..n], keep[..n]) + (if keep[n] then [xs[n]] else [])
  }

  /** Filtering a list without repetitions gives a list without repetitions. */
  lemma {:induction false} KeepDistinct<T>(xs: seq<T>, keep: seq<bool>)
    requires |keep| == |xs| && Distinct(xs)
    ensures Distinct(Keep(xs, keep))
    decreases |xs|
  {
    if xs != [] {
      var n := |xs| - 1;
      var front := Keep(xs[..n], keep[..n]);
      assert Distinct(xs[..n]);
      KeepDistinct(xs[..n], keep[..n]);
      assert forall i | 0 <= i < n :: xs[..n][i] != xs[n];
      assert xs[n] !in front;
      var r := Keep(xs, keep);
      if keep[n] {
        forall i, j | 0 <= i < j < |r| ensures r[i] != r[j] {
          assert r[i] == front[i];
          if j < |front| {
            assert r[j] == front[j];
          }
        }
      }
    }
  }

  /** Array.prototype.indexOf: the first position of x, or -1. */
  function IndexOf<T(==)>(xs: seq<T>, x: T): (i: int)
    ensures -1 <= i < |xs|
    ensures i >= 0 ==> xs[i] == x && x !in xs[..i]
    ensures i < 0 ==> x !in xs
  {
    if xs == [] then -1
    else if xs[0] == x then 0
    else
      var j := IndexOf(xs[1..], x);
      assert j >= 0 ==> xs[..j + 1] == [xs[0]] + xs[1..][..j];
      if j < 0 then -1 else j + 1
  }

  /** An element of a list without repetitions whose flag is false does not survive the filter. */
  lemma KeepDrops<T>(xs: seq<T>, keep: seq<bool>, i: nat)
    requires |keep| == |xs| && Distinct(xs) && i < |xs| && !keep[i]
    ensures xs[i] !in Keep(xs, keep)
  {
  }
}

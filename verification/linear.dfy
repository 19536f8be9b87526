/** Exact linear algebra over `real`: the inner product and the negation of a
    coefficient row, which is all the canonicaliser and the sign convention need. */
module Linear {

  /** Inner product `a·x` of two vectors of the same length. */
  function Dot(a: seq<real>, x: seq<real>): real
    requires |a| == |x|
    decreases |a|
  {
    if |a| == 0 then 0.0 else a[0] * x[0] + Dot(a[1..], x[1..])
  }

  /** Component-wise negation `-a` of a vector. */
  function Neg(a: seq<real>): (r: seq<real>)
    ensures |r| == |a|
    ensures forall i :: 0 <= i < |a| ==> r[i] == -a[i]
  {
    seq(|a|, i requires 0 <= i < |a| => -a[i])
  }

  /** Negating a row negates its inner product with every point. */
  lemma {:induction false} DotNeg(a: seq<real>, x: seq<real>)
    requires |a| == |x|
    ensures Dot(Neg(a), x) == -Dot(a, x)
    decreases |a|
  {
    if |a| > 0 {
      assert Neg(a)[1..] == Neg(a[1..]);
      DotNeg(a[1..], x[1..]);
    }
  }

  /** `c·x ≥ b` holds exactly when `(-c)·x ≤ -b` does: the rewrite the
      canonicaliser applies to a greater-or-equal constraint. */
  lemma GeAsLe(c: seq<real>, x: seq<real>, b: real)
    requires |c| == |x|
    ensures Dot(c, x) >= b <==> Dot(Neg(c), x) <= -b
  {
    DotNeg(c, x);
  }
}

/** What it means for a point to satisfy the input constraints and the two
    canonical systems, and the theorem that the canonicaliser keeps the
    feasible set exactly. */
module Feasibility {
  import opened Linear
  import opened Canonical

  /** Every constraint of a recognised kind has a row of width `n`. */
  predicate Shaped(cs: seq<Constraint>, n: nat)
  {
    forall j :: 0 <= j < |cs| && KindOf(cs[j].tag) != Other ==> |cs[j].coefs| == n
  }

  /** Point `x` satisfies one input constraint; an unrecognised one imposes nothing. */
  predicate Holds(c: Constraint, x: seq<real>)
    requires KindOf(c.tag) != Other ==> |c.coefs| == |x|
  {
    match KindOf(c.tag)
    case Eq => Dot(c.coefs, x) == c.b
    case Lte => Dot(c.coefs, x) <= c.b
    case Gte => Dot(c.coefs, x) >= c.b
    case Other => true
  }

  /** Point `x` satisfies every input constraint. */
  predicate SatisfiesAll(cs: seq<Constraint>, x: seq<real>)
    requires Shaped(cs, |x|)
  {
    forall j :: 0 <= j < |cs| ==> Holds(cs[j], x)
  }

  /** Every row of `rows` has width `n`. */
  predicate Width(rows: seq<seq<real>>, n: nat)
  {
    forall i :: 0 <= i < |rows| ==> |rows[i]| == n
  }

  /** The systems are well formed for `x` and `aEq·x = bEq`, `aUb·x ≤ bUb` row by row. */
  predicate SystemHolds(s: Systems, x: seq<real>)
  {
    && Parallel(s)
    && Width(s.aEq, |x|)
    && Width(s.aUb, |x|)
    && (forall i :: 0 <= i < |s.aEq| ==> Dot(s.aEq[i], x) == s.bEq[i])
    && (forall i :: 0 <= i < |s.aUb| ==> Dot(s.aUb[i], x) <= s.bUb[i])
  }

  /** Appending one constraint to well-formed systems adds exactly that
      constraint to what the systems demand of `x`. */
  lemma RouteHolds(s: Systems, c: Constraint, x: seq<real>)
    requires Parallel(s)
    requires KindOf(c.tag) != Other ==> |c.coefs| == |x|
    ensures SystemHolds(Route(s, c), x) <==> SystemHolds(s, x) && Holds(c, x)
  {
    var t := Route(s, c);
    match KindOf(c.tag)
    case Eq =>
      assert t.aEq[|s.aEq|] == c.coefs && t.bEq[|s.bEq|] == c.b;
      assert forall i :: 0 <= i < |s.aEq| ==> t.aEq[i] == s.aEq[i] && t.bEq[i] == s.bEq[i];
    case Lte =>
      assert t.aUb[|s.aUb|] == c.coefs && t.bUb[|s.bUb|] == c.b;
      assert forall i :: 0 <= i < |s.aUb| ==> t.aUb[i] == s.aUb[i] && t.bUb[i] == s.bUb[i];
    case Gte =>
      GeAsLe(c.coefs, x, c.b);
      assert t.aUb[|s.aUb|] == Neg(c.coefs) && t.bUb[|s.bUb|] == -c.b;
      assert forall i :: 0 <= i < |s.aUb| ==> t.aUb[i] == s.aUb[i] && t.bUb[i] == s.bUb[i];
    case Other =>
  }

  /** The canonical systems describe the same feasible set as the input
      constraints: for every point `x` of the right width, `x` satisfies every
      `eq`, `lte` and `gte` constraint exactly when `A_eq·x = b_eq` and
      `A_ub·x ≤ b_ub`. */
  lemma {:induction false} FeasibleSetPreserved(cs: seq<Constraint>, x: seq<real>)
    requires Shaped(cs, |x|)
    ensures SatisfiesAll(cs, x) <==> SystemHolds(Canonicalize(cs), x)
    decreases |cs|
  {
    if |cs| == 0 {
      assert SystemHolds(NoRows, x);
    } else {
      var pre, last := cs[..|cs| - 1], cs[|cs| - 1];
      assert Shaped(pre, |x|);
      FeasibleSetPreserved(pre, x);
      RouteHolds(Canonicalize(pre), last, x);
      assert SatisfiesAll(cs, x) <==> SatisfiesAll(pre, x) && Holds(last, x) by {
        assert forall j :: 0 <= j < |pre| ==> pre[j] == cs[j];
      }
    }
  }
}

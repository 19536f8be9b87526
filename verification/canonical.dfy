/** The constraint canonicaliser of main.py: a single pass over the typed
    constraints that routes each one into the equality system or the
    upper-bound inequality system, negating greater-or-equal rows. */
module Canonical {
  import opened Linear

  /** The relation kind a constraint's `type` string selects. Any string other
      than the three recognised ones is `Other`. */
  datatype Kind = Eq | Lte | Gte | Other

  /** One input constraint: coefficient row `coefs`, right-hand side `b` and
      the raw `type` string. */
  datatype Constraint = Constraint(coefs: seq<real>, b: real, tag: string)

  /** A problem as loaded: objective `f`, constraints and the `goal` string. */
  datatype Problem = Problem(f: seq<real>, constraints: seq<Constraint>, goal: string)

  /** The two systems handed to the solver: `aEq·x = bEq` and `aUb·x ≤ bUb`. */
  datatype Systems = Systems(aEq: seq<seq<real>>, bEq: seq<real>, aUb: seq<seq<real>>, bUb: seq<real>)

  /** What the canonicaliser returns: the objective and the two systems. */
  datatype CanonicalForm = CanonicalForm(f: seq<real>, sys: Systems)

  /** The dispatch on the `type` string: each recognised string selects its own
      kind, and every other string falls through. */
  function KindOf(tag: string): (k: Kind)
    ensures k == Eq <==> tag == "eq"
    ensures k == Lte <==> tag == "lte"
    ensures k == Gte <==> tag == "gte"
    ensures k == Other <==> tag !in {"eq", "lte", "gte"}
  {
    if tag == "eq" then Eq
    else if tag == "lte" then Lte
    else if tag == "gte" then Gte
    else Other
  }

  const NoRows := Systems([], [], [], [])

  /** Both systems have as many right-hand sides as rows. */
  predicate Parallel(s: Systems)
  {
    |s.aEq| == |s.bEq| && |s.aUb| == |s.bUb|
  }

  /** One iteration of the loop: append the constraint to the system its kind selects. */
  function Route(s: Systems, c: Constraint): (r: Systems)
    ensures KindOf(c.tag) == Eq ==>
      r.aEq == s.aEq + [c.coefs] && r.bEq == s.bEq + [c.b] && r.aUb == s.aUb && r.bUb == s.bUb
    ensures KindOf(c.tag) == Lte ==>
      r.aUb == s.aUb + [c.coefs] && r.bUb == s.bUb + [c.b] && r.aEq == s.aEq && r.bEq == s.bEq
    ensures KindOf(c.tag) == Gte ==>
      r.aUb == s.aUb + [Neg(c.coefs)] && r.bUb == s.bUb + [-c.b] && r.aEq == s.aEq && r.bEq == s.bEq
    ensures KindOf(c.tag) == Other ==> r == s
  {
    match KindOf(c.tag)
    case Eq => s.(aEq := s.aEq + [c.coefs], bEq := s.bEq + [c.b])
    case Lte => s.(aUb := s.aUb + [c.coefs], bUb := s.bUb + [c.b])
    case Gte => s.(aUb := s.aUb + [Neg(c.coefs)], bUb := s.bUb + [-c.b])
    case Other => s
  }

  /** The loop over the constraints, in input order, starting from empty systems. */
  function Canonicalize(cs: seq<Constraint>): (s: Systems)
    ensures Parallel(s)
    ensures |s.aEq| + |s.aUb| <= |cs|
    decreases |cs|
  {
    if |cs| == 0 then NoRows else Route(Canonicalize(cs[..|cs| - 1]), cs[|cs| - 1])
  }

  /** `to_canonical_form`: the objective passes through and the constraints are canonicalised. */
  function ToCanonicalForm(p: Problem): (r: CanonicalForm)
    ensures r.f == p.f
    ensures Parallel(r.sys)
  {
    CanonicalForm(p.f, Canonicalize(p.constraints))
  }

  /** The same pass as `to_canonical_form` in main.py writes it: a loop appending to four lists. */
  method CanonicalFormLoop(p: Problem) returns (f: seq<real>, aEq: seq<seq<real>>, bEq: seq<real>,
                                              aUb: seq<seq<real>>, bUb: seq<real>)
    ensures CanonicalForm(f, Systems(aEq, bEq, aUb, bUb)) == ToCanonicalForm(p)
  {
    f := p.f;
    var cs := p.constraints;
    aEq, bEq, aUb, bUb := [], [], [], [];
    var i := 0;
    while i < |cs|
      invariant 0 <= i <= |cs|
      invariant Systems(aEq, bEq, aUb, bUb) == Canonicalize(cs[..i])
    {
      var c := cs[i];
      var kind := KindOf(c.tag);
      if kind == Eq {
        aEq := aEq + [c.coefs];
        bEq := bEq + [c.b];
      } else if kind == Lte {
        aUb := aUb + [c.coefs];
        bUb := bUb + [c.b];
      } else if kind == Gte {
        aUb := aUb + [Neg(c.coefs)];
        bUb := bUb + [-c.b];
      }
      assert cs[..i + 1][..i] == cs[..i];
      i := i + 1;
    }
    assert cs[..i] == cs;
  }

  /** Indices, in increasing order, of the constraints whose kind is in `kinds`. */
  function Positions(cs: seq<Constraint>, kinds: set<Kind>): (ps: seq<nat>)
    ensures forall i :: 0 <= i < |ps| ==> ps[i] < |cs|
    ensures |ps| <= |cs|
    decreases |cs|
  {
    if |cs| == 0 then []
    else Positions(cs[..|cs| - 1], kinds) + (if KindOf(cs[|cs| - 1].tag) in kinds then [|cs| - 1] else [])
  }

  /** `Positions` lists exactly the matching indices, each once, in input order. */
  lemma {:induction false} PositionsExact(cs: seq<Constraint>, kinds: set<Kind>)
    ensures var ps := Positions(cs, kinds);
      && (forall i, j :: 0 <= i < j < |ps| ==> ps[i] < ps[j])
      && (forall j :: 0 <= j < |cs| ==> (j in ps <==> KindOf(cs[j].tag) in kinds))
    decreases |cs|
  {
    if |cs| > 0 {
      PositionsExact(cs[..|cs| - 1], kinds);
    }
  }

  /** The equality system holds the rows and right-hand sides of the `eq`
      constraints, unchanged and in input order. */
  lemma {:induction false} EqRowsInOrder(cs: seq<Constraint>)
    ensures var s, ps := Canonicalize(cs), Positions(cs, {Eq});
      && |s.aEq| == |ps|
      && forall i :: 0 <= i < |ps| ==> s.aEq[i] == cs[ps[i]].coefs && s.bEq[i] == cs[ps[i]].b
    decreases |cs|
  {
    if |cs| > 0 {
      var pre := cs[..|cs| - 1];
      EqRowsInOrder(pre);
      var ps := Positions(pre, {Eq});
      assert forall i :: 0 <= i < |ps| ==> cs[ps[i]] == pre[ps[i]];
    }
  }

  /** The inequality system holds one row per `lte` or `gte` constraint, in
      input order across both kinds: an `lte` row and right-hand side unchanged,
      a `gte` row and right-hand side negated. */
  lemma {:induction false} UbRowsInOrder(cs: seq<Constraint>)
    ensures var s, ps := Canonicalize(cs), Positions(cs, {Lte, Gte});
      && |s.aUb| == |ps|
      && (forall i :: 0 <= i < |ps| && KindOf(cs[ps[i]].tag) == Lte ==>
            s.aUb[i] == cs[ps[i]].coefs && s.bUb[i] == cs[ps[i]].b)
      && (forall i :: 0 <= i < |ps| && KindOf(cs[ps[i]].tag) == Gte ==>
            s.aUb[i] == Neg(cs[ps[i]].coefs) && s.bUb[i] == -cs[ps[i]].b)
    decreases |cs|
  {
    if |cs| > 0 {
      var pre := cs[..|cs| - 1];
      UbRowsInOrder(pre);
      var s0, ps0 := Canonicalize(pre), Positions(pre, {Lte, Gte});
      var s, ps := Canonicalize(cs), Positions(cs, {Lte, Gte});
      var last := cs[|cs| - 1];
      assert forall i :: 0 <= i < |ps0| ==> cs[ps0[i]] == pre[ps0[i]];
      if KindOf(last.tag) in {Lte, Gte} {
        assert ps == ps0 + [|cs| - 1];
        assert s.aUb == s0.aUb + [s.aUb[|s0.aUb|]] && s.bUb == s0.bUb + [s.bUb[|s0.bUb|]];
      } else {
        assert ps == ps0;
        assert s.aUb == s0.aUb && s.bUb == s0.bUb;
      }
    }
  }

  /** Every constraint of a recognised kind contributes exactly one row, and
      no other constraint contributes any. */
  lemma {:induction false} RecognisedRowCount(cs: seq<Constraint>)
    ensures var s := Canonicalize(cs);
      |s.aEq| + |s.aUb| == |Positions(cs, {Eq, Lte, Gte})|
    decreases |cs|
  {
    if |cs| > 0 {
      RecognisedRowCount(cs[..|cs| - 1]);
    }
  }

  /** The constraints whose `type` string is one of the three recognised ones:
      exactly those, each once, in input order. */
  function Recognised(cs: seq<Constraint>): (rs: seq<Constraint>)
    ensures |rs| <= |cs|
    ensures forall c :: c in rs ==> c in cs && KindOf(c.tag) != Other
    ensures var ps := Positions(cs, {Eq, Lte, Gte});
      |rs| == |ps| && forall i :: 0 <= i < |ps| ==> rs[i] == cs[ps[i]]
    decreases |cs|
  {
    if |cs| == 0 then []
    else Recognised(cs[..|cs| - 1]) + (if KindOf(cs[|cs| - 1].tag) != Other then [cs[|cs| - 1]] else [])
  }

  /** A constraint of unrecognised type is dropped without trace: removing all of
      them leaves the canonical form unchanged. */
  lemma {:induction false} UnrecognisedDropped(cs: seq<Constraint>)
    ensures Canonicalize(Recognised(cs)) == Canonicalize(cs)
    decreases |cs|
  {
    if |cs| > 0 {
      var pre, last := cs[..|cs| - 1], cs[|cs| - 1];
      UnrecognisedDropped(pre);
      var rpre := Recognised(pre);
      if KindOf(last.tag) != Other {
        var rs := rpre + [last];
        assert rs[..|rs| - 1] == rpre;
        assert Canonicalize(rs) == Route(Canonicalize(rpre), last);
      } else {
        assert Recognised(cs) == rpre;
        assert Canonicalize(cs) == Canonicalize(pre);
      }
    }
  }

  /** Row-wise concatenation of two pairs of systems. */
  function Join(s: Systems, t: Systems): Systems
  {
    Systems(s.aEq + t.aEq, s.bEq + t.bEq, s.aUb + t.aUb, s.bUb + t.bUb)
  }

  /** Appending one constraint after a joined prefix only touches the second part. */
  lemma RouteJoin(s: Systems, t: Systems, c: Constraint)
    ensures Route(Join(s, t), c) == Join(s, Route(t, c))
  {
  }

  /** The pass is a single left-to-right scan: canonicalising two lists one after
      the other gives the rows of the first followed by the rows of the second. */
  lemma {:induction false} CanonicalizeAppend(cs: seq<Constraint>, ds: seq<Constraint>)
    ensures Canonicalize(cs + ds) == Join(Canonicalize(cs), Canonicalize(ds))
    decreases |ds|
  {
    var s := Canonicalize(cs);
    if |ds| == 0 {
      assert cs + ds == cs;
      assert Join(s, NoRows) == s;
    } else {
      var pre, last := ds[..|ds| - 1], ds[|ds| - 1];
      CanonicalizeAppend(cs, pre);
      var all := cs + ds;
      assert all[..|all| - 1] == cs + pre;
      assert all[|all| - 1] == last;
      calc {
        Canonicalize(all);
        Route(Canonicalize(cs + pre), last);
        Route(Join(s, Canonicalize(pre)), last);
        { RouteJoin(s, Canonicalize(pre), last); }
        Join(s, Route(Canonicalize(pre), last));
      }
    }
  }
}

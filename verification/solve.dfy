/** `solve_linear_programming`: the goal's sign convention and the success /
    failure wrapping around an external LP solver. The solver is a parameter:
    it always minimises `c·x` subject to the two canonical systems. */
module Solve {
  import opened Wrappers
  import opened Linear
  import opened Canonical
  import opened Feasibility

  /** What the solver reports: whether it succeeded, its point and its minimum `fun`. */
  datatype SolverResult = SolverResult(success: bool, x: seq<real>, fun: real)

  /** The external solver: objective `c` and the canonical systems in, a result out. */
  type Solver = (seq<real>, Systems) -> SolverResult

  /** The pair returned to the caller: the point and the optimum, each possibly absent. */
  datatype Solution = Solution(x: Option<seq<real>>, value: Option<real>)

  /** Only the exact goal string "max" maximises; every other goal minimises. */
  predicate IsMax(goal: string)
  {
    goal == "max"
  }

  /** Every point sees `Neg(a)` as the negation of `a`. */
  lemma DotNegAll(a: seq<real>)
    ensures forall x :: |x| == |a| ==> Dot(Neg(a), x) == -Dot(a, x)
  {
    forall x | |x| == |a| {
      DotNeg(a, x);
    }
  }

  /** The objective handed to the minimising solver: it values every point at
      minus `f·x` when the goal is "max" and at `f·x` otherwise. */
  function Objective(f: seq<real>, goal: string): (c: seq<real>)
    ensures |c| == |f|
    ensures forall x :: |x| == |f| ==> Dot(c, x) == if IsMax(goal) then -Dot(f, x) else Dot(f, x)
  {
    if IsMax(goal) then DotNegAll(f); Neg(f) else f
  }

  /** Minimising the solver's objective is the goal: for "max" a point is at
      least as good for the solver exactly when its `f·x` is at least as large. */
  lemma ObjectiveOrder(f: seq<real>, goal: string, x: seq<real>, y: seq<real>)
    requires |x| == |f| && |y| == |f|
    ensures var c := Objective(f, goal);
      Dot(c, x) <= Dot(c, y) <==> if IsMax(goal) then Dot(f, y) <= Dot(f, x) else Dot(f, x) <= Dot(f, y)
  {
  }

  /** The wrapping of the solver's result: both components present on success,
      both absent on failure. */
  function Report(res: SolverResult, goal: string): (s: Solution)
    ensures s.x.Some? <==> s.value.Some?
    ensures s.x.Some? <==> res.success
    ensures s.x.Some? ==> s.x.value == res.x
    ensures res.success ==> s.value == Some(if IsMax(goal) then -res.fun else res.fun)
  {
    if res.success then Solution(Some(res.x), Some(if IsMax(goal) then -res.fun else res.fun))
    else Solution(None, None)
  }

  /** `solve_linear_programming`: call the solver on the signed objective and
      report its result in the caller's sign. Whenever the solver's `fun` is
      the value of its objective at its point, the reported optimum is `f·x`
      at that point, whichever the goal. */
  function SolveLinearProgramming(f: seq<real>, sys: Systems, goal: string, linprog: Solver): (s: Solution)
    ensures var res := linprog(Objective(f, goal), sys);
      && (s.x.Some? <==> res.success)
      && (s.x.Some? <==> s.value.Some?)
      && (res.success ==> s.x == Some(res.x))
      && (res.success && |res.x| == |f| && res.fun == Dot(Objective(f, goal), res.x) ==>
            s.value == Some(Dot(f, res.x)))
  {
    Report(linprog(Objective(f, goal), sys), goal)
  }

  /** The solver's default bound: every variable is non-negative. */
  predicate NonNeg(x: seq<real>)
  {
    forall i :: 0 <= i < |x| ==> x[i] >= 0.0
  }

  /** What a correct solver promises on success: its point is feasible for the
      systems and its default bound, `fun` is the objective there, and no
      feasible point has a smaller objective. */
  ghost predicate SolverOptimal(linprog: Solver, c: seq<real>, sys: Systems)
    ensures !linprog(c, sys).success ==> SolverOptimal(linprog, c, sys)
    ensures SolverOptimal(linprog, c, sys) && linprog(c, sys).success ==>
      |linprog(c, sys).x| == |c| && SystemHolds(sys, linprog(c, sys).x)
  {
    var res := linprog(c, sys);
    res.success ==>
      && |res.x| == |c|
      && NonNeg(res.x)
      && SystemHolds(sys, res.x)
      && res.fun == Dot(c, res.x)
      && forall y :: |y| == |c| && NonNeg(y) && SystemHolds(sys, y) ==> Dot(c, res.x) <= Dot(c, y)
  }

  /** The whole run: canonicalise the problem, then solve it. A result is
      reported exactly when the solver succeeds on the problem's signed
      objective and canonical systems, and it is then the solver's point. */
  function Run(p: Problem, linprog: Solver): (s: Solution)
    ensures var res := linprog(Objective(p.f, p.goal), Canonicalize(p.constraints));
      && (s.x.Some? <==> s.value.Some?)
      && (s.x.Some? <==> res.success)
      && (s.x.Some? ==> s.x.value == res.x)
  {
    var cf := ToCanonicalForm(p);
    SolveLinearProgramming(cf.f, cf.sys, p.goal, linprog)
  }

  /** With a correct solver, a reported solution satisfies every input
      constraint and the default bound, the reported value is `f·x` there, and
      no other such point beats it in the direction of the goal. */
  lemma RunOptimal(p: Problem, linprog: Solver)
    requires Shaped(p.constraints, |p.f|)
    requires SolverOptimal(linprog, Objective(p.f, p.goal), Canonicalize(p.constraints))
    ensures var s := Run(p, linprog);
      && (s.x.Some? <==> s.value.Some?)
      && (s.x.Some? ==>
            && |s.x.value| == |p.f|
            && NonNeg(s.x.value)
            && SatisfiesAll(p.constraints, s.x.value)
            && s.value == Some(Dot(p.f, s.x.value)))
      && (s.x.Some? ==> forall y :: |y| == |p.f| && NonNeg(y) && SatisfiesAll(p.constraints, y) ==>
            if IsMax(p.goal) then Dot(p.f, y) <= s.value.value else s.value.value <= Dot(p.f, y))
  {
    var c, sys := Objective(p.f, p.goal), Canonicalize(p.constraints);
    var res := linprog(c, sys);
    var s := Run(p, linprog);
    if res.success {
      var x := res.x;
      FeasibleSetPreserved(p.constraints, x);
      forall y | |y| == |p.f| && NonNeg(y) && SatisfiesAll(p.constraints, y)
        ensures if IsMax(p.goal) then Dot(p.f, y) <= s.value.value else s.value.value <= Dot(p.f, y)
      {
        FeasibleSetPreserved(p.constraints, y);
        ObjectiveOrder(p.f, p.goal, x, y);
      }
    }
  }
}

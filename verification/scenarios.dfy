/** Worked instances of the canonicaliser and of a full run. */
module Scenarios {
  import opened Wrappers
  import opened Linear
  import opened Canonical
  import opened Feasibility
  import opened Solve

  /** `x + y ≥ 2` becomes the inequality row `[-1, -1]` with right-hand side `-2`. */
  lemma GteRowNegated()
    ensures Canonicalize([Constraint([1.0, 1.0], 2.0, "gte")]) == Systems([], [], [[-1.0, -1.0]], [-2.0])
  {
    var cs := [Constraint([1.0, 1.0], 2.0, "gte")];
    assert cs[..0] == [];
    assert Neg([1.0, 1.0]) == [-1.0, -1.0];
  }

  /** Maximise `3x + 2y` subject to `x + y ≤ 4` and `x ≤ 2`. */
  function MaxProblem(): Problem
  {
    Problem([3.0, 2.0], [Constraint([1.0, 1.0], 4.0, "lte"), Constraint([1.0, 0.0], 2.0, "lte")], "max")
  }

  /** A solver that answers the minimum `-10` at `(2, 2)`. */
  function MaxSolver(): Solver
  {
    (c, s) => SolverResult(true, [2.0, 2.0], -10.0)
  }

  /** When the solver minimises `-3x - 2y` to `-10` at `(2, 2)`, the run reports
      the point `(2, 2)` and the optimum `10`, and that point is feasible with
      objective value `10`. */
  lemma MaxProblemReported()
    ensures Objective([3.0, 2.0], "max") == [-3.0, -2.0]
    ensures Run(MaxProblem(), MaxSolver()) == Solution(Some([2.0, 2.0]), Some(10.0))
    ensures SatisfiesAll(MaxProblem().constraints, [2.0, 2.0])
    ensures Dot([3.0, 2.0], [2.0, 2.0]) == 10.0
  {
  }

  /** The canonical systems of the max problem: two upper-bound rows. */
  lemma MaxProblemSystems()
    ensures Canonicalize(MaxProblem().constraints) == Systems([], [], [[1.0, 1.0], [1.0, 0.0]], [4.0, 2.0])
  {
    var cs := MaxProblem().constraints;
    assert cs[..1][..0] == [] && cs[..2][..1] == cs[..1] && cs[..2] == cs;
  }

  /** The inner product of a length-two row, written out. */
  lemma Dot2(a: seq<real>, y: seq<real>)
    requires |a| == 2 && |y| == 2
    ensures Dot(a, y) == a[0] * y[0] + a[1] * y[1]
  {
    assert Dot(a, y) == a[0] * y[0] + Dot(a[1..], y[1..]);
    assert Dot(a[1..], y[1..]) == a[1] * y[1] + Dot(a[1..][1..], y[1..][1..]);
  }

  /** What the two canonical rows of the max problem demand of a point. */
  lemma MaxRowBounds(y: seq<real>)
    requires |y| == 2 && SystemHolds(Systems([], [], [[1.0, 1.0], [1.0, 0.0]], [4.0, 2.0]), y)
    ensures y[0] + y[1] <= 4.0 && y[0] <= 2.0
  {
    var sys := Systems([], [], [[1.0, 1.0], [1.0, 0.0]], [4.0, 2.0]);
    assert Dot(sys.aUb[0], y) <= 4.0;
    assert Dot(sys.aUb[1], y) <= 2.0;
    Dot2(sys.aUb[0], y);
    Dot2(sys.aUb[1], y);
  }

  /** The signed objective `-3x - 2y`, written out. */
  lemma SignedObjective(y: seq<real>)
    requires |y| == 2
    ensures Dot([-3.0, -2.0], y) == -3.0 * y[0] - 2.0 * y[1]
  {
    Dot2([-3.0, -2.0], y);
  }

  /** No point satisfying the two rows has `-3x - 2y` below `-10`. */
  lemma MaxRowsMinimum(y: seq<real>)
    requires |y| == 2 && SystemHolds(Systems([], [], [[1.0, 1.0], [1.0, 0.0]], [4.0, 2.0]), y)
    ensures Dot([-3.0, -2.0], [2.0, 2.0]) <= Dot([-3.0, -2.0], y)
  {
    MaxRowBounds(y);
    SignedObjective(y);
    SignedObjective([2.0, 2.0]);
  }

  /** `(2, 2)` satisfies the two rows. */
  lemma MaxRowsFeasible()
    ensures SystemHolds(Systems([], [], [[1.0, 1.0], [1.0, 0.0]], [4.0, 2.0]), [2.0, 2.0])
  {
    Dot2([1.0, 1.0], [2.0, 2.0]);
    Dot2([1.0, 0.0], [2.0, 2.0]);
  }

  /** On the literal systems, `(2, 2)` is feasible and no feasible point has
      a smaller value of `-3x - 2y`. */
  lemma MaxSolverOptimalOnRows()
    ensures SolverOptimal(MaxSolver(), [-3.0, -2.0], Systems([], [], [[1.0, 1.0], [1.0, 0.0]], [4.0, 2.0]))
  {
    var sys := Systems([], [], [[1.0, 1.0], [1.0, 0.0]], [4.0, 2.0]);
    forall y | |y| == 2 && NonNeg(y) && SystemHolds(sys, y)
      ensures Dot([-3.0, -2.0], [2.0, 2.0]) <= Dot([-3.0, -2.0], y)
    {
      MaxRowsMinimum(y);
    }
    MaxRowsFeasible();
    SignedObjective([2.0, 2.0]);
  }

  /** That answer is what a correct solver may give for the max problem. */
  lemma MaxSolverOptimal()
    ensures SolverOptimal(MaxSolver(), Objective([3.0, 2.0], "max"), Canonicalize(MaxProblem().constraints))
  {
    assert Objective([3.0, 2.0], "max") == [-3.0, -2.0] by {
      assert Neg([3.0, 2.0]) == [-3.0, -2.0];
    }
    MaxProblemSystems();
    MaxSolverOptimalOnRows();
  }

  /** So `10` is the optimum: no non-negative point satisfying both
      constraints has `3x + 2y` above `10`. */
  lemma MaxProblemOptimal()
    ensures forall y :: |y| == 2 && NonNeg(y) && SatisfiesAll(MaxProblem().constraints, y) ==>
      Dot([3.0, 2.0], y) <= 10.0
  {
    var p := MaxProblem();
    assert Shaped(p.constraints, |p.f|);
    MaxSolverOptimal();
    RunOptimal(p, MaxSolver());
    MaxProblemReported();
    var s := Run(p, MaxSolver());
    assert s.value.value == 10.0 && IsMax(p.goal);
  }

  /** `x ≥ 3` together with `x ≤ 1`. */
  function InfeasibleProblem(goal: string): Problem
  {
    Problem([1.0], [Constraint([1.0], 3.0, "gte"), Constraint([1.0], 1.0, "lte")], goal)
  }

  /** A correct solver cannot succeed on an infeasible problem, so the run
      reports neither a point nor a value. */
  lemma InfeasibleReportsNothing(goal: string, linprog: Solver)
    requires SolverOptimal(linprog, Objective([1.0], goal), Canonicalize(InfeasibleProblem(goal).constraints))
    ensures Run(InfeasibleProblem(goal), linprog) == Solution(None, None)
  {
    var p := InfeasibleProblem(goal);
    var res := linprog(Objective(p.f, goal), Canonicalize(p.constraints));
    if res.success {
      assert Shaped(p.constraints, 1);
      FeasibleSetPreserved(p.constraints, res.x);
    }
  }
}

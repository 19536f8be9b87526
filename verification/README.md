# Linear-programming canonicaliser

A model, in Dafny, of the small linear-programming driver in `main.py`. The
driver reads a problem (objective vector `f`, a list of typed constraints and a
goal), turns the constraints into the canonical form a generic LP solver takes,
calls the solver, and reports the optimum in the caller's sign.

Modelled:

- `to_canonical_form`: one pass over the constraints, in input order. An `eq`
  constraint goes to the equality system `(A_eq, b_eq)` unchanged. An `lte`
  constraint goes to the upper-bound system `(A_ub, b_ub)` unchanged. A `gte`
  constraint goes there with its row and right-hand side negated. A constraint
  whose `type` is any other string is dropped, provided it has `type`, `coefs`
  and `b` (a missing key raises instead; see "## Left out").
- `solve_linear_programming`: the objective is negated for the goal `"max"`,
  the solver is called, and on success the point and the objective value are
  returned, with the value negated back for `"max"`. On failure both are absent.

The external solver (`scipy.optimize.linprog`) is a parameter of type
`Solver`. Its correctness (feasible, optimal point under its default
non-negativity bound) is a precondition, `Solve.SolverOptimal`, of the
end-to-end theorem `Solve.RunOptimal`.

Files, one module each:

- `wrappers.dfy`: `Option`, for the `None` that `solve_linear_programming` returns.
- `linear.dfy`: exact inner product and row negation over `real`.
- `canonical.dfy`: the data model and the canonicaliser, with its order and
  partition lemmas.
- `feasibility.dfy`: what it means to satisfy the input constraints and the
  canonical systems, and the feasible-set equivalence.
- `solve.dfy`: the goal's sign convention, the result wrapping, and the run as
  a whole.
- `scenarios.dfy`: worked instances.

In `main.py` the goal is compared with `"max"` only, so every other string
minimises. A constraint `type` outside `eq`/`lte`/`gte` is silently dropped
rather than rejected. Variable bounds stay implicit in the solver, and all
solver failures collapse into one "no solution" outcome.

## Model

| member | source | states |
|---|---|---|
| Linear.Neg | main.py:35 | the negated row has the same length and each entry is the negation of the original entry |
| Linear.DotNeg | main.py:35 | the negated row `-coef` has, at every point, the negated inner product of `coef` |
| Linear.GeAsLe | main.py:34-36 | `c·x ≥ b` holds exactly when `(-c)·x ≤ -b`, so the `gte` rewrite keeps the constraint's meaning |
| Canonical.KindOf | main.py:28-34 | `"eq"`, `"lte"` and `"gte"` each select their own branch, and exactly the other strings select none |
| Canonical.Route | main.py:28-36 | one loop step: `eq` appends row and side to the equality system, `lte` appends them to the inequality system, `gte` appends them negated there; the other system is unchanged, and an unrecognised constraint changes nothing |
| Canonical.Canonicalize | main.py:24-36 | the loop leaves `A_eq`/`b_eq` and `A_ub`/`b_ub` parallel and adds at most one row per constraint |
| Canonical.ToCanonicalForm | main.py:14-38 | the objective `f` is returned unchanged beside two parallel systems; no bounds are returned |
| Canonical.CanonicalFormLoop | main.py:18-38 | the loop that appends to four lists computes exactly the functional canonical form |
| Canonical.EqRowsInOrder | main.py:28-30 | `A_eq` and `b_eq` are the rows and right-hand sides of exactly the `eq` constraints, unchanged, in input order |
| Canonical.UbRowsInOrder | main.py:31-36 | `A_ub` has one row per `lte`/`gte` constraint in input order across both kinds; `lte` rows and sides unchanged, `gte` rows and sides negated |
| Canonical.RecognisedRowCount | main.py:28-36 | `|A_eq| + |A_ub|` equals the number of constraints whose type is `eq`, `lte` or `gte` |
| Canonical.UnrecognisedDropped | main.py:28-36 | removing every constraint of unrecognised type leaves the canonical form unchanged: such constraints are dropped |
| Canonical.CanonicalizeAppend | main.py:24-36 | the pass is a single scan: the rows from a concatenated list are the rows of the first part followed by those of the second |
| Feasibility.RouteHolds | main.py:28-36 | one loop step adds to the systems exactly the condition its constraint imposes on a point |
| Feasibility.FeasibleSetPreserved | main.py:24-36 | for every point, it satisfies all `eq`/`lte`/`gte` constraints iff `A_eq·x = b_eq` and `A_ub·x ≤ b_ub` row by row |
| Solve.Objective | main.py:49-50 | the objective passed to the solver values each point at `-f·x` for goal `"max"` and at `f·x` otherwise |
| Solve.ObjectiveOrder | main.py:49-50 | minimising the solver's objective orders points by `f·x` descending for `"max"` and ascending otherwise |
| Solve.Report | main.py:54-57 | point and value are both present on success and both absent on failure; the value is `-fun` for `"max"` and `fun` otherwise |
| Solve.SolveLinearProgramming | main.py:42-57 | a result is reported iff the solver succeeds; if the solver's `fun` is its objective at its point, the reported value is `f·x` there |
| Solve.SolverOptimal | main.py:52 | what `linprog` is assumed to promise: a failure is always admissible, and a success comes with a point of the objective's width that satisfies both systems (and, in its body, the default bound and optimality) |
| Solve.Run | main.py:66-69 | canonicalise then solve: a result is reported exactly when the solver succeeds on the signed objective and the canonical systems, point and value together, the point being the solver's |
| Solve.RunOptimal | main.py:66-69 | with a correct solver, a reported point satisfies every input constraint, its value is `f·x`, and no feasible point beats it in the goal's direction |
| Scenarios.GteRowNegated | main.py:34-36 | `x + y ≥ 2` canonicalises to the row `[-1, -1]` with right-hand side `-2` |
| Scenarios.MaxProblemReported | main.py:49-55 | maximising `3x + 2y` under `x + y ≤ 4`, `x ≤ 2`: a solver minimum of `-10` at `(2, 2)` is reported as `10` at that feasible point |
| Scenarios.MaxSolverOptimal | main.py:49-52 | for that problem, a solver answering `-10` at `(2, 2)` meets the solver contract: the point is feasible and minimises `-3x - 2y` |
| Scenarios.MaxProblemOptimal | main.py:49-55 | hence `10` is the optimum: no non-negative point with `x + y ≤ 4` and `x ≤ 2` has `3x + 2y` above `10` |
| Scenarios.InfeasibleReportsNothing | main.py:54-57 | for `x ≥ 3` with `x ≤ 1`, a correct solver cannot succeed, so neither a point nor a value is reported |

## Left out

- `read_json` and the `__main__` block (main.py:7-10, 61-75): file I/O, JSON parsing and console output. Only the composition canonicalise-then-solve (`Solve.Run`) is kept.
- `scipy.optimize.linprog` (main.py:52): an external numerical solver. It is the parameter `linprog`, and `Solve.SolverOptimal` states what a correct one promises, including its default non-negativity bound.
- The `np.array` conversions (main.py:15, 25, 43-47): vectors are `seq<real>`, matrices `seq<seq<real>>`. The solver takes the two systems as one `Systems` value instead of four arguments.
- Floating-point arithmetic: all arithmetic is exact `real`.
- The local `bounds = []` (main.py:22): it is never used or returned, so it has no counterpart.
- Idempotence of canonicalisation: `Canonical.Canonicalize` is a mathematical function, so two calls on the same input are equal by definition.
- Exceptions from missing keys (main.py:25-28): `constraint['coefs']` and `constraint['b']` are read for every constraint before its type is tested, and `constraint['type']` is read at main.py:28, so a constraint missing any of the three raises `KeyError`, whatever its type. `Constraint` always has all three fields, so this path is not modelled.
- Exceptions raised by `linprog` (main.py:52), such as those for rows whose width differs from the objective's: they propagate out of `solve_linear_programming`. `Solver` is a total function that always returns a result, so they are not modelled.
- Dimension mismatches: `Linear.Dot` requires equal lengths. The feasibility theorems therefore require every recognised row to have the point's width. In `main.py` a mismatch raises inside numpy or `linprog` instead (see above).

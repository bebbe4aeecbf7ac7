/** The two linear programs of the minimax formulation, exactly as the solver
    builds them, and what they mean: an assignment is feasible for player 1's
    LP iff it is a mixed strategy that guarantees at least the game value
    against every pure strategy of player 2 (dually for player 2). */
module Formulation {
  import opened Payoff
  import opened Lp

  // ---------------------------------------------------------------------------
  // Constraint families

  /** `Σ_{i<n} x_i == 1` */
  function Simplex(n: nat): Constraint
  {
    Constraint(Affine(Units(ProbVars(n)), 0.0), Eq, Const(1.0))
  }

  /** `x_i >= 0` */
  function NonNeg(i: nat): Constraint
  {
    Constraint(VarExpr(Prob(i)), Ge, Const(0.0))
  }

  /** `x_0 >= 0, .., x_{n-1} >= 0` in index order. */
  function NonNegs(n: nat): (cs: seq<Constraint>)
    ensures |cs| == n
  {
    if n == 0 then [] else NonNegs(n - 1) + [NonNeg(n - 1)]
  }

  /** The terms `u(m[i][j]) * x_i` for `i < n`, in the order the inner loop adds them. */
  function ColumnTerms(m: Matrix, u: Entry -> real, j: nat, n: nat): (ts: seq<Term>)
    requires j < m.cols && n <= m.rows
    ensures |ts| == n
  {
    if n == 0 then [] else ColumnTerms(m, u, j, n - 1) + [Term(u(m.cells[n - 1][j]), Prob(n - 1))]
  }

  /** Player 1's constraint for player 2's pure strategy `j`: `Σ_i u(m[i][j]) x_i >= v`. */
  function Guarantee(m: Matrix, u: Entry -> real, j: nat): Constraint
    requires j < m.cols
  {
    Constraint(Affine(ColumnTerms(m, u, j, m.rows), 0.0), Ge, VarExpr(Value))
  }

  function Guarantees(m: Matrix, u: Entry -> real, n: nat): (cs: seq<Constraint>)
    requires n <= m.cols
    ensures |cs| == n
  {
    if n == 0 then [] else Guarantees(m, u, n - 1) + [Guarantee(m, u, n - 1)]
  }

  /** The terms `u(m[i][j]) * y_j` for `j < n`, in the order the inner loop adds them. */
  function RowTerms(m: Matrix, u: Entry -> real, i: nat, n: nat): (ts: seq<Term>)
    requires i < m.rows && n <= m.cols
    ensures |ts| == n
  {
    if n == 0 then [] else RowTerms(m, u, i, n - 1) + [Term(u(m.cells[i][n - 1]), Prob(n - 1))]
  }

  /** Player 2's constraint for player 1's pure strategy `i`: `Σ_j u(m[i][j]) y_j <= v`. */
  function Cap(m: Matrix, u: Entry -> real, i: nat): Constraint
    requires i < m.rows
  {
    Constraint(Affine(RowTerms(m, u, i, m.cols), 0.0), Le, VarExpr(Value))
  }

  function Caps(m: Matrix, u: Entry -> real, n: nat): (cs: seq<Constraint>)
    requires n <= m.rows
    ensures |cs| == n
  {
    if n == 0 then [] else Caps(m, u, n - 1) + [Cap(m, u, n - 1)]
  }

  // ---------------------------------------------------------------------------
  // The two programs

  /** Player 1 (maximiser): variables v, x_0..x_{n1-1}; simplex, non-negativity,
      one guarantee per column; maximise v. */
  function Player1LP(m: Matrix, lower: Bound): (p: Program)
    ensures p.lower == lower && |p.vars| == 1 + m.rows && p.vars[0] == Value
    ensures forall i :: 0 <= i < m.rows ==> p.vars[1 + i] == Prob(i)
    ensures |p.constraints| == 1 + m.rows + m.cols
  {
    Program(lower, [Value] + ProbVars(m.rows),
            [Simplex(m.rows)] + NonNegs(m.rows) + Guarantees(m, Utility1, m.cols),
            Some(Objective(VarExpr(Value), Maximize)))
  }

  /** Player 2 (minimiser) under decoding `u`: variables v, y_0..y_{n2-1};
      simplex, non-negativity, one cap per row; minimise v. */
  function MinimizerLP(m: Matrix, lower: Bound, u: Entry -> real): (p: Program)
    ensures p.lower == lower && |p.vars| == 1 + m.cols && p.vars[0] == Value
    ensures forall j :: 0 <= j < m.cols ==> p.vars[1 + j] == Prob(j)
    ensures |p.constraints| == 1 + m.cols + m.rows
  {
    Program(lower, [Value] + ProbVars(m.cols),
            [Simplex(m.cols)] + NonNegs(m.cols) + Caps(m, u, m.rows),
            Some(Objective(VarExpr(Value), Minimize)))
  }

  /** Player 2's LP as the code builds it (boolean entries all read as 1). */
  function Player2LP(m: Matrix, lower: Bound): Program
  {
    MinimizerLP(m, lower, Utility2)
  }

  /** Player 2's LP under the zero-sum convention: the same decoding as player 1. */
  function Player2ZeroSumLP(m: Matrix, lower: Bound): Program
  {
    MinimizerLP(m, lower, Utility1)
  }

  // ---------------------------------------------------------------------------
  // Reference semantics, defined independently of the constraint syntax

  /** Expected utility of player 1's mix `x` over the first `n` rows against column `j`. */
  function Against(m: Matrix, u: Entry -> real, x: Var -> real, j: nat, n: nat): real
    requires j < m.cols && n <= m.rows
  {
    if n == 0 then 0.0 else Against(m, u, x, j, n - 1) + u(m.cells[n - 1][j]) * x(Prob(n - 1))
  }

  /** Expected utility to player 1 of row `i` against player 2's mix `y` over the first `n` columns. */
  function Facing(m: Matrix, u: Entry -> real, y: Var -> real, i: nat, n: nat): real
    requires i < m.rows && n <= m.cols
  {
    if n == 0 then 0.0 else Facing(m, u, y, i, n - 1) + u(m.cells[i][n - 1]) * y(Prob(n - 1))
  }

  /** The probability variables of `x` form a mixed strategy over `n` pure strategies. */
  predicate IsMixed(x: Var -> real, n: nat)
  {
    Total(x, n) == 1.0 && forall i :: 0 <= i < n ==> x(Prob(i)) >= 0.0
  }

  /** Every variable respects the engine's default bound. */
  predicate Bounded(lower: Bound, x: Var -> real, n: nat)
  {
    InBound(lower, x(Value)) && forall i :: 0 <= i < n ==> InBound(lower, x(Prob(i)))
  }

  // ---------------------------------------------------------------------------
  // Meaning of each constraint family

  lemma {:induction false} EvalColumn(m: Matrix, u: Entry -> real, j: nat, n: nat, x: Var -> real)
    requires j < m.cols && n <= m.rows
    ensures Eval(ColumnTerms(m, u, j, n), x) == Against(m, u, x, j, n)
  {
    if n > 0 {
      var ts := ColumnTerms(m, u, j, n);
      assert ts[..n - 1] == ColumnTerms(m, u, j, n - 1);
      EvalColumn(m, u, j, n - 1, x);
    }
  }

  lemma {:induction false} EvalRow(m: Matrix, u: Entry -> real, i: nat, n: nat, y: Var -> real)
    requires i < m.rows && n <= m.cols
    ensures Eval(RowTerms(m, u, i, n), y) == Facing(m, u, y, i, n)
  {
    if n > 0 {
      var ts := RowTerms(m, u, i, n);
      assert ts[..n - 1] == RowTerms(m, u, i, n - 1);
      EvalRow(m, u, i, n - 1, y);
    }
  }

  lemma EvalVar(v: Var, x: Var -> real)
    ensures EvalAffine(VarExpr(v), x) == x(v)
  {
    var ts := VarExpr(v).terms;
    assert ts[..0] == [];
    assert Eval(ts, x) == Eval(ts[..0], x) + 1.0 * x(v);
  }

  lemma HoldsSimplex(n: nat, x: Var -> real)
    ensures Holds(Simplex(n), x) <==> Total(x, n) == 1.0
  {
    EvalUnits(n, x);
  }

  lemma {:induction false} NonNegsHold(n: nat, x: Var -> real)
    ensures AllHold(NonNegs(n), x) <==> forall i :: 0 <= i < n ==> x(Prob(i)) >= 0.0
  {
    if n > 0 {
      NonNegsHold(n - 1, x);
      AllHoldConcat(NonNegs(n - 1), [NonNeg(n - 1)], x);
      AllHoldSingle(NonNeg(n - 1), x);
      EvalVar(Prob(n - 1), x);
    }
  }

  lemma {:induction false} GuaranteesHold(m: Matrix, u: Entry -> real, n: nat, x: Var -> real)
    requires n <= m.cols
    ensures AllHold(Guarantees(m, u, n), x) <==>
            forall j :: 0 <= j < n ==> Against(m, u, x, j, m.rows) >= x(Value)
  {
    if n > 0 {
      GuaranteesHold(m, u, n - 1, x);
      AllHoldConcat(Guarantees(m, u, n - 1), [Guarantee(m, u, n - 1)], x);
      AllHoldSingle(Guarantee(m, u, n - 1), x);
      EvalColumn(m, u, n - 1, m.rows, x);
      EvalVar(Value, x);
    }
  }

  lemma {:induction false} CapsHold(m: Matrix, u: Entry -> real, n: nat, y: Var -> real)
    requires n <= m.rows
    ensures AllHold(Caps(m, u, n), y) <==>
            forall i :: 0 <= i < n ==> Facing(m, u, y, i, m.cols) <= y(Value)
  {
    if n > 0 {
      CapsHold(m, u, n - 1, y);
      AllHoldConcat(Caps(m, u, n - 1), [Cap(m, u, n - 1)], y);
      AllHoldSingle(Cap(m, u, n - 1), y);
      EvalRow(m, u, n - 1, m.cols, y);
      EvalVar(Value, y);
    }
  }

  lemma VarsInBound(lower: Bound, n: nat, x: Var -> real)
    ensures AllInBound(lower, [Value] + ProbVars(n), x) <==> Bounded(lower, x, n)
  {
    var vs := [Value] + ProbVars(n);
    if Bounded(lower, x, n) {
      forall k | 0 <= k < |vs| ensures InBound(lower, x(vs[k])) {
        if k > 0 {
          assert vs[k] == Prob(k - 1);
        }
      }
    }
    if AllInBound(lower, vs, x) {
      assert vs[0] == Value;
      forall i | 0 <= i < n ensures InBound(lower, x(Prob(i))) {
        assert vs[i + 1] == Prob(i);
      }
    }
  }

  // ---------------------------------------------------------------------------
  // What the programs mean

  /** Player 1's LP is feasible at `x` exactly when `x` is a mixed strategy of
      player 1 whose expected utility against every pure strategy of player 2
      is at least the game value, and every variable respects the default bound. */
  lemma Player1Feasible(m: Matrix, lower: Bound, x: Var -> real)
    ensures Feasible(Player1LP(m, lower), x) <==>
            && IsMixed(x, m.rows)
            && (forall j :: 0 <= j < m.cols ==> Against(m, Utility1, x, j, m.rows) >= x(Value))
            && Bounded(lower, x, m.rows)
  {
    var p := Player1LP(m, lower);
    AllHoldConcat([Simplex(m.rows)] + NonNegs(m.rows), Guarantees(m, Utility1, m.cols), x);
    AllHoldConcat([Simplex(m.rows)], NonNegs(m.rows), x);
    AllHoldSingle(Simplex(m.rows), x);
    HoldsSimplex(m.rows, x);
    NonNegsHold(m.rows, x);
    GuaranteesHold(m, Utility1, m.cols, x);
    VarsInBound(lower, m.rows, x);
  }

  /** Player 2's LP (under any decoding `u`) is feasible at `y` exactly when `y`
      is a mixed strategy of player 2 holding player 1's expected utility of
      every pure row to at most the game value, within the default bound. */
  lemma MinimizerFeasible(m: Matrix, lower: Bound, u: Entry -> real, y: Var -> real)
    ensures Feasible(MinimizerLP(m, lower, u), y) <==>
            && IsMixed(y, m.cols)
            && (forall i :: 0 <= i < m.rows ==> Facing(m, u, y, i, m.cols) <= y(Value))
            && Bounded(lower, y, m.cols)
  {
    AllHoldConcat([Simplex(m.cols)] + NonNegs(m.cols), Caps(m, u, m.rows), y);
    AllHoldConcat([Simplex(m.cols)], NonNegs(m.cols), y);
    AllHoldSingle(Simplex(m.cols), y);
    HoldsSimplex(m.cols, y);
    NonNegsHold(m.cols, y);
    CapsHold(m, u, m.rows, y);
    VarsInBound(lower, m.cols, y);
  }

  // ---------------------------------------------------------------------------
  // Shape of the programs: counts, order, coefficients

  lemma {:induction false} CountNonNegs(n: nat, r: Rel)
    ensures CountRel(NonNegs(n), r) == if r == Ge then n else 0
  {
    if n > 0 {
      CountNonNegs(n - 1, r);
      CountRelConcat(NonNegs(n - 1), [NonNeg(n - 1)], r);
      CountRelSingle(NonNeg(n - 1), r);
    }
  }

  lemma {:induction false} CountGuarantees(m: Matrix, u: Entry -> real, n: nat, r: Rel)
    requires n <= m.cols
    ensures CountRel(Guarantees(m, u, n), r) == if r == Ge then n else 0
  {
    if n > 0 {
      CountGuarantees(m, u, n - 1, r);
      CountRelConcat(Guarantees(m, u, n - 1), [Guarantee(m, u, n - 1)], r);
      CountRelSingle(Guarantee(m, u, n - 1), r);
    }
  }

  lemma {:induction false} CountCaps(m: Matrix, u: Entry -> real, n: nat, r: Rel)
    requires n <= m.rows
    ensures CountRel(Caps(m, u, n), r) == if r == Le then n else 0
  {
    if n > 0 {
      CountCaps(m, u, n - 1, r);
      CountRelConcat(Caps(m, u, n - 1), [Cap(m, u, n - 1)], r);
      CountRelSingle(Cap(m, u, n - 1), r);
    }
  }

  /** Player 1's LP has one equality, n1 + n2 `>=` constraints and no `<=`
      constraint, 1 + n1 variables, and maximises the game value. */
  lemma Player1Counts(m: Matrix, lower: Bound)
    ensures var p := Player1LP(m, lower);
            && CountRel(p.constraints, Eq) == 1
            && CountRel(p.constraints, Ge) == m.rows + m.cols
            && CountRel(p.constraints, Le) == 0
            && |p.vars| == 1 + m.rows
            && p.objective == Some(Objective(VarExpr(Value), Maximize))
  {
    var a, b, c := [Simplex(m.rows)], NonNegs(m.rows), Guarantees(m, Utility1, m.cols);
    forall r: Rel
      ensures CountRel(a + b + c, r) == (if r == Eq then 1 else 0) + (if r == Ge then m.rows + m.cols else 0)
    {
      CountRelConcat(a + b, c, r);
      CountRelConcat(a, b, r);
      CountRelSingle(Simplex(m.rows), r);
      CountNonNegs(m.rows, r);
      CountGuarantees(m, Utility1, m.cols, r);
    }
  }

  /** Player 2's LP has one equality, n2 `>=` constraints, n1 `<=` constraints,
      1 + n2 variables, and minimises the game value. */
  lemma MinimizerCounts(m: Matrix, lower: Bound, u: Entry -> real)
    ensures var p := MinimizerLP(m, lower, u);
            && CountRel(p.constraints, Eq) == 1
            && CountRel(p.constraints, Ge) == m.cols
            && CountRel(p.constraints, Le) == m.rows
            && |p.vars| == 1 + m.cols
            && p.objective == Some(Objective(VarExpr(Value), Minimize))
  {
    var a, b, c := [Simplex(m.cols)], NonNegs(m.cols), Caps(m, u, m.rows);
    forall r: Rel
      ensures CountRel(a + b + c, r) ==
              (if r == Eq then 1 else 0) + (if r == Ge then m.cols else 0) + (if r == Le then m.rows else 0)
    {
      CountRelConcat(a + b, c, r);
      CountRelConcat(a, b, r);
      CountRelSingle(Simplex(m.cols), r);
      CountNonNegs(m.cols, r);
      CountCaps(m, u, m.rows, r);
    }
  }

  lemma {:induction false} NonNegAt(n: nat, i: nat)
    requires i < n
    ensures NonNegs(n)[i] == NonNeg(i)
  {
    if i < n - 1 {
      NonNegAt(n - 1, i);
    }
  }

  lemma {:induction false} ColumnTermAt(m: Matrix, u: Entry -> real, j: nat, n: nat, i: nat)
    requires j < m.cols && i < n <= m.rows
    ensures ColumnTerms(m, u, j, n)[i] == Term(u(m.cells[i][j]), Prob(i))
  {
    if i < n - 1 {
      ColumnTermAt(m, u, j, n - 1, i);
    }
  }

  lemma {:induction false} RowTermAt(m: Matrix, u: Entry -> real, i: nat, n: nat, j: nat)
    requires i < m.rows && j < n <= m.cols
    ensures RowTerms(m, u, i, n)[j] == Term(u(m.cells[i][j]), Prob(j))
  {
    if j < n - 1 {
      RowTermAt(m, u, i, n - 1, j);
    }
  }

  lemma {:induction false} GuaranteeAt(m: Matrix, u: Entry -> real, n: nat, j: nat)
    requires j < n <= m.cols
    ensures Guarantees(m, u, n)[j] == Guarantee(m, u, j)
  {
    if j < n - 1 {
      GuaranteeAt(m, u, n - 1, j);
    }
  }

  lemma {:induction false} CapAt(m: Matrix, u: Entry -> real, n: nat, i: nat)
    requires i < n <= m.rows
    ensures Caps(m, u, n)[i] == Cap(m, u, i)
  {
    if i < n - 1 {
      CapAt(m, u, n - 1, i);
    }
  }

  /** Player 1's constraints in order: the simplex equality, then `x_i >= 0`
      for each row i, then for each column j (in index order) a `>= v`
      constraint whose i-th term is `u1(m[i][j]) * x_i`. */
  lemma Player1Layout(m: Matrix, lower: Bound)
    ensures var cs := Player1LP(m, lower).constraints;
            && |cs| == 1 + m.rows + m.cols
            && cs[0] == Simplex(m.rows)
            && (forall k :: 1 <= k < 1 + m.rows ==> cs[k] == NonNeg(k - 1))
            && (forall k :: 1 + m.rows <= k < |cs| ==>
                  cs[k].rel == Ge && cs[k].rhs == VarExpr(Value) && |cs[k].lhs.terms| == m.rows)
            && (forall k, i :: 1 + m.rows <= k < |cs| && 0 <= i < m.rows ==>
                  cs[k].lhs.terms[i] == Term(Utility1(m.cells[i][k - 1 - m.rows]), Prob(i)))
  {
    GuaranteesLayout(m);
  }

  lemma GuaranteesLayout(m: Matrix)
    ensures var cs := [Simplex(m.rows)] + NonNegs(m.rows) + Guarantees(m, Utility1, m.cols);
            && |cs| == 1 + m.rows + m.cols
            && cs[0] == Simplex(m.rows)
            && (forall k :: 1 <= k < 1 + m.rows ==> cs[k] == NonNeg(k - 1))
            && (forall k :: 1 + m.rows <= k < |cs| ==>
                  cs[k].rel == Ge && cs[k].rhs == VarExpr(Value) && |cs[k].lhs.terms| == m.rows)
            && (forall k, i :: 1 + m.rows <= k < |cs| && 0 <= i < m.rows ==>
                  cs[k].lhs.terms[i] == Term(Utility1(m.cells[i][k - 1 - m.rows]), Prob(i)))
  {
    var b, c := NonNegs(m.rows), Guarantees(m, Utility1, m.cols);
    var cs := [Simplex(m.rows)] + b + c;
    forall k | 1 <= k < 1 + m.rows ensures cs[k] == NonNeg(k - 1) {
      assert cs[k] == b[k - 1];
      NonNegAt(m.rows, k - 1);
    }
    forall k | 1 + m.rows <= k < |cs| ensures cs[k] == Guarantee(m, Utility1, k - 1 - m.rows) {
      assert cs[k] == c[k - 1 - m.rows];
      GuaranteeAt(m, Utility1, m.cols, k - 1 - m.rows);
    }
    forall k, i | 1 + m.rows <= k < |cs| && 0 <= i < m.rows
      ensures cs[k].lhs.terms[i] == Term(Utility1(m.cells[i][k - 1 - m.rows]), Prob(i))
    {
      ColumnTermAt(m, Utility1, k - 1 - m.rows, m.rows, i);
    }
  }

  /** Player 2's constraints in order: the simplex equality, then `y_j >= 0`
      for each column j, then for each row i (in index order) a `<= v`
      constraint whose j-th term is `u(m[i][j]) * y_j`. */
  lemma MinimizerLayout(m: Matrix, lower: Bound, u: Entry -> real)
    ensures var cs := MinimizerLP(m, lower, u).constraints;
            && |cs| == 1 + m.cols + m.rows
            && cs[0] == Simplex(m.cols)
            && (forall k :: 1 <= k < 1 + m.cols ==> cs[k] == NonNeg(k - 1))
            && (forall k :: 1 + m.cols <= k < |cs| ==>
                  cs[k].rel == Le && cs[k].rhs == VarExpr(Value) && |cs[k].lhs.terms| == m.cols)
            && (forall k, j :: 1 + m.cols <= k < |cs| && 0 <= j < m.cols ==>
                  cs[k].lhs.terms[j] == Term(u(m.cells[k - 1 - m.cols][j]), Prob(j)))
  {
    CapsLayout(m, u);
  }

  lemma CapsLayout(m: Matrix, u: Entry -> real)
    ensures var cs := [Simplex(m.cols)] + NonNegs(m.cols) + Caps(m, u, m.rows);
            && |cs| == 1 + m.cols + m.rows
            && cs[0] == Simplex(m.cols)
            && (forall k :: 1 <= k < 1 + m.cols ==> cs[k] == NonNeg(k - 1))
            && (forall k :: 1 + m.cols <= k < |cs| ==>
                  cs[k].rel == Le && cs[k].rhs == VarExpr(Value) && |cs[k].lhs.terms| == m.cols)
            && (forall k, j :: 1 + m.cols <= k < |cs| && 0 <= j < m.cols ==>
                  cs[k].lhs.terms[j] == Term(u(m.cells[k - 1 - m.cols][j]), Prob(j)))
  {
    var b, c := NonNegs(m.cols), Caps(m, u, m.rows);
    var cs := [Simplex(m.cols)] + b + c;
    forall k | 1 <= k < 1 + m.cols ensures cs[k] == NonNeg(k - 1) {
      assert cs[k] == b[k - 1];
      NonNegAt(m.cols, k - 1);
    }
    forall k | 1 + m.cols <= k < |cs| ensures cs[k] == Cap(m, u, k - 1 - m.cols) {
      assert cs[k] == c[k - 1 - m.cols];
      CapAt(m, u, m.rows, k - 1 - m.cols);
    }
    forall k, j | 1 + m.cols <= k < |cs| && 0 <= j < m.cols
      ensures cs[k].lhs.terms[j] == Term(u(m.cells[k - 1 - m.cols][j]), Prob(j))
    {
      RowTermAt(m, u, k - 1 - m.cols, m.cols, j);
    }
  }
}

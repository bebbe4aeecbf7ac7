/** The Nash-equilibrium solver object: it stores the game's dimensions and
    payoff matrix, and for each player builds the minimax LP constraint by
    constraint, hands it to the optimiser and extracts the result. */
module Solver {
  import opened Payoff
  import opened Lp
  import opened Formulation
  import opened Extraction

  /** The two shape assertions of the constructor, in the order they are checked. */
  datatype ShapeError = RowMismatch | ColumnMismatch

  datatype Result<T> = Ok(value: T) | Err(error: ShapeError)

  class NashSolver {
    const gameStep: nat
    const actionChoice1: nat
    const actionChoice2: nat
    const total1: nat
    const total2: nat
    const payoff: Matrix

    /** The pure-strategy counts are the per-step counts raised to the step
        count, and the matrix has one row per pure strategy of player 1 and one
        column per pure strategy of player 2. */
    predicate Valid()
    {
      && total1 == Pow(actionChoice1, gameStep)
      && total2 == Pow(actionChoice2, gameStep)
      && payoff.rows == total1
      && payoff.cols == total2
    }

    /** The field assignments; the shape has been checked by `New`. */
    constructor (gameStep: nat, p1ActionNum: nat, p2ActionNum: nat, payoff: Matrix)
      requires payoff.rows == Pow(p1ActionNum, gameStep) && payoff.cols == Pow(p2ActionNum, gameStep)
      ensures Valid()
      ensures this.gameStep == gameStep && actionChoice1 == p1ActionNum && actionChoice2 == p2ActionNum
      ensures this.payoff == payoff
    {
      this.gameStep := gameStep;
      actionChoice1 := p1ActionNum;
      actionChoice2 := p2ActionNum;
      total1 := Pow(p1ActionNum, gameStep);
      total2 := Pow(p2ActionNum, gameStep);
      this.payoff := payoff;
    }

    /** Construction: derives both pure-strategy counts and fails, row check
        first, unless the matrix shape is (total1, total2). */
    static method New(gameStep: nat, p1ActionNum: nat, p2ActionNum: nat, payoff: Matrix)
      returns (r: Result<NashSolver>)
      ensures r.Ok? <==> payoff.rows == Pow(p1ActionNum, gameStep) && payoff.cols == Pow(p2ActionNum, gameStep)
      ensures r.Err? ==> r.error == if payoff.rows != Pow(p1ActionNum, gameStep) then RowMismatch else ColumnMismatch
      ensures r.Ok? ==> && fresh(r.value) && r.value.Valid()
                        && r.value.gameStep == gameStep
                        && r.value.actionChoice1 == p1ActionNum && r.value.actionChoice2 == p2ActionNum
                        && r.value.total1 == Pow(p1ActionNum, gameStep)
                        && r.value.total2 == Pow(p2ActionNum, gameStep)
                        && r.value.payoff == payoff
    {
      var total1 := Pow(p1ActionNum, gameStep);
      var total2 := Pow(p2ActionNum, gameStep);
      if payoff.rows != total1 {
        return Err(RowMismatch);
      }
      if payoff.cols != total2 {
        return Err(ColumnMismatch);
      }
      var s := new NashSolver(gameStep, p1ActionNum, p2ActionNum, payoff);
      r := Ok(s);
    }

    /** The inner loop of player 1's LP: `lhs` accumulates `u1(m[k][j]) * x_k`
        over the rows; its value at any assignment is player 1's expected
        utility against column `j`. */
    method ColumnSum(j: nat, actions: seq<Var>) returns (lhs: Affine)
      requires Valid() && j < total2 && actions == ProbVars(total1)
      ensures lhs == Affine(ColumnTerms(payoff, Utility1, j, total1), 0.0)
      ensures forall x :: EvalAffine(lhs, x) == Against(payoff, Utility1, x, j, total1)
    {
      lhs := Affine([], 0.0);
      var k := 0;
      while k < total1
        invariant 0 <= k <= total1
        invariant lhs == Affine(ColumnTerms(payoff, Utility1, j, k), 0.0)
      {
        var utility := Utility1(payoff.cells[k][j]);
        lhs := Affine(lhs.terms + [Term(utility, actions[k])], lhs.constant);
        k := k + 1;
      }
      forall x ensures EvalAffine(lhs, x) == Against(payoff, Utility1, x, j, total1) {
        EvalColumn(payoff, Utility1, j, total1, x);
      }
    }

    /** The inner loop of player 2's LP under decoding `u`: `lhs` accumulates
        `u(m[i][k]) * y_k` over the columns; its value at any assignment is
        row `i`'s expected utility against player 2's mix. */
    method RowSum(i: nat, actions: seq<Var>, u: Entry -> real) returns (lhs: Affine)
      requires Valid() && i < total1 && actions == ProbVars(total2)
      ensures lhs == Affine(RowTerms(payoff, u, i, total2), 0.0)
      ensures forall y :: EvalAffine(lhs, y) == Facing(payoff, u, y, i, total2)
    {
      lhs := Affine([], 0.0);
      var k := 0;
      while k < total2
        invariant 0 <= k <= total2
        invariant lhs == Affine(RowTerms(payoff, u, i, k), 0.0)
      {
        var utility := u(payoff.cells[i][k]);
        lhs := Affine(lhs.terms + [Term(utility, actions[k])], lhs.constant);
        k := k + 1;
      }
      forall y ensures EvalAffine(lhs, y) == Facing(payoff, u, y, i, total2) {
        EvalRow(payoff, u, i, total2, y);
      }
    }

    /** Player 1's LP, built step by step in a fresh model. */
    method BuildPlayer1(lower: Bound) returns (lp: Model)
      requires Valid()
      ensures fresh(lp) && lp.Snapshot() == Player1LP(payoff, lower)
    {
      lp := new Model(lower);
      var gameValue := lp.AddValueVar();
      var actions := lp.AddVars(total1);

      lp.AddConstr(Constraint(Affine(Units(actions), 0.0), Eq, Const(1.0)));
      var i := 0;
      while i < total1
        invariant 0 <= i <= total1
        invariant lp.Snapshot() == Program(lower, [Value] + ProbVars(total1), [Simplex(total1)] + NonNegs(i), None)
      {
        lp.AddConstr(Constraint(VarExpr(actions[i]), Ge, Const(0.0)));
        i := i + 1;
      }

      var j := 0;
      while j < total2
        invariant 0 <= j <= total2
        invariant lp.Snapshot() ==
                  Program(lower, [Value] + ProbVars(total1),
                          [Simplex(total1)] + NonNegs(total1) + Guarantees(payoff, Utility1, j), None)
      {
        var lhs := ColumnSum(j, actions);
        lp.AddConstr(Constraint(lhs, Ge, VarExpr(gameValue)));
        j := j + 1;
      }

      lp.SetObjective(VarExpr(gameValue), Maximize);
    }

    /** Player 1's LP handed to `optimize`; the result is extracted from the
        optimiser's answer. */
    method SolvePlayer1(lower: Bound, optimize: Program -> Outcome) returns (r: Option<Equilibrium>)
      requires Valid()
      ensures r == Extract(optimize(Player1LP(payoff, lower)), total1)
    {
      var lp := BuildPlayer1(lower);
      var outcome := optimize(lp.Snapshot());
      if outcome.status == Optimal {
        var strategy := Support(outcome.x, total1);
        r := Some(Equilibrium(strategy, outcome.objVal));
      } else {
        r := None;
      }
    }

    /** Player 2's LP with the entry decoding `u`, built step by step in a
        fresh model. */
    method BuildMinimizer(lower: Bound, u: Entry -> real) returns (lp: Model)
      requires Valid()
      ensures fresh(lp) && lp.Snapshot() == MinimizerLP(payoff, lower, u)
    {
      lp := new Model(lower);
      var gameValue := lp.AddValueVar();
      var actions := lp.AddVars(total2);

      lp.AddConstr(Constraint(Affine(Units(actions), 0.0), Eq, Const(1.0)));
      var j := 0;
      while j < total2
        invariant 0 <= j <= total2
        invariant lp.Snapshot() == Program(lower, [Value] + ProbVars(total2), [Simplex(total2)] + NonNegs(j), None)
      {
        lp.AddConstr(Constraint(VarExpr(actions[j]), Ge, Const(0.0)));
        j := j + 1;
      }

      var i := 0;
      while i < total1
        invariant 0 <= i <= total1
        invariant lp.Snapshot() ==
                  Program(lower, [Value] + ProbVars(total2),
                          [Simplex(total2)] + NonNegs(total2) + Caps(payoff, u, i), None)
      {
        var lhs := RowSum(i, actions, u);
        lp.AddConstr(Constraint(lhs, Le, VarExpr(gameValue)));
        i := i + 1;
      }

      lp.SetObjective(VarExpr(gameValue), Minimize);
    }

    /** Player 2's LP with the entry decoding `u` handed to `optimize`; the
        result is extracted from the optimiser's answer. */
    method SolveAsMinimizer(lower: Bound, optimize: Program -> Outcome, u: Entry -> real)
      returns (r: Option<Equilibrium>)
      requires Valid()
      ensures r == Extract(optimize(MinimizerLP(payoff, lower, u)), total2)
    {
      var lp := BuildMinimizer(lower, u);
      var outcome := optimize(lp.Snapshot());
      if outcome.status == Optimal {
        var strategy := Support(outcome.x, total2);
        r := Some(Equilibrium(strategy, outcome.objVal));
      } else {
        r := None;
      }
    }

    /** Player 2 as the code decodes entries: every boolean entry reads as 1. */
    method SolvePlayer2(lower: Bound, optimize: Program -> Outcome) returns (r: Option<Equilibrium>)
      requires Valid()
      ensures r == Extract(optimize(Player2LP(payoff, lower)), total2)
    {
      r := SolveAsMinimizer(lower, optimize, Utility2);
    }

    /** Player 2 under the zero-sum decoding shared with player 1. */
    method SolvePlayer2ZeroSum(lower: Bound, optimize: Program -> Outcome) returns (r: Option<Equilibrium>)
      requires Valid()
      ensures r == Extract(optimize(Player2ZeroSumLP(payoff, lower)), total2)
    {
      r := SolveAsMinimizer(lower, optimize, Utility1);
    }
  }
}

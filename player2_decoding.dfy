/** Player 2's LP reads every boolean entry as 1, where player 1's LP reads a
    loss as -1. This module shows when that matters and what the zero-sum
    decoding gives instead. */
module Player2Decoding {
  import opened Payoff
  import opened Lp
  import opened Formulation

  lemma {:induction false} RowTermsAgree(m: Matrix, i: nat, n: nat)
    requires i < m.rows && n <= m.cols
    ensures RowTerms(m, Utility2, i, n) == RowTerms(m, Utility1, i, n) <==>
            forall j :: 0 <= j < n ==> m.cells[i][j] != Flag(false)
  {
    if n > 0 {
      var a, b := RowTerms(m, Utility2, i, n), RowTerms(m, Utility1, i, n);
      assert a[..n - 1] == RowTerms(m, Utility2, i, n - 1);
      assert b[..n - 1] == RowTerms(m, Utility1, i, n - 1);
      RowTermsAgree(m, i, n - 1);
      DecodingsDiffer(m.cells[i][n - 1]);
      if a == b {
        assert a[n - 1] == b[n - 1];
      }
    }
  }

  lemma {:induction false} CapsAgree(m: Matrix, n: nat)
    requires n <= m.rows
    ensures Caps(m, Utility2, n) == Caps(m, Utility1, n) <==>
            forall i, j :: 0 <= i < n && 0 <= j < m.cols ==> m.cells[i][j] != Flag(false)
  {
    if n > 0 {
      var a, b := Caps(m, Utility2, n), Caps(m, Utility1, n);
      assert a[..n - 1] == Caps(m, Utility2, n - 1);
      assert b[..n - 1] == Caps(m, Utility1, n - 1);
      CapsAgree(m, n - 1);
      RowTermsAgree(m, n - 1, m.cols);
      if a == b {
        assert a[n - 1] == b[n - 1];
      }
    }
  }

  /** The LP the code builds for player 2 is the zero-sum one exactly when the
      matrix has no boolean loss entry. */
  lemma AsWrittenIsZeroSumIff(m: Matrix, lower: Bound)
    ensures Player2LP(m, lower) == Player2ZeroSumLP(m, lower) <==>
            forall i, j :: 0 <= i < m.rows && 0 <= j < m.cols ==> m.cells[i][j] != Flag(false)
  {
    var prefix := [Simplex(m.cols)] + NonNegs(m.cols);
    var a, b := Caps(m, Utility2, m.rows), Caps(m, Utility1, m.rows);
    CapsAgree(m, m.rows);
    if Player2LP(m, lower) == Player2ZeroSumLP(m, lower) {
      assert (prefix + a)[|prefix|..] == a;
      assert (prefix + b)[|prefix|..] == b;
    }
  }

  /** Under the zero-sum decoding, both LPs read every entry the same way: the
      coefficient of y_j in player 2's constraint for row i is the coefficient
      of x_i in player 1's constraint for column j. */
  lemma ZeroSumSharesCoefficients(m: Matrix, lower: Bound, i: nat, j: nat)
    requires i < m.rows && j < m.cols
    ensures var p1, p2 := Player1LP(m, lower).constraints, Player2ZeroSumLP(m, lower).constraints;
            && 1 + m.rows + j < |p1| && i < |p1[1 + m.rows + j].lhs.terms|
            && 1 + m.cols + i < |p2| && j < |p2[1 + m.cols + i].lhs.terms|
            && p2[1 + m.cols + i].lhs.terms[j].coeff == p1[1 + m.rows + j].lhs.terms[i].coeff
            && p1[1 + m.rows + j].lhs.terms[i].coeff == Utility1(m.cells[i][j])
  {
    var p1, p2 := Player1LP(m, lower).constraints, Player2ZeroSumLP(m, lower).constraints;
    Player1Layout(m, lower);
    MinimizerLayout(m, lower, Utility1);
    assert p1[1 + m.rows + j].lhs.terms[i] == Term(Utility1(m.cells[i][j]), Prob(i));
    assert p2[1 + m.cols + i].lhs.terms[j] == Term(Utility1(m.cells[i][j]), Prob(j));
  }

  // ---------------------------------------------------------------------------
  // A concrete input: matching pennies stored as booleans.

  /** Player 1 wins when both pick the same side. */
  function FlagPennies(): Matrix
  {
    Grid(2, 2, [[Flag(true), Flag(false)], [Flag(false), Flag(true)]])
  }

  /** As written, every feasible point of player 2's LP for boolean matching
      pennies has game value at least 1, so its optimum is at least 1: every
      row's utility is read as `y_0 + y_1 = 1`. */
  lemma AsWrittenOverstatesFlagPennies(lower: Bound, y: Var -> real)
    requires Feasible(Player2LP(FlagPennies(), lower), y)
    ensures y(Value) >= 1.0
  {
    var m := FlagPennies();
    MinimizerFeasible(m, lower, Utility2, y);
    assert Facing(m, Utility2, y, 0, 2) <= y(Value);
    assert Total(y, 2) == 1.0;
  }

  /** Under the zero-sum decoding, every feasible point has game value at least
      0 (the two row constraints add up to 0 <= 2v) ... */
  lemma ZeroSumBoundsFlagPennies(lower: Bound, y: Var -> real)
    requires Feasible(Player2ZeroSumLP(FlagPennies(), lower), y)
    ensures y(Value) >= 0.0
  {
    var m := FlagPennies();
    MinimizerFeasible(m, lower, Utility1, y);
    assert Facing(m, Utility1, y, 0, 2) <= y(Value);
    assert Facing(m, Utility1, y, 1, 2) <= y(Value);
  }

  /** ... and the uniform mix with value 0 is feasible whenever the default
      bound admits 0, so the zero-sum optimum is the game's value 0. */
  lemma ZeroSumAttainsZeroOnFlagPennies(lower: Bound)
    requires lower.AtLeast? ==> lower.lower <= 0.0
    ensures Feasible(Player2ZeroSumLP(FlagPennies(), lower), (v: Var) => if v.Prob? then 0.5 else 0.0)
  {
    var m := FlagPennies();
    var y := (v: Var) => if v.Prob? then 0.5 else 0.0;
    assert Total(y, 2) == 1.0;
    assert Facing(m, Utility1, y, 0, 2) == 0.0;
    assert Facing(m, Utility1, y, 1, 2) == 0.0;
    MinimizerFeasible(m, lower, Utility1, y);
  }
}

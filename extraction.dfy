/** Turning the optimiser's answer into the solver's result: `None` unless the
    status is OPTIMAL, otherwise the support of the probability variables
    (entries strictly above 0, values unchanged) and the objective value. */
module Extraction {
  import opened Lp
  import opened Payoff
  import opened Formulation

  /** The optimiser's termination status; only OPTIMAL is told apart. */
  datatype Status = Optimal | NotOptimal(code: int)

  /** What the optimiser reports: a status, the value of every variable, and
      the objective value. */
  datatype Outcome = Outcome(status: Status, x: Var -> real, objVal: real)

  /** A player's solved strategy (pure-strategy index to probability) and the game value. */
  datatype Equilibrium = Equilibrium(strategy: map<nat, real>, value: real)

  /** `{k: v for k, v in x.items() if v > 0.}` over the variables `Prob(0) .. Prob(n - 1)`. */
  function Support(x: Var -> real, n: nat): (s: map<nat, real>)
    ensures forall k: nat :: k in s <==> k < n && x(Prob(k)) > 0.0
    ensures forall k :: k in s ==> s[k] == x(Prob(k))
  {
    map k: nat | k < n && x(Prob(k)) > 0.0 :: x(Prob(k))
  }

  /** The status branch: a result only for OPTIMAL, keyed by own pure strategies
      with positive probabilities, carrying the objective value. */
  function Extract(o: Outcome, n: nat): (r: Option<Equilibrium>)
    ensures r.Some? <==> o.status == Optimal
    ensures r.Some? ==> r.value.value == o.objVal && r.value.strategy == Support(o.x, n)
    ensures r.Some? ==> forall k :: k in r.value.strategy ==> k < n && r.value.strategy[k] > 0.0
  {
    if o.status == Optimal then Some(Equilibrium(Support(o.x, n), o.objVal)) else None
  }

  /** `Σ_{k<n, k in s} s[k]`: the probability mass of a sparse strategy. */
  function Mass(s: map<nat, real>, n: nat): real
  {
    if n == 0 then 0.0 else Mass(s, n - 1) + (if n - 1 in s then s[n - 1] else 0.0)
  }

  /** A sparse mixed strategy over `n` pure strategies: keys in range, positive values, total mass 1. */
  predicate IsStrategy(s: map<nat, real>, n: nat)
  {
    (forall k :: k in s ==> k < n && s[k] > 0.0) && Mass(s, n) == 1.0
  }

  /** Dropping the entries that are not strictly positive loses no mass when
      no entry is negative. */
  lemma {:induction false} SupportKeepsMass(x: Var -> real, bound: nat, n: nat)
    requires n <= bound
    requires forall i :: 0 <= i < n ==> x(Prob(i)) >= 0.0
    ensures Mass(Support(x, bound), n) == Total(x, n)
  {
    if n > 0 {
      SupportKeepsMass(x, bound, n - 1);
    }
  }

  /** The support of a mixed strategy is a sparse mixed strategy. */
  lemma SupportOfMixed(x: Var -> real, n: nat)
    requires IsMixed(x, n)
    ensures IsStrategy(Support(x, n), n)
  {
    SupportKeepsMass(x, n, n);
  }

  /** Player 1's expected utility against column `j` when playing the sparse
      strategy `s` over the first `n` rows: `Σ_{i<n, i in s} u(m[i][j]) s[i]`. */
  function StrategyAgainst(m: Matrix, u: Entry -> real, s: map<nat, real>, j: nat, n: nat): real
    requires j < m.cols && n <= m.rows
  {
    if n == 0 then 0.0
    else StrategyAgainst(m, u, s, j, n - 1) + (if n - 1 in s then u(m.cells[n - 1][j]) * s[n - 1] else 0.0)
  }

  /** Player 1's expected utility from row `i` against player 2's sparse
      strategy `s` over the first `n` columns: `Σ_{j<n, j in s} u(m[i][j]) s[j]`. */
  function StrategyFacing(m: Matrix, u: Entry -> real, s: map<nat, real>, i: nat, n: nat): real
    requires i < m.rows && n <= m.cols
  {
    if n == 0 then 0.0
    else StrategyFacing(m, u, s, i, n - 1) + (if n - 1 in s then u(m.cells[i][n - 1]) * s[n - 1] else 0.0)
  }

  /** Playing the support instead of the full assignment changes no expected
      utility against a column, when no probability is negative. */
  lemma {:induction false} SupportAgainst(m: Matrix, u: Entry -> real, x: Var -> real, j: nat, bound: nat, n: nat)
    requires j < m.cols && n <= m.rows && n <= bound
    requires forall i :: 0 <= i < n ==> x(Prob(i)) >= 0.0
    ensures StrategyAgainst(m, u, Support(x, bound), j, n) == Against(m, u, x, j, n)
  {
    if n > 0 {
      SupportAgainst(m, u, x, j, bound, n - 1);
    }
  }

  /** Likewise for the expected utility of a row against player 2's support. */
  lemma {:induction false} SupportFacing(m: Matrix, u: Entry -> real, y: Var -> real, i: nat, bound: nat, n: nat)
    requires i < m.rows && n <= m.cols && n <= bound
    requires forall j :: 0 <= j < n ==> y(Prob(j)) >= 0.0
    ensures StrategyFacing(m, u, Support(y, bound), i, n) == Facing(m, u, y, i, n)
  {
    if n > 0 {
      SupportFacing(m, u, y, i, bound, n - 1);
    }
  }

  /** If the optimiser answers OPTIMAL with a feasible point of player 1's LP,
      the returned strategy is a sparse distribution over rows whose expected
      utility against every column is at least the returned value, given that
      the reported objective is the value of the game-value variable. */
  lemma Player1Result(m: Matrix, lower: Bound, o: Outcome)
    requires o.status == Optimal && Feasible(Player1LP(m, lower), o.x) && o.objVal == o.x(Value)
    ensures Extract(o, m.rows).Some?
    ensures IsStrategy(Extract(o, m.rows).value.strategy, m.rows)
    ensures forall j :: 0 <= j < m.cols ==>
              StrategyAgainst(m, Utility1, Extract(o, m.rows).value.strategy, j, m.rows) >= Extract(o, m.rows).value.value
  {
    Player1Feasible(m, lower, o.x);
    SupportOfMixed(o.x, m.rows);
    var s := Support(o.x, m.rows);
    assert Extract(o, m.rows).value == Equilibrium(s, o.x(Value));
    forall j | 0 <= j < m.cols
      ensures StrategyAgainst(m, Utility1, s, j, m.rows) >= o.x(Value)
    {
      SupportAgainst(m, Utility1, o.x, j, m.rows, m.rows);
    }
  }

  /** Dually for player 2's LP under any decoding: the returned strategy is a
      sparse distribution over columns holding every row's expected utility to
      at most the returned value. */
  lemma MinimizerResult(m: Matrix, lower: Bound, u: Entry -> real, o: Outcome)
    requires o.status == Optimal && Feasible(MinimizerLP(m, lower, u), o.x) && o.objVal == o.x(Value)
    ensures Extract(o, m.cols).Some?
    ensures IsStrategy(Extract(o, m.cols).value.strategy, m.cols)
    ensures forall i :: 0 <= i < m.rows ==>
              StrategyFacing(m, u, Extract(o, m.cols).value.strategy, i, m.cols) <= Extract(o, m.cols).value.value
  {
    MinimizerFeasible(m, lower, u, o.x);
    SupportOfMixed(o.x, m.cols);
    var s := Support(o.x, m.cols);
    assert Extract(o, m.cols).value == Equilibrium(s, o.x(Value));
    forall i | 0 <= i < m.rows
      ensures StrategyFacing(m, u, s, i, m.cols) <= o.x(Value)
    {
      SupportFacing(m, u, o.x, i, m.cols, m.cols);
    }
  }
}

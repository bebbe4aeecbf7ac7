# Nash-equilibrium LP solver: a Dafny model

This project models the core of a solver for two-player zero-sum games. The solver computes each player's equilibrium mixed strategy from a payoff matrix by linear programming. It also models the grid-world example's table, which maps a pure-strategy index back to the sequence of per-step actions it stands for.

What is modelled:

- **`NashEqulibriumSolver.__init__`** becomes the class `Solver.NashSolver`.
  - Its fields are `const`.
  - A static `New` derives `action_choice ** game_step` for each player.
  - `New` fails with `RowMismatch` or `ColumnMismatch`, in the order of the two assertions.
- **`solve_linear_program_player1` / `_player2`** build the constraint system step by step. `Lp.Model` is a mutable model with a constraint sequence:
  - the simplex equality;
  - `n` non-negativity constraints;
  - one accumulated inequality per opposing pure strategy, built by a nested loop.

  Each solve method is proved to build exactly the reference program `Formulation.Player1LP` or `Formulation.MinimizerLP`. The method hands that program to an optimiser, which is a function parameter `optimize: Program -> Outcome`. It then returns `Extraction.Extract` of the optimiser's answer.
- **Meaning of the programs.** `Formulation` proves what the constraints mean. An assignment is feasible for player 1's LP exactly when three things hold:
  - it is a mixed strategy;
  - its expected utility against every pure strategy of player 2 is at least the game value;
  - every variable respects the default bound.

  Player 2's LP is the dual statement. `Formulation` also proves the constraint counts, their order, every coefficient and the objective sense.
- **Result extraction.** The status branch and the support filter (`v > 0`) are modelled. Dropping non-positive entries loses no probability mass. An OPTIMAL answer that is feasible therefore yields a sparse distribution over the player's pure strategies.
- **Action table.** The grid-world table (`meshgrid(..., indexing='ij')`, then a C-order `reshape`) is `ActionTable.Table`. Row `i` is `Unravel(i)`, the base-`a` digits of `i` with the most significant digit first. It is proved to be a bijection with `Encode` onto the digit sequences of length `k`.

The payoff entries are a tagged variant `Num(real) | Flag(bool)`. Player 1's LP decodes a boolean as +1 or -1. Player 2's LP, as written, decodes both booleans as +1: see "## Findings". `SolvePlayer2` keeps the code's decoding. `SolvePlayer2ZeroSum` uses the decoding player 1's LP uses (solver.py:59).

Further facts about the code that the model keeps:
- The support filter keeps entries strictly above 0; there is no epsilon threshold.
- The game-value variable is declared without explicit bounds, so it gets the LP engine's default bound, like the probability variables. That bound is the parameter `lower: Bound`.
- The boolean decoding is decided per entry, by the entry's type.
- The shape check is two assertions, rows first, each with its own message.

## Model

| member | source | states |
|---|---|---|
| `Payoff.DecodingsDiffer` | solver.py:121-125 | Player 2's decoding differs from player 1's (solver.py:58-62) exactly on a boolean loss. There player 1 reads -1 and player 2 reads +1. |
| `Payoff.Utility1` | solver.py:58-62 | Player 1's decoding: a boolean entry reads as +1 or -1, positive exactly when player 1 wins. A numeric entry is used unchanged. |
| `Payoff.Utility2` | solver.py:121-125 | Player 2's decoding as written: every boolean entry reads as 1. It agrees with player 1's decoding on every entry except a boolean loss. |
| `Lp.Model.constructor` | solver.py:40-41 | A fresh model has no variables, no constraints and no objective. Its default variable bound is the given one. |
| `Lp.Model.AddValueVar` | solver.py:44 | Appends the game-value variable and changes nothing else. |
| `Lp.Model.AddVars` | solver.py:45 | Appends the probability variables `Prob(0) .. Prob(n-1)`, returns them, and changes nothing else. |
| `Lp.Model.AddConstr` | solver.py:50-51 | Appends exactly one constraint and changes nothing else. |
| `Lp.Model.SetObjective` | solver.py:68-69 | Sets the objective expression and sense and changes nothing else. |
| `Formulation.Player1LP` | solver.py:43-69 | Player 1's program: the game value followed by `x_0 .. x_{n1-1}`, the engine's default bound, and `1 + n1 + n2` constraints. |
| `Formulation.MinimizerLP` | solver.py:106-132 | Player 2's program under a decoding: the game value followed by `y_0 .. y_{n2-1}`, the engine's default bound, and `1 + n2 + n1` constraints. |
| `Formulation.EvalColumn` | solver.py:55-63 | The terms accumulated in `lhs` for column `j` evaluate to `Σ_i u(m[i][j])·x_i`, player 1's expected utility against `j`. |
| `Formulation.EvalRow` | solver.py:118-126 | The terms accumulated in `lhs` for row `i` evaluate to `Σ_j u(m[i][j])·y_j`. |
| `Formulation.NonNegsHold` | solver.py:51 | The non-negativity constraints hold iff every probability variable is `>= 0`. |
| `Formulation.HoldsSimplex` | solver.py:50 | The simplex constraint holds iff the probabilities sum to 1. |
| `Formulation.Player1Feasible` | solver.py:43-64 | Player 1's LP is feasible at `x` iff `x` is a mixed strategy whose expected utility against every column is `>= v`, and every variable respects the default bound. Both directions are proved. |
| `Formulation.MinimizerFeasible` | solver.py:106-127 | Player 2's LP is feasible at `y` iff `y` is a mixed strategy holding every row's expected utility to `<= v`, within the default bound. Both directions are proved. |
| `Formulation.Player1Counts` | solver.py:43-69 | Exactly 1 equality, `n1 + n2` `>=` constraints and no `<=` constraint. There are `1 + n1` variables, and the objective is MAXIMIZE of the game value. |
| `Formulation.MinimizerCounts` | solver.py:106-132 | Exactly 1 equality, `n2` `>=` constraints and `n1` `<=` constraints. There are `1 + n2` variables, and the objective is MINIMIZE of the game value. |
| `Formulation.Player1Layout` | solver.py:50-64 | The simplex constraint comes first, then `x_i >= 0` for each `i` in order. Then, for each column in index order, there is a `>= v` constraint whose `i`-th term is `u1(m[i][j])·x_i`. |
| `Formulation.MinimizerLayout` | solver.py:113-127 | The simplex constraint comes first, then `y_j >= 0` in order. Then, for each row in index order, there is a `<= v` constraint whose `j`-th term is `u(m[i][j])·y_j`. |
| `Player2Decoding.AsWrittenIsZeroSumIff` | solver.py:117-127 | The LP built for player 2 equals the zero-sum one iff no entry is a boolean loss. |
| `Player2Decoding.ZeroSumSharesCoefficients` | solver.py:117-127 | Under the zero-sum decoding, the coefficient of `y_j` in row `i`'s constraint equals the coefficient of `x_i` in column `j`'s constraint of player 1. That coefficient is `u1(m[i][j])`. |
| `Player2Decoding.AsWrittenOverstatesFlagPennies` | solver.py:121-122 | For boolean matching pennies, every feasible point of the as-written player-2 LP has game value `>= 1`. |
| `Player2Decoding.ZeroSumBoundsFlagPennies` | solver.py:113-132 | For boolean matching pennies, every feasible point of the zero-sum player-2 LP has game value `>= 0`. |
| `Player2Decoding.ZeroSumAttainsZeroOnFlagPennies` | solver.py:113-132 | For boolean matching pennies, the uniform mix with value 0 is feasible for the zero-sum player-2 LP whenever the default bound admits 0. |
| `Extraction.Support` | solver.py:76 | The keys are exactly the indices in `[0, n)` whose solved value is `> 0`. Each key maps to its unchanged value. |
| `Extraction.Extract` | solver.py:74-87 | There is a result iff the status is OPTIMAL. Its value is the objective value, and its strategy is exactly the support: the indices in `[0, n)` with positive solved value, each with its value unchanged. |
| `Extraction.SupportKeepsMass` | solver.py:75-76 | When no solved value is negative, the support carries the same total mass as all the values. |
| `Extraction.SupportOfMixed` | solver.py:75-76 | The support of a mixed strategy is a sparse distribution: keys in range, positive values, mass 1. |
| `Extraction.SupportAgainst` | solver.py:75-76 | With no negative probability, the support's expected utility against any column equals that of the full assignment. |
| `Extraction.SupportFacing` | solver.py:138-139 | With no negative probability, any row's expected utility against the support equals that against the full assignment. |
| `Extraction.Player1Result` | solver.py:74-83 | An OPTIMAL, feasible answer yields player 1's sparse distribution. Playing that returned strategy earns at least the returned value against every column. |
| `Extraction.MinimizerResult` | solver.py:137-146 | An OPTIMAL, feasible answer yields player 2's sparse distribution. Against that returned strategy, every row earns at most the returned value. |
| `Solver.NashSolver.constructor` | solver.py:16-21 | Stores the step count, the action counts and the matrix unchanged, and sets both pure-strategy counts to `count ** game_step`. |
| `Solver.NashSolver.New` | solver.py:16-24 | Succeeds iff the matrix shape is `(a1^k, a2^k)`. On failure the error is `RowMismatch` if the row count is wrong, else `ColumnMismatch`. On success the fields are as derived. |
| `Solver.NashSolver.ColumnSum` | solver.py:55-63 | The inner loop for column `j` builds the sum of `u1(m[i][j])·x_i` over the rows in row order. At every assignment it evaluates to player 1's expected utility against `j`. |
| `Solver.NashSolver.RowSum` | solver.py:118-126 | The inner loop for row `i` builds the sum of `u(m[i][j])·y_j` over the columns in column order. At every assignment it evaluates to row `i`'s expected utility against player 2's mix. |
| `Solver.NashSolver.BuildPlayer1` | solver.py:39-69 | The variable declarations, the simplex and non-negativity constraints, the nested loop over columns and the objective build, in a fresh model, exactly `Player1LP`. |
| `Solver.NashSolver.SolvePlayer1` | solver.py:26-87 | Solves the program `BuildPlayer1` builds. The result is `None` unless the status is OPTIMAL, and otherwise the support and the objective value (`Extract` of the optimiser's answer to `Player1LP`). |
| `Solver.NashSolver.BuildMinimizer` | solver.py:102-132 | The variable declarations, the simplex and non-negativity constraints, the nested loop over rows and the objective build, in a fresh model, exactly `MinimizerLP` under the given decoding. |
| `Solver.NashSolver.SolveAsMinimizer` | solver.py:89-150 | Solves the program `BuildMinimizer` builds. The result is `None` unless the status is OPTIMAL, and otherwise the support and the objective value (`Extract` of the optimiser's answer to `MinimizerLP`). |
| `Solver.NashSolver.SolvePlayer2` | solver.py:89-150 | Player 2's solve as written: builds the LP with the all-ones boolean decoding and extracts the result. |
| `Solver.NashSolver.SolvePlayer2ZeroSum` | solver.py:117-127 | Player 2's solve under the zero-sum decoding of player 1. |
| `ActionTable.Table` | examples/grid_world/solve.py:16-17 | `all_actions` has shape `(a ** k, k)`: one row per pure strategy, one entry per step. |
| `ActionTable.Unravel` | examples/grid_world/solve.py:11-17 | A row has `k` entries, each in `[0, a)`, matching the `linspace(0, a-1, a)` axes. |
| `ActionTable.EncodeUnravel` | examples/grid_world/solve.py:16-17 | Encoding row `i` gives back `i` for every `i < a^k`. |
| `ActionTable.UnravelEncode` | examples/grid_world/solve.py:16-17 | Decoding the encoding of a digit sequence gives the sequence back. |
| `ActionTable.UnravelInjective` | examples/grid_world/solve.py:16-17 | Two indices below `a^k` have equal rows iff they are equal. |
| `ActionTable.TableIsBijection` | examples/grid_world/solve.py:9-17 | The table has `a^k` rows of length `k` with entries in `[0, a)`. Row `i` encodes to `i`, and rows are pairwise distinct. Every length-`k` action sequence is the row its encoding names. |
| `ActionTable.FourStepPositional` | examples/grid_world/solve.py:16-17 | With four steps, row `i = [d0, d1, d2, d3]` satisfies `i = d0·a³ + d1·a² + d2·a + d3`, most significant first. |
| `ActionTable.GridTableRows` | examples/grid_world/solve.py:7-17 | With 4 steps and 8 choices the table has 4096 rows, and row `i` is `[i / 512, i / 64 % 8, i / 8 % 8, i % 8]`: the four `linspace` axes read at the octal digits of `i`, first step first. |
| `ActionTable.StrategyKeysIndexTable` | examples/grid_world/solve.py:26-28 | Every key of a returned strategy over `a^k` pure strategies is a valid row index. The row is a length-`k` action sequence. |

## Left out

- The optimisation itself (`optimize`, the status, the `x` attribute, `ObjVal`, `setParam`). It is the parameter `optimize`, and nothing about optimality is proved. Nor is it proved that the two LPs reach the same optimum, player 1's game value, whose negation the code prints as player 2's utility (solver.py:143); that follows from the minimax theorem and the engine, not from this code.
- Extraction.Player1Result, Extraction.MinimizerResult: these hold only under the assumptions an OPTIMAL answer should meet. The assignment must be feasible and the objective value must be the game-value variable's value. They are requires, because the engine is outside the model.
- The LP engine's default lower bound for variables declared without bounds is not visible in the code. It is the parameter `lower`.
- Variable names and `vtype=CONTINUOUS`: every variable is a real.
- Timing, `verbose` output and the diagnostic prints on a non-optimal status are I/O. This includes player 2's printed negated value.
- IEEE floating point: numeric entries, coefficients and solved values are exact reals.
- A numpy array holds one element type, so a matrix is either all boolean or all numeric. The model allows mixed matrices, which is more general.
- Negative step or action counts: counts are naturals. Python's `**` with a negative exponent gives a float, and that is not modelled.
- ActionTable.Table: the grid example hard-codes 4 steps and 8 choices with four explicit `linspace` axes. The model generalises to `k` steps and `a >= 1` choices. The two constants appear as `GridSteps` and `GridChoices`.
- The matrix file load and the print loops of the grid example are left out. So is its construction call (examples/grid_world/solve.py:2 and 20): the imported name and the keyword arguments do not match the solver class.
- `main.py`, the matching-pennies example script and `setup.py` are left out. They are argument parsing, YAML and file I/O, printing and packaging.

## Findings

| source | as written | input that shows it | evidently intended | confidence | as-written member | corrected member |
|---|---|---|---|---|---|---|
| solver.py:122 | In player 2's LP a boolean entry decodes to 1 whether it is true or false. | Boolean matching pennies `[[true, false], [false, true]]`: every feasible point of player 2's LP has game value `>= 1`, so its optimum is at least 1. | `false` decodes to -1, as in player 1's LP (solver.py:59). Player 2's LP then reads every entry as player 1's does, and its optimum on this input is 0. | high; not executed | `Player2Decoding.AsWrittenOverstatesFlagPennies` | `Player2Decoding.ZeroSumSharesCoefficients` |

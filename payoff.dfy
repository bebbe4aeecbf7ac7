/** Payoff entries, their decoding to player-1 utilities, and the payoff matrix. */
module Payoff {

  /** One payoff entry: a numeric utility for player 1, or a boolean-compressed
      outcome (`true` = player 1 wins) as stored for large extensive games. */
  datatype Entry = Num(v: real) | Flag(won: bool)

  /** The decoding used when building player 1's LP: a win is +1, a loss is -1,
      a numeric entry is used as it is. */
  function Utility1(e: Entry): (r: real)
    ensures e.Flag? ==> r * r == 1.0 && (r > 0.0 <==> e.won)
    ensures e.Num? ==> r == e.v
  {
    match e
    case Flag(won) => if won then 1.0 else -1.0
    case Num(v) => v
  }

  /** The decoding used when building player 2's LP, as the code writes it:
      both branches of the boolean conditional yield 1. */
  function Utility2(e: Entry): (r: real)
    ensures e.Flag? ==> r == 1.0
    ensures e != Flag(false) ==> r == Utility1(e)
  {
    match e
    case Flag(_) => 1.0
    case Num(v) => v
  }

  /** The two decodings disagree exactly on a boolean loss, where player 1's
      LP reads -1 and player 2's reads +1. */
  lemma DecodingsDiffer(e: Entry)
    ensures Utility1(e) != Utility2(e) <==> e == Flag(false)
    ensures e == Flag(false) ==> Utility1(e) == -1.0 && Utility2(e) == 1.0
  {
  }

  /** A two-dimensional array with its shape: `cells` has `rows` rows of `cols` entries. */
  datatype Grid = Grid(rows: nat, cols: nat, cells: seq<seq<Entry>>)

  /** Payoff matrices are rectangular, as every two-dimensional array is. */
  type Matrix = g: Grid | |g.cells| == g.rows && forall i :: 0 <= i < |g.cells| ==> |g.cells[i]| == g.cols
    witness Grid(0, 0, [])

  /** Exponentiation on naturals (`**` on integers). */
  function Pow(a: nat, k: nat): nat
  {
    if k == 0 then 1 else a * Pow(a, k - 1)
  }

  lemma {:induction false} PowPositive(a: nat, k: nat)
    requires a > 0
    ensures Pow(a, k) > 0
  {
    if k > 0 {
      PowPositive(a, k - 1);
    }
  }
}

/** The grid-world action-sequence table: `meshgrid(..., indexing='ij')` over
    `game_step` copies of `[0, action_choice)`, stacked and reshaped in C order
    to `(action_choice ** game_step, game_step)`. Row `i` is the multi-index of
    flat position `i` with the last step varying fastest, i.e. the base-`a`
    digits of `i`, most significant first. */
module ActionTable {
  import opened Payoff
  import opened Extraction

  /** The grid-world example's constants. */
  const GridSteps: nat := 4
  const GridChoices: nat := 8

  /** C-order unravelling of flat index `i` over `k` axes of length `a`. */
  function Unravel(i: nat, a: nat, k: nat): (d: seq<nat>)
    requires a > 0
    ensures |d| == k && forall t :: 0 <= t < k ==> d[t] < a
    decreases k
  {
    if k == 0 then [] else Unravel(i / a, a, k - 1) + [i % a]
  }

  /** The flat index of a multi-index (Horner's rule, most significant first). */
  function Encode(d: seq<nat>, a: nat): nat
  {
    if d == [] then 0 else Encode(d[..|d| - 1], a) * a + d[|d| - 1]
  }

  /** `all_actions`: one row per pure strategy, of shape `(a ** k, k)`. */
  function Table(a: nat, k: nat): (t: seq<seq<nat>>)
    requires a > 0
    ensures |t| == Pow(a, k) && forall i :: 0 <= i < |t| ==> |t[i]| == k
  {
    seq(Pow(a, k), (i: nat) => Unravel(i, a, k))
  }

  predicate Digits(d: seq<nat>, a: nat)
  {
    forall t :: 0 <= t < |d| ==> d[t] < a
  }

  // ---------------------------------------------------------------------------
  // Arithmetic helpers

  lemma MulCancelLt(x: nat, p: nat, a: nat)
    requires a > 0 && x * a < p * a
    ensures x < p
  {
  }

  lemma MulMonotone(x: nat, y: nat, a: nat)
    requires x <= y
    ensures x * a <= y * a
  {
  }

  lemma QuotientBound(i: nat, a: nat, p: nat)
    requires a > 0 && i < a * p
    ensures i / a < p
  {
    assert (i / a) * a <= i;
    MulCancelLt(i / a, p, a);
  }

  lemma HornerStep(i: nat, a: nat)
    requires a > 0
    ensures (i / a) * a + i % a == i
  {
  }

  /** Euclidean division undoes one step of Horner's rule. */
  lemma DivModOf(q: nat, r: nat, a: nat)
    requires r < a
    ensures (q * a + r) / a == q && (q * a + r) % a == r
  {
    var n := q * a + r;
    var q' := n / a;
    assert n == q' * a + n % a;
    assert n < (q + 1) * a;
    MulCancelLt(q', q + 1, a);
    assert n < (q' + 1) * a;
    MulCancelLt(q, q' + 1, a);
  }

  // ---------------------------------------------------------------------------
  // Bijection

  lemma {:induction false} EncodeBound(d: seq<nat>, a: nat)
    requires Digits(d, a)
    ensures Encode(d, a) < Pow(a, |d|)
  {
    if d != [] {
      var init := d[..|d| - 1];
      EncodeBound(init, a);
      var e, p := Encode(init, a), Pow(a, |init|);
      assert Encode(d, a) == e * a + d[|d| - 1];
      assert Encode(d, a) < (e + 1) * a;
      MulMonotone(e + 1, p, a);
      assert Pow(a, |d|) == p * a;
    }
  }

  /** Peeling the last digit off a row. */
  lemma EncodeUnravelStep(i: nat, a: nat, k: nat)
    requires a > 0 && k > 0
    ensures Encode(Unravel(i, a, k), a) == Encode(Unravel(i / a, a, k - 1), a) * a + i % a
  {
    var rest := Unravel(i / a, a, k - 1);
    var d := Unravel(i, a, k);
    assert d[..k - 1] == rest;
  }

  lemma HornerUndo(i: nat, a: nat, k: nat)
    requires a > 0 && k > 0
    requires Encode(Unravel(i / a, a, k - 1), a) == i / a
    ensures Encode(Unravel(i, a, k), a) == i
  {
    EncodeUnravelStep(i, a, k);
    HornerStep(i, a);
  }

  lemma QuotientBoundPow(i: nat, a: nat, k: nat)
    requires a > 0 && k > 0 && i < Pow(a, k)
    ensures i / a < Pow(a, k - 1)
  {
    QuotientBound(i, a, Pow(a, k - 1));
  }

  /** Encoding a row gives back its index. */
  lemma {:induction false} EncodeUnravel(i: nat, a: nat, k: nat)
    requires a > 0 && i < Pow(a, k)
    ensures Encode(Unravel(i, a, k), a) == i
    decreases k
  {
    if k > 0 {
      QuotientBoundPow(i, a, k);
      EncodeUnravel(i / a, a, k - 1);
      HornerUndo(i, a, k);
    }
  }

  /** Decoding an encoded digit sequence gives it back. */
  lemma {:induction false} UnravelEncode(d: seq<nat>, a: nat)
    requires a > 0 && Digits(d, a)
    ensures Unravel(Encode(d, a), a, |d|) == d
  {
    if d != [] {
      var init := d[..|d| - 1];
      UnravelEncode(init, a);
      DivModOf(Encode(init, a), d[|d| - 1], a);
    }
  }

  /** Distinct indices have distinct rows. */
  lemma UnravelInjective(i: nat, j: nat, a: nat, k: nat)
    requires a > 0 && i < Pow(a, k) && j < Pow(a, k)
    ensures Unravel(i, a, k) == Unravel(j, a, k) <==> i == j
  {
    EncodeUnravel(i, a, k);
    EncodeUnravel(j, a, k);
  }

  /** The table has `a^k` rows of length `k` with entries in `[0, a)`; row `i`
      encodes to `i`; rows are pairwise distinct; and every sequence of `k`
      actions appears, at the row its encoding names. */
  lemma TableIsBijection(a: nat, k: nat)
    requires a > 0
    ensures |Table(a, k)| == Pow(a, k)
    ensures forall i :: 0 <= i < |Table(a, k)| ==> |Table(a, k)[i]| == k && Digits(Table(a, k)[i], a)
    ensures forall i :: 0 <= i < |Table(a, k)| ==> Encode(Table(a, k)[i], a) == i
    ensures forall i, j :: 0 <= i < j < |Table(a, k)| ==> Table(a, k)[i] != Table(a, k)[j]
    ensures forall d :: |d| == k && Digits(d, a) ==> Encode(d, a) < |Table(a, k)| && Table(a, k)[Encode(d, a)] == d
  {
    var t := Table(a, k);
    forall i | 0 <= i < |t| ensures Encode(t[i], a) == i {
      EncodeUnravel(i, a, k);
    }
    forall i, j | 0 <= i < j < |t| ensures t[i] != t[j] {
      UnravelInjective(i, j, a, k);
    }
    forall d | |d| == k && Digits(d, a) ensures Encode(d, a) < |t| && t[Encode(d, a)] == d {
      EncodeBound(d, a);
      UnravelEncode(d, a);
    }
  }

  lemma EncodeLast(d: seq<nat>, a: nat)
    requires d != []
    ensures Encode(d, a) == Encode(d[..|d| - 1], a) * a + d[|d| - 1]
  {
  }

  lemma ExpandHorner(x: nat, y: nat, z: nat, w: nat, a: nat)
    ensures ((x * a + y) * a + z) * a + w == x * a * a * a + y * a * a + z * a + w
  {
  }

  /** With four steps, row `i` is `[d0, d1, d2, d3]` with `i = d0·a³ + d1·a² + d2·a + d3`. */
  lemma FourStepPositional(i: nat, a: nat)
    requires a > 0 && i < Pow(a, 4)
    ensures var d := Unravel(i, a, 4);
            i == d[0] * a * a * a + d[1] * a * a + d[2] * a + d[3]
  {
    var d := Unravel(i, a, 4);
    EncodeUnravel(i, a, 4);
    EncodeLast(d, a);
    EncodeLast(d[..3], a);
    EncodeLast(d[..2], a);
    EncodeLast(d[..1], a);
    assert d[..3][..2] == d[..2] && d[..2][..1] == d[..1] && d[..1][..0] == [];
    assert Encode(d[..1], a) == d[0];
    assert Encode(d[..2], a) == d[0] * a + d[1];
    assert Encode(d[..3], a) == (d[0] * a + d[1]) * a + d[2];
    ExpandHorner(d[0], d[1], d[2], d[3], a);
  }

  /** The grid world's table has 8^4 = 4096 rows, and row `i` reads the four
      `linspace` axes at the octal digits of `i`, first step first. */
  lemma GridTableRows()
    ensures |Table(GridChoices, GridSteps)| == 4096
    ensures forall i :: 0 <= i < 4096 ==> Table(GridChoices, GridSteps)[i] == [i / 512, i / 64 % 8, i / 8 % 8, i % 8]
  {
    forall i | 0 <= i < 4096
      ensures Table(GridChoices, GridSteps)[i] == [i / 512, i / 64 % 8, i / 8 % 8, i % 8]
    {
      assert Unravel(i, 8, 4) == Unravel(i / 8, 8, 3) + [i % 8];
      assert Unravel(i / 8, 8, 3) == Unravel(i / 64, 8, 2) + [i / 8 % 8];
      assert Unravel(i / 64, 8, 2) == Unravel(i / 512, 8, 1) + [i / 64 % 8];
      assert Unravel(i / 512, 8, 1) == [i / 512];
    }
  }

  /** `all_actions[k, :]` is in bounds for every key of a result whose
      pure-strategy count is `a^k`, and names a sequence of `k` actions. */
  lemma StrategyKeysIndexTable(o: Outcome, a: nat, k: nat)
    requires a > 0
    ensures var r := Extract(o, Pow(a, k));
            r.Some? ==> forall key :: key in r.value.strategy ==>
                          key < |Table(a, k)| && |Table(a, k)[key]| == k && Digits(Table(a, k)[key], a)
  {
  }
}

/** Linear programs as the solver builds them: variables, linear expressions,
    constraints, an objective, and a mutable model that collects them. */
module Lp {

  /** The variables of one LP: the game value and one probability per own pure strategy. */
  datatype Var = Value | Prob(index: nat)

  /** `coeff * x`, one term of a linear expression. */
  datatype Term = Term(coeff: real, x: Var)

  /** `Σ terms + constant`; terms are kept in the order they were added. */
  datatype Affine = Affine(terms: seq<Term>, constant: real)

  datatype Rel = Eq | Ge | Le

  /** `lhs rel rhs` */
  datatype Constraint = Constraint(lhs: Affine, rel: Rel, rhs: Affine)

  datatype Sense = Maximize | Minimize

  datatype Objective = Objective(expr: Affine, sense: Sense)

  /** The lower bound the LP engine gives a variable declared without one. The
      engine's default is not part of this model, so it is a parameter. */
  datatype Bound = Unbounded | AtLeast(lower: real)

  /** A snapshot of an LP: default bound, declared variables, constraints in the
      order they were added, and the objective once one is set. */
  datatype Program = Program(lower: Bound, vars: seq<Var>, constraints: seq<Constraint>, objective: Option<Objective>)

  datatype Option<T> = None | Some(value: T)

  /** The expression consisting of the variable `v` alone. */
  function VarExpr(v: Var): Affine
  {
    Affine([Term(1.0, v)], 0.0)
  }

  function Const(c: real): Affine
  {
    Affine([], c)
  }

  /** The unit-coefficient sum of the given variables (`tupledict.sum()`). */
  function Units(vs: seq<Var>): (ts: seq<Term>)
    ensures |ts| == |vs|
  {
    if vs == [] then [] else Units(vs[..|vs| - 1]) + [Term(1.0, vs[|vs| - 1])]
  }

  /** The probability variables `Prob(0) .. Prob(n - 1)` declared by one `addVars(n)`. */
  function ProbVars(n: nat): (vs: seq<Var>)
    ensures |vs| == n && forall i :: 0 <= i < n ==> vs[i] == Prob(i)
  {
    seq(n, (i: nat) => Prob(i))
  }

  // ---------------------------------------------------------------------------
  // Semantics: the value of an expression under an assignment, and feasibility.

  function Eval(ts: seq<Term>, x: Var -> real): real
  {
    if ts == [] then 0.0 else Eval(ts[..|ts| - 1], x) + ts[|ts| - 1].coeff * x(ts[|ts| - 1].x)
  }

  function EvalAffine(e: Affine, x: Var -> real): real
  {
    Eval(e.terms, x) + e.constant
  }

  predicate Holds(c: Constraint, x: Var -> real)
  {
    var l, r := EvalAffine(c.lhs, x), EvalAffine(c.rhs, x);
    match c.rel
    case Eq => l == r
    case Ge => l >= r
    case Le => l <= r
  }

  predicate AllHold(cs: seq<Constraint>, x: Var -> real)
  {
    forall k :: 0 <= k < |cs| ==> Holds(cs[k], x)
  }

  predicate InBound(b: Bound, v: real)
  {
    b.AtLeast? ==> b.lower <= v
  }

  predicate AllInBound(b: Bound, vs: seq<Var>, x: Var -> real)
  {
    forall k :: 0 <= k < |vs| ==> InBound(b, x(vs[k]))
  }

  /** `x` satisfies every constraint and every variable bound of `p`. */
  predicate Feasible(p: Program, x: Var -> real)
  {
    AllHold(p.constraints, x) && AllInBound(p.lower, p.vars, x)
  }

  /** Number of constraints with relation `r`. */
  function CountRel(cs: seq<Constraint>, r: Rel): nat
  {
    if cs == [] then 0 else CountRel(cs[..|cs| - 1], r) + (if cs[|cs| - 1].rel == r then 1 else 0)
  }

  lemma {:induction false} CountRelConcat(a: seq<Constraint>, b: seq<Constraint>, r: Rel)
    ensures CountRel(a + b, r) == CountRel(a, r) + CountRel(b, r)
  {
    if b != [] {
      assert (a + b)[..|a + b| - 1] == a + b[..|b| - 1];
      CountRelConcat(a, b[..|b| - 1], r);
    } else {
      assert a + b == a;
    }
  }

  lemma CountRelSingle(c: Constraint, r: Rel)
    ensures CountRel([c], r) == if c.rel == r then 1 else 0
  {
    assert [c][..0] == [];
  }

  lemma AllHoldConcat(a: seq<Constraint>, b: seq<Constraint>, x: Var -> real)
    ensures AllHold(a + b, x) <==> AllHold(a, x) && AllHold(b, x)
  {
    if AllHold(a, x) && AllHold(b, x) {
      forall k | 0 <= k < |a + b| ensures Holds((a + b)[k], x) {
        if k >= |a| {
          assert (a + b)[k] == b[k - |a|];
        }
      }
    }
    if AllHold(a + b, x) {
      forall k | 0 <= k < |a| ensures Holds(a[k], x) {
        assert (a + b)[k] == a[k];
      }
      forall k | 0 <= k < |b| ensures Holds(b[k], x) {
        assert (a + b)[|a| + k] == b[k];
      }
    }
  }

  lemma AllHoldSingle(c: Constraint, x: Var -> real)
    ensures AllHold([c], x) <==> Holds(c, x)
  {
    assert [c][0] == c;
  }

  lemma {:induction false} EvalUnits(n: nat, x: Var -> real)
    ensures Eval(Units(ProbVars(n)), x) == Total(x, n)
  {
    if n > 0 {
      assert ProbVars(n)[..n - 1] == ProbVars(n - 1);
      EvalUnits(n - 1, x);
    }
  }

  /** `Σ_{i<n} x(Prob(i))`: the probability mass the assignment puts on the first n strategies. */
  function Total(x: Var -> real, n: nat): real
  {
    if n == 0 then 0.0 else Total(x, n - 1) + x(Prob(n - 1))
  }

  // ---------------------------------------------------------------------------
  // The mutable LP model the solver fills in.

  class Model {
    var lower: Bound
    var vars: seq<Var>
    var constraints: seq<Constraint>
    var objective: Option<Objective>

    /** The model as it stands. */
    function Snapshot(): Program
      reads this
    {
      Program(lower, vars, constraints, objective)
    }

    /** `Model()`: an empty model whose variables get the default bound `lower`. */
    constructor (lower: Bound)
      ensures Snapshot() == Program(lower, [], [], None)
    {
      this.lower := lower;
      vars := [];
      constraints := [];
      objective := None;
    }

    /** `addVar(name='game_value')`: declares the game-value variable. */
    method AddValueVar() returns (v: Var)
      modifies this
      ensures v == Value
      ensures Snapshot() == old(Snapshot()).(vars := old(vars) + [Value])
    {
      vars := vars + [Value];
      v := Value;
    }

    /** `addVars(n)`: declares `n` probability variables, indexed from 0. */
    method AddVars(n: nat) returns (vs: seq<Var>)
      modifies this
      ensures vs == ProbVars(n)
      ensures Snapshot() == old(Snapshot()).(vars := old(vars) + ProbVars(n))
    {
      vs := ProbVars(n);
      vars := vars + vs;
    }

    /** `addConstr(c)`: appends one constraint. */
    method AddConstr(c: Constraint)
      modifies this
      ensures Snapshot() == old(Snapshot()).(constraints := old(constraints) + [c])
    {
      constraints := constraints + [c];
    }

    /** `setObjective(e, sense)`. */
    method SetObjective(e: Affine, s: Sense)
      modifies this
      ensures Snapshot() == old(Snapshot()).(objective := Some(Objective(e, s)))
    {
      objective := Some(Objective(e, s));
    }
  }
}

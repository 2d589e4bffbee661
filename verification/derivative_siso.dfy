/**
 * The derivative estimator of kltisystems/kNOrderDerivativeSiso.py and the
 * identical construction in kltisystems/kanyderivativesiso.py: a continuous
 * linear system whose characteristic polynomial is (s - pole)^order, in
 * companion form, so that state i is the i-th derivative of state 0.
 *
 * The dimension is the one the construction actually uses: `order` factors
 * and an order x order matrix. The configuration object stores M = order + 1
 * (kNOrderDerivativeSiso.py:38), and its docstring makes `order` the highest
 * derivative estimated (:28), which takes order + 1 outputs; the script
 * builds only `order` states, derivatives 0 to order - 1 (:64, :71).
 * `RealizationOneShortOfM` states the mismatch.
 */
module DerivativeSiso {
  import opened Wrappers
  import opened Poly

  // ---------------------------------------------------------------------
  // Configuration object

  /** The failed `assert` in the constructor. */
  datatype ConfigError = AssertionError

  class NOrderDerivativeSiso {
    var M: int
    var pole: real
    var Ts: real

    /** The field assignments, once the three checks have passed. */
    constructor (order: int, pole: real, ts: real)
      requires order > 0 && pole < 0.0 && ts > 0.0
      ensures M == order + 1 && this.pole == pole && Ts == ts
    {
      M := order + 1;
      this.pole := pole;
      Ts := ts;
    }

    /** The constructor as called: checks order, pole and Ts, then stores them. */
    static method New(order: int, pole: real, ts: real) returns (r: Result<NOrderDerivativeSiso, ConfigError>)
      ensures r.Ok? <==> order > 0 && pole < 0.0 && ts > 0.0
      ensures r.Ok? ==> fresh(r.value) && r.value.M == order + 1 && r.value.pole == pole && r.value.Ts == ts
    {
      if !(order > 0) || !(pole < 0.0) || !(ts > 0.0) {
        return Err(AssertionError);
      }
      var siso := new NOrderDerivativeSiso(order, pole, ts);
      r := Ok(siso);
    }
  }

  // ---------------------------------------------------------------------
  // Characteristic polynomial

  /** (s - pole)^n, highest degree first: n factors [1, -pole] multiplied together. */
  function CharPoly(n: nat, pole: real): (den: seq<real>)
    ensures |den| == n + 1 && den[0] == 1.0
  {
    LinearPower(n, -pole)
  }

  /** The loop that builds `den`: start from [1, -pole], multiply by [1, -pole] order - 1 more times. */
  method BuildDen(order: nat, pole: real) returns (den: seq<real>)
    requires order > 0
    ensures den == CharPoly(order, pole)
  {
    var a := -pole;
    den := [1.0, a];
    assert LinearPower(1, a) == TimesLinear([1.0], a);
    var i := 0;
    while i < order - 1
      invariant 0 <= i <= order - 1
      invariant den == LinearPower(i + 1, a)
    {
      den := TimesLinear(den, a);
      i := i + 1;
    }
  }

  /** Coefficient k (highest degree first) of (s - pole)^n is C(n, k) * (-pole)^k. */
  lemma {:induction false} CharPolyBinomial(n: nat, pole: real)
    ensures forall k :: 0 <= k <= n ==> CharPoly(n, pole)[k] == Binom(n, k) * Pow(-pole, k)
  {
    LinearPowerBinomial(n, -pole);
  }

  /** With a stable pole every coefficient of (s - pole)^n is strictly positive. */
  lemma {:induction false} CharPolyPositive(n: nat, pole: real)
    requires pole < 0.0
    ensures forall k :: 0 <= k <= n ==> CharPoly(n, pole)[k] > 0.0
  {
    CharPolyBinomial(n, pole);
    forall k | 0 <= k <= n
      ensures CharPoly(n, pole)[k] > 0.0
    {
      BinomPositive(n, k);
      PowPositive(-pole, k);
      assert Binom(n, k) * Pow(-pole, k) > 0.0;
    }
  }

  /** The polynomial built is (s - pole)^n: its value at every s. */
  lemma {:induction false} CharPolyEval(n: nat, pole: real, s: real)
    ensures Eval(CharPoly(n, pole), s) == Pow(s - pole, n)
  {
    LinearPowerEval(n, -pole, s, s - pole);
  }

  /** The constant term of (s - pole)^n is (-pole)^n. */
  lemma {:induction false} ConstantTerm(n: nat, pole: real)
    ensures CharPoly(n, pole)[n] == Pow(-pole, n)
  {
    CharPolyBinomial(n, pole);
    assert Binom(n, n) == 1.0 by {
      BinomOne(n);
    }
  }

  lemma {:induction false} BinomOne(n: nat)
    ensures Binom(n, n) == 1.0
  {
    if n > 0 {
      BinomOne(n - 1);
      BinomAbove(n - 1, n);
    }
  }

  // ---------------------------------------------------------------------
  // State-space realisation

  /**
   * The system matrix: an (n-1) x n block [0 | I] stacked on the row
   * -rden[:n], where rden is den reversed and n = |den| - 1.
   */
  function CompanionA(den: seq<real>): (a: seq<seq<real>>)
    requires |den| >= 2
    ensures |a| == |den| - 1 && forall i :: 0 <= i < |a| ==> |a[i]| == |a|
  {
    var n := |den| - 1;
    seq(n - 1, i requires 0 <= i < n - 1 => [0.0] + UnitVector(i, n - 1)) + [Negated(Reversed(den)[..n])]
  }

  /** The input vector: zeros with the last entry set to the constant term den[-1]. */
  function InputB(den: seq<real>): (b: seq<real>)
    requires |den| >= 2
    ensures |b| == |den| - 1
  {
    var n := |den| - 1;
    Zeros(n)[n - 1 := den[n]]
  }

  /** `B = zeros(order); B[-1] = den[-1]`, written into a fresh array. */
  method MakeInputB(den: seq<real>) returns (b: array<real>)
    requires |den| >= 2
    ensures fresh(b) && b[..] == InputB(den)
  {
    var n := |den| - 1;
    b := new real[n](_ => 0.0);
    b[n - 1] := den[n];
  }

  /** `C = zeros(order); C[i] = 1.0`, written into a fresh array. */
  method MakeSelector(i: nat, n: nat) returns (c: array<real>)
    requires i < n
    ensures fresh(c) && c[..] == UnitVector(i, n)
  {
    c := new real[n](_ => 0.0);
    c[i] := 1.0;
  }

  /** The quadruple (A, B, C, D) handed to the simulator for output i. */
  datatype StateSpace = StateSpace(a: seq<seq<real>>, b: seq<real>, c: seq<real>, d: real)

  /** All of a system's vectors and matrix rows have length n, and the matrix is n x n. */
  predicate WellShaped(sys: StateSpace, n: nat)
  {
    |sys.a| == n && (forall i :: 0 <= i < n ==> |sys.a[i]| == n) && |sys.b| == n && |sys.c| == n
  }

  /** Output i: shared A and B, the selector C = zeros(n) with C[i] = 1, and D = 0. */
  function Realize(den: seq<real>, i: nat): (sys: StateSpace)
    requires |den| >= 2 && i < |den| - 1
    ensures WellShaped(sys, |den| - 1)
  {
    StateSpace(CompanionA(den), InputB(den), UnitVector(i, |den| - 1), 0.0)
  }

  /**
   * The configuration object and the realisation disagree by one: M = order + 1
   * outputs are implied by the docstring, but the realisation built from
   * (s - pole)^order has M - 1 = order states, so the selectable outputs are
   * derivatives 0 to order - 1 and derivative `order` has none.
   */
  lemma {:induction false} RealizationOneShortOfM(c: NOrderDerivativeSiso, order: nat)
    requires 0 < order && c.M == order + 1
    ensures |CompanionA(CharPoly(order, c.pole))| == order == c.M - 1
    ensures forall i :: 0 <= i < order ==> WellShaped(Realize(CharPoly(order, c.pole), i), c.M - 1)
  {
  }

  /** dx/dt = A x + B u. */
  function StateDerivative(sys: StateSpace, x: seq<real>, u: real): (dx: seq<real>)
    requires WellShaped(sys, |x|)
    ensures |dx| == |x|
  {
    var ax := MatVec(sys.a, x);
    seq(|x|, k requires 0 <= k < |x| => ax[k] + sys.b[k] * u)
  }

  /** y = C x + D u. */
  function Output(sys: StateSpace, x: seq<real>, u: real): real
    requires WellShaped(sys, |x|)
  {
    Dot(sys.c, x) + sys.d * u
  }

  /** Each shift row makes the derivative of state i equal to state i + 1. */
  lemma {:induction false} ShiftRowsDifferentiate(den: seq<real>, x: seq<real>, i: nat)
    requires |den| >= 2 && |x| == |den| - 1 && i + 1 < |x|
    ensures MatVec(CompanionA(den), x)[i] == x[i + 1]
  {
    var n := |x|;
    var row := CompanionA(den)[i];
    assert row == [0.0] + UnitVector(i, n - 1);
    assert row[1..] == UnitVector(i, n - 1);
    DotUnit(i, x[1..]);
  }

  /** Entry j of the last row is minus the coefficient of s^j. */
  lemma {:induction false} LastRowIsNegatedCoefficients(den: seq<real>, j: nat)
    requires |den| >= 2 && j < |den| - 1
    ensures CompanionA(den)[|den| - 2][j] == -den[|den| - 1 - j]
  {
  }

  /** B is zero except its last entry, which is (-pole)^order, the constant term. */
  lemma {:induction false} InputBIsConstantTerm(order: nat, pole: real)
    requires order > 0
    ensures InputB(CharPoly(order, pole))[order - 1] == Pow(-pole, order)
    ensures forall k :: 0 <= k < order - 1 ==> InputB(CharPoly(order, pole))[k] == 0.0
  {
    ConstantTerm(order, pole);
  }

  /** With C = e_i and D = 0, output i is exactly state i, whatever the input. */
  lemma {:induction false} OutputIsState(den: seq<real>, i: nat, x: seq<real>, u: real)
    requires |den| >= 2 && i < |den| - 1 && |x| == |den| - 1
    ensures Output(Realize(den, i), x, u) == x[i]
  {
    DotUnit(i, x);
  }

  /** The state (u, 0, ..., 0). */
  function Rest(n: nat, u: real): (x: seq<real>)
    requires n > 0
    ensures |x| == n
  {
    Zeros(n)[0 := u]
  }

  /** Value of the last row of A x + B u on the state (x0, 0, ..., 0). */
  lemma {:induction false} LastRowAtRest(den: seq<real>, x0: real, u: real)
    requires |den| >= 2
    ensures var n := |den| - 1;
      StateDerivative(Realize(den, 0), Rest(n, x0), u)[n - 1] == den[n] * (u - x0)
  {
    var n := |den| - 1;
    var last := Negated(Reversed(den)[..n]);
    assert CompanionA(den)[n - 1] == last;
    DotPointRight(last, 0, x0);
  }

  /**
   * For a constant input u (and a non-zero constant term), A x + B u = 0
   * exactly when x is (u, 0, ..., 0).
   */
  lemma {:induction false} EquilibriumIff(den: seq<real>, u: real, x: seq<real>)
    requires |den| >= 2 && |x| == |den| - 1 && den[|den| - 1] != 0.0
    ensures StateDerivative(Realize(den, 0), x, u) == Zeros(|x|) <==> x == Rest(|x|, u)
  {
    if StateDerivative(Realize(den, 0), x, u) == Zeros(|x|) {
      EquilibriumIsRest(den, u, x);
    }
    if x == Rest(|x|, u) {
      RestIsEquilibrium(den, u);
    }
  }

  /** The first n - 1 entries of A x + B u are x[1], ..., x[n-1]. */
  lemma {:induction false} StateDerivativeShifts(den: seq<real>, u: real, x: seq<real>)
    requires |den| >= 2 && |x| == |den| - 1
    ensures forall i :: 0 <= i < |x| - 1 ==> StateDerivative(Realize(den, 0), x, u)[i] == x[i + 1]
  {
    forall i | 0 <= i < |x| - 1
      ensures StateDerivative(Realize(den, 0), x, u)[i] == x[i + 1]
    {
      ShiftRowsDifferentiate(den, x, i);
    }
  }

  /**
   * A product is zero only if a factor is. On two plain reals the solver
   * takes this step at once; asserted inside EquilibriumIsRest, beside the
   * unfolded StateDerivative, it does not, so it is a lemma of its own.
   */
  lemma {:induction false} NonZeroFactor(a: real, b: real)
    requires a * b == 0.0 && a != 0.0
    ensures b == 0.0
  {
  }

  lemma {:induction false} EquilibriumIsRest(den: seq<real>, u: real, x: seq<real>)
    requires |den| >= 2 && |x| == |den| - 1 && den[|den| - 1] != 0.0
    requires StateDerivative(Realize(den, 0), x, u) == Zeros(|x|)
    ensures x == Rest(|x|, u)
  {
    var n := |x|;
    StateDerivativeShifts(den, u, x);
    assert forall k :: 1 <= k < n ==> x[k] == StateDerivative(Realize(den, 0), x, u)[k - 1];
    assert x == Rest(n, x[0]);
    LastRowAtRest(den, x[0], u);
    assert den[n] * (u - x[0]) == 0.0;
    NonZeroFactor(den[n], u - x[0]);
  }

  lemma {:induction false} RestIsEquilibrium(den: seq<real>, u: real)
    requires |den| >= 2
    ensures var n := |den| - 1;
      StateDerivative(Realize(den, 0), Rest(n, u), u) == Zeros(n)
  {
    var n := |den| - 1;
    var x := Rest(n, u);
    var dx := StateDerivative(Realize(den, 0), x, u);
    StateDerivativeShifts(den, u, x);
    LastRowAtRest(den, u, u);
    assert dx[n - 1] == 0.0 by {
      assert den[n] * (u - u) == 0.0;
    }
    assert forall k :: 0 <= k < n ==> dx[k] == Zeros(n)[k];
  }

  /**
   * Unity DC gain: for (s - pole)^order with a stable pole, a constant input u
   * has the single equilibrium (u, 0, ..., 0), where output 0 reads u and
   * every derivative output reads 0.
   */
  lemma {:induction false} UnityDcGain(order: nat, pole: real, u: real, x: seq<real>)
    requires order > 0 && pole < 0.0 && |x| == order
    ensures var den := CharPoly(order, pole);
      StateDerivative(Realize(den, 0), x, u) == Zeros(order) <==> x == Rest(order, u)
    ensures var den := CharPoly(order, pole);
      x == Rest(order, u) ==>
        Output(Realize(den, 0), x, u) == u &&
        forall i :: 1 <= i < order ==> Output(Realize(den, i), x, u) == 0.0
  {
    var den := CharPoly(order, pole);
    CharPolyPositive(order, pole);
    EquilibriumIff(den, u, x);
    forall i | 0 <= i < order
      ensures Output(Realize(den, i), x, u) == x[i]
    {
      OutputIsState(den, i, x, u);
    }
  }

  /** A applied to (1, l, ..., l^(n-1)) is l times it, up to -den(l) in the last entry. */
  lemma {:induction false} CompanionTimesPowers(den: seq<real>, l: real)
    requires |den| >= 2 && den[0] == 1.0
    ensures var n := |den| - 1;
      var v := Powers(l, n);
      var av := MatVec(CompanionA(den), v);
      (forall i :: 0 <= i < n - 1 ==> av[i] == l * v[i]) &&
      av[n - 1] == l * v[n - 1] - Eval(den, l)
  {
    var n := |den| - 1;
    var v := Powers(l, n);
    forall i | 0 <= i < n - 1
      ensures MatVec(CompanionA(den), v)[i] == l * v[i]
    {
      ShiftRowsDifferentiate(den, v, i);
    }
    CompanionLastRowPowers(den, l);
  }

  /** The last row of A applied to (1, l, ..., l^(n-1)): l^n - den(l), since den is monic. */
  lemma {:induction false} CompanionLastRowPowers(den: seq<real>, l: real)
    requires |den| >= 2 && den[0] == 1.0
    ensures var n := |den| - 1;
      MatVec(CompanionA(den), Powers(l, n))[n - 1] == l * Powers(l, n)[n - 1] - Eval(den, l)
  {
    var n := |den| - 1;
    var v := Powers(l, n);
    var rden := Reversed(den);
    var w := Powers(l, n + 1);
    EvalAsDot(den, l);
    DotSplitLast(rden, w);
    assert rden[..n] == rden[..|rden| - 1];
    assert w[..n] == v;
    DotNegated(rden[..n], v);
    assert MatVec(CompanionA(den), v)[n - 1] == -Dot(rden[..n], v);
  }

  /**
   * l is an eigenvalue of A with eigenvector (1, l, ..., l^(n-1)) exactly when
   * l is a root of den: the companion matrix realises den's poles.
   */
  lemma {:induction false} CompanionEigenvector(den: seq<real>, l: real)
    requires |den| >= 2 && den[0] == 1.0
    ensures var v := Powers(l, |den| - 1);
      MatVec(CompanionA(den), v) == Scaled(l, v) <==> Eval(den, l) == 0.0
  {
    var v := Powers(l, |den| - 1);
    if Eval(den, l) == 0.0 {
      RootGivesEigenvector(den, l);
    }
    if MatVec(CompanionA(den), v) == Scaled(l, v) {
      EigenvectorGivesRoot(den, l);
    }
  }

  lemma {:induction false} RootGivesEigenvector(den: seq<real>, l: real)
    requires |den| >= 2 && den[0] == 1.0 && Eval(den, l) == 0.0
    ensures var v := Powers(l, |den| - 1);
      MatVec(CompanionA(den), v) == Scaled(l, v)
  {
    var n := |den| - 1;
    var v := Powers(l, n);
    CompanionTimesPowers(den, l);
    assert forall i :: 0 <= i < n ==> MatVec(CompanionA(den), v)[i] == Scaled(l, v)[i];
  }

  lemma {:induction false} EigenvectorGivesRoot(den: seq<real>, l: real)
    requires |den| >= 2 && den[0] == 1.0
    requires var v := Powers(l, |den| - 1);
      MatVec(CompanionA(den), v) == Scaled(l, v)
    ensures Eval(den, l) == 0.0
  {
    var n := |den| - 1;
    var v := Powers(l, n);
    CompanionLastRowPowers(den, l);
    assert MatVec(CompanionA(den), v)[n - 1] == Scaled(l, v)[n - 1];
  }

  lemma {:induction false} PowNonZero(x: real, k: nat)
    requires x != 0.0
    ensures Pow(x, k) != 0.0
  {
    if k > 0 {
      PowNonZero(x, k - 1);
    }
  }

  /**
   * The only eigenvalue of A with a Vandermonde eigenvector is the repeated
   * pole itself: the realised system has the intended pole, with the signs the
   * reversed-coefficient row gives it.
   */
  lemma {:induction false} RepeatedPoleIsEigenvalue(order: nat, pole: real, l: real)
    requires order > 0
    ensures var v := Powers(l, order);
      MatVec(CompanionA(CharPoly(order, pole)), v) == Scaled(l, v) <==> l == pole
  {
    CompanionEigenvector(CharPoly(order, pole), l);
    CharPolyEval(order, pole, l);
    if l != pole {
      PowNonZero(l - pole, order);
    }
  }
}

/**
 * Exact real vectors and polynomials, as numpy holds them in the derivative
 * estimator: a polynomial is its coefficient list, highest degree first
 * (numpy.poly1d), a vector is a list of reals, a matrix a list of rows.
 */
module Poly {

  /** x raised to the k-th power. */
  function Pow(x: real, k: nat): real
  {
    if k == 0 then 1.0 else x * Pow(x, k - 1)
  }

  /** The binomial coefficient C(n, k) as a real, zero when k > n (Pascal's rule). */
  function Binom(n: nat, k: nat): real
  {
    if k == 0 then 1.0 else if n == 0 then 0.0 else Binom(n - 1, k - 1) + Binom(n - 1, k)
  }

  /** The term C(n, k) * a^k of the binomial expansion of (s + a)^n: the coefficient of s^(n-k). */
  function BinomialTerm(n: nat, k: nat, a: real): real
  {
    Binom(n, k) * Pow(a, k)
  }

  /** numpy.zeros(n). */
  function Zeros(n: nat): (z: seq<real>)
    ensures |z| == n && forall i :: 0 <= i < n ==> z[i] == 0.0
  {
    seq(n, _ => 0.0)
  }

  /** A zero vector with a one written at index i, as in `C = zeros(n); C[i] = 1.0`. */
  function UnitVector(i: nat, n: nat): (e: seq<real>)
    requires i < n
    ensures |e| == n && e[i] == 1.0
    ensures forall j :: 0 <= j < n && j != i ==> e[j] == 0.0
  {
    Zeros(n)[i := 1.0]
  }

  /** Element-wise negation, as in `[-v for v in s]`. */
  function Negated(s: seq<real>): (r: seq<real>)
    ensures |r| == |s|
  {
    seq(|s|, j requires 0 <= j < |s| => -s[j])
  }

  /** Element-wise scaling by c. */
  function Scaled(c: real, s: seq<real>): (r: seq<real>)
    ensures |r| == |s|
  {
    seq(|s|, j requires 0 <= j < |s| => c * s[j])
  }

  /** The slice `s[::-1]`. */
  function Reversed(s: seq<real>): (r: seq<real>)
    ensures |r| == |s|
  {
    seq(|s|, j requires 0 <= j < |s| => s[|s| - 1 - j])
  }

  /** The vector (1, x, x^2, ..., x^(n-1)). */
  function Powers(x: real, n: nat): (r: seq<real>)
    ensures |r| == n
  {
    seq(n, j requires 0 <= j => Pow(x, j))
  }

  /** Inner product of two vectors of the same length. */
  function Dot(u: seq<real>, v: seq<real>): real
    requires |u| == |v|
    decreases |u|
  {
    if |u| == 0 then 0.0 else u[0] * v[0] + Dot(u[1..], v[1..])
  }

  /** Every row of m has the length of x. */
  predicate Conforms(m: seq<seq<real>>, x: seq<real>)
  {
    forall i :: 0 <= i < |m| ==> |m[i]| == |x|
  }

  /** Matrix-vector product m . x. */
  function MatVec(m: seq<seq<real>>, x: seq<real>): (y: seq<real>)
    requires Conforms(m, x)
    ensures |y| == |m|
  {
    seq(|m|, i requires 0 <= i < |m| => Dot(m[i], x))
  }

  /** Value at s of the polynomial p (highest degree first), by Horner's rule. */
  function Eval(p: seq<real>, s: real): real
    decreases |p|
  {
    if |p| == 0 then 0.0 else Eval(p[..|p| - 1], s) * s + p[|p| - 1]
  }

  /**
   * The product q * (s + a), which numpy.poly1d computes as the convolution
   * of q with the coefficient list [1, a].
   */
  function TimesLinear(q: seq<real>, a: real): (r: seq<real>)
    ensures |r| == |q| + 1
  {
    seq(|q| + 1, k requires 0 <= k < |q| + 1 =>
      (if k < |q| then q[k] else 0.0) + (if 0 < k then a * q[k - 1] else 0.0))
  }

  /** (s + a)^n, highest degree first: n factors [1, a] multiplied together, starting from [1]. */
  function LinearPower(n: nat, a: real): (p: seq<real>)
    ensures |p| == n + 1 && p[0] == 1.0
  {
    if n == 0 then [1.0] else TimesLinear(LinearPower(n - 1, a), a)
  }

  // ---------------------------------------------------------------------
  // Lemmas about binomial coefficients and powers

  lemma {:induction false} BinomAbove(n: nat, k: nat)
    requires k > n
    ensures Binom(n, k) == 0.0
  {
    if n > 0 {
      BinomAbove(n - 1, k - 1);
      BinomAbove(n - 1, k);
    }
  }

  /** Multiplying the n-th power of (s + a) by (s + a) once more gives the next row of Pascal's triangle. */
  lemma {:induction false} TimesLinearPascal(q: seq<real>, n: nat, a: real)
    requires |q| == n + 1 && forall k :: 0 <= k <= n ==> q[k] == BinomialTerm(n, k, a)
    ensures forall k :: 0 <= k <= n + 1 ==> TimesLinear(q, a)[k] == BinomialTerm(n + 1, k, a)
  {
    forall k | 0 <= k <= n + 1
      ensures TimesLinear(q, a)[k] == BinomialTerm(n + 1, k, a)
    {
      if k == n + 1 {
        BinomAbove(n, k);
        assert Binom(n, k) * Pow(a, k) == 0.0;
      }
      if k > 0 {
        BinomialTermPascal(n + 1, k, a);
      }
    }
  }

  /** Pascal's rule on the terms: the term of (s + a)^n is a times one term of (s + a)^(n-1) plus the next. */
  lemma {:induction false} BinomialTermPascal(n: nat, k: nat, a: real)
    requires n > 0 && k > 0
    ensures BinomialTerm(n, k, a) == a * BinomialTerm(n - 1, k - 1, a) + BinomialTerm(n - 1, k, a)
  {
    PascalStep(BinomialTerm(n - 1, k, a), BinomialTerm(n - 1, k - 1, a),
      Binom(n - 1, k), Binom(n - 1, k - 1), Binom(n, k), a, Pow(a, k - 1), Pow(a, k));
  }

  /**
   * One step of Pascal's rule on abstract values: with lower = b2 * a^(k-1),
   * upper = b1 * a^k and b = b2 + b1, b * a^k is a * lower + upper. It is a
   * lemma of its own because the solver distributes these products cheaply
   * over plain reals but not through the recursive Binom and Pow of the caller.
   */
  lemma {:induction false} PascalStep(upper: real, lower: real, b1: real, b2: real, b: real, a: real, p: real, pk: real)
    requires pk == a * p && upper == b1 * pk && lower == b2 * p && b == b2 + b1
    ensures b * pk == a * lower + upper
  {
  }

  lemma {:induction false} BinomNonNegative(n: nat, k: nat)
    ensures Binom(n, k) >= 0.0
  {
    if n > 0 && k > 0 {
      BinomNonNegative(n - 1, k - 1);
      BinomNonNegative(n - 1, k);
    }
  }

  lemma {:induction false} BinomPositive(n: nat, k: nat)
    requires k <= n
    ensures Binom(n, k) >= 1.0
  {
    if k > 0 {
      BinomPositive(n - 1, k - 1);
      BinomNonNegative(n - 1, k);
    }
  }

  lemma {:induction false} PowPositive(x: real, k: nat)
    requires x > 0.0
    ensures Pow(x, k) > 0.0
  {
    if k > 0 {
      PowPositive(x, k - 1);
    }
  }

  // ---------------------------------------------------------------------
  // Lemmas about inner products

  lemma {:induction false} DotZerosRight(u: seq<real>)
    ensures Dot(u, Zeros(|u|)) == 0.0
    decreases |u|
  {
    if |u| > 0 {
      assert Zeros(|u|)[1..] == Zeros(|u| - 1);
      DotZerosRight(u[1..]);
    }
  }

  /** Pairing u with a vector that is zero except c at index i picks u[i] * c. */
  lemma {:induction false} DotPointRight(u: seq<real>, i: nat, c: real)
    requires i < |u|
    ensures Dot(u, Zeros(|u|)[i := c]) == u[i] * c
    decreases |u|
  {
    var z := Zeros(|u|)[i := c];
    if i == 0 {
      assert z[1..] == Zeros(|u| - 1);
      DotZerosRight(u[1..]);
    } else {
      assert z[1..] == Zeros(|u| - 1)[i - 1 := c];
      DotPointRight(u[1..], i - 1, c);
    }
  }

  lemma {:induction false} DotCommutes(u: seq<real>, v: seq<real>)
    requires |u| == |v|
    ensures Dot(u, v) == Dot(v, u)
    decreases |u|
  {
    if |u| > 0 {
      DotCommutes(u[1..], v[1..]);
    }
  }

  /** Pairing a unit vector with x selects one component of x. */
  lemma {:induction false} DotUnit(i: nat, x: seq<real>)
    requires i < |x|
    ensures Dot(UnitVector(i, |x|), x) == x[i]
  {
    DotPointRight(x, i, 1.0);
    assert Dot(x, UnitVector(i, |x|)) == x[i];
    DotCommutes(UnitVector(i, |x|), x);
  }

  lemma {:induction false} DotNegated(u: seq<real>, v: seq<real>)
    requires |u| == |v|
    ensures Dot(Negated(u), v) == -Dot(u, v)
    decreases |u|
  {
    if |u| > 0 {
      assert Negated(u)[1..] == Negated(u[1..]);
      DotNegated(u[1..], v[1..]);
    }
  }

  lemma {:induction false} DotScaledRight(u: seq<real>, c: real, v: seq<real>)
    requires |u| == |v|
    ensures Dot(u, Scaled(c, v)) == c * Dot(u, v)
    decreases |u|
  {
    if |u| > 0 {
      assert forall j :: 0 <= j < |v| - 1 ==> Scaled(c, v)[1..][j] == Scaled(c, v[1..])[j];
      assert Scaled(c, v)[1..] == Scaled(c, v[1..]);
      DotScaledRight(u[1..], c, v[1..]);
    }
  }

  /** The inner product splits off its last pair of components. */
  lemma {:induction false} DotSplitLast(u: seq<real>, v: seq<real>)
    requires |u| == |v| > 0
    ensures Dot(u, v) == Dot(u[..|u| - 1], v[..|v| - 1]) + u[|u| - 1] * v[|v| - 1]
    decreases |u|
  {
    if |u| > 1 {
      assert u[1..][..|u| - 2] == u[..|u| - 1][1..];
      assert v[1..][..|v| - 2] == v[..|v| - 1][1..];
      DotSplitLast(u[1..], v[1..]);
    }
  }

  // ---------------------------------------------------------------------
  // Lemmas about polynomial evaluation

  /** Horner's rule agrees with the sum of coefficient times power of s. */
  lemma {:induction false} EvalAsDot(p: seq<real>, s: real)
    ensures Eval(p, s) == Dot(Reversed(p), Powers(s, |p|))
    decreases |p|
  {
    if |p| > 0 {
      var q := p[..|p| - 1];
      EvalAsDot(q, s);
      DotPowersUnfold(p, s);
      EvalUnfold(p, s);
      HornerAsDot(Eval(p, s), Eval(q, s), Dot(Reversed(p), Powers(s, |p|)), Dot(Reversed(q), Powers(s, |q|)), p[|p| - 1], s);
    }
  }

  /** The sum of coefficient times power of s splits off the constant term, leaving s times a sum of one degree less. */
  lemma {:induction false} DotPowersUnfold(p: seq<real>, s: real)
    requires |p| > 0
    ensures Dot(Reversed(p), Powers(s, |p|)) == Dot(Reversed(p[..|p| - 1]), Powers(s, |p[..|p| - 1]|)) * s + p[|p| - 1]
  {
    var q := p[..|p| - 1];
    var rp, rq := Reversed(p), Reversed(q);
    var w, wq := Powers(s, |p|), Powers(s, |q|);
    assert rp[1..] == rq;
    PowersTail(s, |q|);
    assert w == Powers(s, |q| + 1);
    assert w[1..] == Scaled(s, wq);
    DotScaledRight(rq, s, wq);
    assert Dot(rp[1..], w[1..]) == s * Dot(rq, wq);
    DotUnfold(rp, w);
    assert rp[0] == p[|p| - 1];
    assert w[0] == 1.0;
    FirstTermStep(Dot(rp, w), rp[0], w[0], Dot(rp[1..], w[1..]), Dot(rq, wq), p[|p| - 1], s);
  }

  /** The inner product's first pair of components, split off. */
  lemma {:induction false} DotUnfold(u: seq<real>, v: seq<real>)
    requires |u| == |v| > 0
    ensures Dot(u, v) == u[0] * v[0] + Dot(u[1..], v[1..])
  {
  }

  /**
   * The first term c * 1 of an inner product, on abstract values. Kept apart
   * from DotPowersUnfold and EvalAsDot: there the same arithmetic sits beside
   * the unfolded Dot, Powers and Reversed, and the solver runs out of resource.
   */
  lemma {:induction false} FirstTermStep(d: real, r0: real, w0: real, dt: real, dq: real, c: real, s: real)
    requires d == r0 * w0 + dt && dt == s * dq && r0 == c && w0 == 1.0
    ensures d == dq * s + c
  {
  }

  /**
   * Horner's step equals the split inner product, on abstract values; a
   * separate lemma for the same reason as FirstTermStep.
   */
  lemma {:induction false} HornerAsDot(ev: real, eq: real, d: real, dq: real, c: real, s: real)
    requires ev == eq * s + c && eq == dq && d == dq * s + c
    ensures ev == d
  {
  }

  /** Dropping s^0 from (1, s, ..., s^n) leaves s times (1, s, ..., s^(n-1)). */
  lemma {:induction false} PowersTail(s: real, n: nat)
    ensures Powers(s, n + 1)[1..] == Scaled(s, Powers(s, n))
  {
    assert forall j :: 0 <= j < n ==> Powers(s, n + 1)[1..][j] == Scaled(s, Powers(s, n))[j];
  }

  /** Adding c to the constant term adds c to every value of the polynomial. */
  lemma {:induction false} EvalAddConstant(p: seq<real>, c: real, s: real)
    requires |p| > 0
    ensures Eval(p[|p| - 1 := p[|p| - 1] + c], s) == Eval(p, s) + c
  {
    var p' := p[|p| - 1 := p[|p| - 1] + c];
    assert p'[..|p'| - 1] == p[..|p| - 1];
  }

  /** Dropping the constant term of q * (s + a) leaves (q without its constant term) * (s + a) plus that constant. */
  lemma {:induction false} TimesLinearPrefix(q: seq<real>, a: real)
    requires |q| > 0
    ensures var r' := TimesLinear(q[..|q| - 1], a);
      TimesLinear(q, a)[..|q|] == r'[|q| - 1 := r'[|q| - 1] + q[|q| - 1]]
  {
    var m := |q|;
    var r, r' := TimesLinear(q, a), TimesLinear(q[..m - 1], a);
    assert forall k :: 0 <= k < m ==> r[..m][k] == r'[m - 1 := r'[m - 1] + q[m - 1]][k];
  }

  /**
   * Horner's rule commutes with multiplying by x = s + a, on the values of one
   * step. The products are regrouped here on plain reals; inside
   * TimesLinearEvalStep, next to the unfolded Eval and TimesLinear, the
   * solver's cost is erratic across seeds.
   */
  lemma {:induction false} HornerStep(ev: real, er: real, eq: real, e: real, c: real, s: real, a: real, x: real)
    requires x == s + a && er == e * x + c && ev == er * s + a * c && eq == e * s + c
    ensures ev == eq * x
  {
  }

  /** numpy.poly1d's product with [1, a] evaluates to the product of the values: x = s + a. */
  lemma {:induction false} TimesLinearEval(q: seq<real>, a: real, s: real, x: real)
    requires x == s + a
    ensures Eval(TimesLinear(q, a), s) == Eval(q, s) * x
    decreases |q|
  {
    if |q| > 0 {
      TimesLinearEval(q[..|q| - 1], a, s, x);
      TimesLinearEvalStep(q, a, s, x);
    } else {
      TimesLinearEvalEmpty(q, a, s, x);
    }
  }

  lemma {:induction false} TimesLinearEvalEmpty(q: seq<real>, a: real, s: real, x: real)
    requires |q| == 0
    ensures Eval(TimesLinear(q, a), s) == Eval(q, s) * x
  {
    assert TimesLinear(q, a) == [0.0];
    assert Eval([0.0], s) == 0.0 by {
      assert [0.0][..0] == [];
    }
  }

  /** The inductive step of TimesLinearEval: put back the constant term of q. */
  lemma {:induction false} TimesLinearEvalStep(q: seq<real>, a: real, s: real, x: real)
    requires |q| > 0 && x == s + a
    requires Eval(TimesLinear(q[..|q| - 1], a), s) == Eval(q[..|q| - 1], s) * x
    ensures Eval(TimesLinear(q, a), s) == Eval(q, s) * x
  {
    var m := |q|;
    var r := TimesLinear(q, a);
    TimesLinearDropLast(q, a, s);
    EvalUnfold(r, s);
    assert r[..|r| - 1] == r[..m];
    EvalUnfold(q, s);
    HornerStep(Eval(r, s), Eval(r[..m], s), Eval(q, s), Eval(q[..m - 1], s), q[m - 1], s, a, x);
  }

  /** Horner's rule, one step. */
  lemma {:induction false} EvalUnfold(p: seq<real>, s: real)
    requires |p| > 0
    ensures Eval(p, s) == Eval(p[..|p| - 1], s) * s + p[|p| - 1]
  {
  }

  /** Without its constant term, q * (s + a) evaluates like (q without its constant term) * (s + a), plus that term. */
  lemma {:induction false} TimesLinearDropLast(q: seq<real>, a: real, s: real)
    requires |q| > 0
    ensures TimesLinear(q, a)[|q|] == a * q[|q| - 1]
    ensures Eval(TimesLinear(q, a)[..|q|], s) == Eval(TimesLinear(q[..|q| - 1], a), s) + q[|q| - 1]
  {
    TimesLinearPrefix(q, a);
    EvalAddConstant(TimesLinear(q[..|q| - 1], a), q[|q| - 1], s);
  }

  // ---------------------------------------------------------------------
  // Lemmas about (s + a)^n

  /** Coefficient k of (s + a)^n (highest degree first) is C(n, k) * a^k. */
  lemma {:induction false} LinearPowerBinomial(n: nat, a: real)
    ensures forall k :: 0 <= k <= n ==> LinearPower(n, a)[k] == BinomialTerm(n, k, a)
  {
    if n > 0 {
      LinearPowerBinomial(n - 1, a);
      TimesLinearPascal(LinearPower(n - 1, a), n - 1, a);
    }
  }

  /** The coefficient list built evaluates to (s + a)^n at every s: x = s + a. */
  lemma {:induction false} LinearPowerEval(n: nat, a: real, s: real, x: real)
    requires x == s + a
    ensures Eval(LinearPower(n, a), s) == Pow(x, n)
  {
    if n > 0 {
      LinearPowerEval(n - 1, a, s, x);
      LinearPowerUnfold(n, a);
      TimesLinearPowerStep(LinearPower(n - 1, a), a, s, x, n);
    }
  }

  /** The inductive step of LinearPowerEval: one more factor [1, a] turns the value x^(m-1) into x^m. */
  lemma {:induction false} TimesLinearPowerStep(q: seq<real>, a: real, s: real, x: real, m: nat)
    requires m > 0 && x == s + a
    requires Eval(q, s) == Pow(x, m - 1)
    ensures Eval(TimesLinear(q, a), s) == Pow(x, m)
  {
    TimesLinearEval(q, a, s, x);
    PowTimes(Eval(q, s), x, m);
  }

  /** LinearPower(n, a) is LinearPower(n - 1, a) times [1, a]. */
  lemma {:induction false} LinearPowerUnfold(n: nat, a: real)
    requires n > 0
    ensures LinearPower(n, a) == TimesLinear(LinearPower(n - 1, a), a)
  {
  }

  /**
   * A value equal to x^(m-1), times x, is x^m. The caller knows e only as the
   * value of a polynomial; handing the solver e * x and Pow(x, m) as the same
   * product term keeps TimesLinearPowerStep cheap on every seed.
   */
  lemma {:induction false} PowTimes(e: real, x: real, m: nat)
    requires m > 0 && e == Pow(x, m - 1)
    ensures e * x == Pow(x, m)
  {
  }
}

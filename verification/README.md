# ltisystems: derivative estimator and MIMO second-order composition, in Dafny

This project models two parts of the Python package `kltisystems`.

**Derivative estimator** (`kNOrderDerivativeSiso.py`, `kanyderivativesiso.py`).
- The configuration object checks `order > 0`, `pole < 0` and `Ts > 0`, then stores `M = order + 1`, `pole` and `Ts`.
- The script part builds the characteristic polynomial `den = (s - pole)^order`. It starts from the numpy `poly1d` `[1, -pole]` and multiplies by `[1, -pole]` another `order - 1` times.
- It reverses the coefficients into `rden`.
- It assembles a companion-form realisation:
  - `A` is `[0 | I]` stacked on the row `-rden[:order]`;
  - `B` is zeros except `B[-1] = den[-1]`;
  - `C_i` is the unit vector selecting state `i`;
  - `D = 0`.

The model uses exact reals. Module `Poly` holds the polynomial and vector algebra:
- `TimesLinear` is the `poly1d` product with `[1, a]`;
- `LinearPower` is `(s + a)^n`;
- `Eval` is Horner evaluation;
- `Dot` and `MatVec` are the vector and matrix products.

Module `DerivativeSiso` holds the configuration class, the loop that builds `den`, the realisation, and what the realisation guarantees:
- every shift row differentiates;
- the last row carries the negated coefficients;
- the equilibrium for a constant input `u` is exactly `(u, 0, ..., 0)`, which gives unity DC gain;
- the only eigenvalue of `A` with a Vandermonde eigenvector is the repeated pole.

**MIMO composition** (`k2orderltisysmimo.py`), in module `Mimo2Order`.
- There are `n = len(x0)` independent second-order SISO channels.
- The constructor fills the six configuration arguments into per-channel lists. A scalar becomes `n` copies, an array or a list its items, and anything else raises `NameError`. It then builds channel `i` from entry `i` of every list. A list shorter than `n` raises `IndexError`.
- `get_state()` concatenates the channel states into `[x1, x1', x2, x2', ...]`. `get_state(i)` is channel `i`'s state, with Python's negative indexing.
- `interleave` and `deinterleave` convert between `[x1..xn, x1'..xn']` and `[x1, x1', ...]`. They are proved mutually inverse.
- `update` takes the discrete path when `Ts > 0` and the continuous one otherwise. Both paths fill `u` and forward `u[i]` to channel `i` in increasing order. A short `u` raises `IndexError` after the channels it covers were updated.
- The SISO simulator itself is not part of this model. Class `Siso` stands in for it: it keeps its configuration, holds a two-entry state whose evolution is left unspecified, and logs its inputs in a ghost field.

The source is inconsistent about the dimension, and the model follows the code that builds the system.
- The docstring makes `order` the highest derivative estimated: "y''' => order=3" (`kNOrderDerivativeSiso.py:28`). That takes `order + 1` outputs, derivatives 0 to `order`, and the constructor stores `M = order + 1` (`kNOrderDerivativeSiso.py:38`).
- The script builds the polynomial from `order` factors and an `order x order` matrix (`kNOrderDerivativeSiso.py:64,71`), with one selector per state (`kNOrderDerivativeSiso.py:81`). Its outputs are derivatives 0 to `order - 1`: for `order = 3`, `y'''` is never produced.
- `DerivativeSiso.RealizationOneShortOfM` states the mismatch: the realisation has `M - 1` states.

## Model

| member | source | states |
|---|---|---|
| `DerivativeSiso.NOrderDerivativeSiso.New` | kltisystems/kNOrderDerivativeSiso.py:33-40 | construction succeeds exactly when order > 0, pole < 0 and Ts > 0 (otherwise the failed assert); on success M = order + 1 and pole, Ts are stored |
| `DerivativeSiso.NOrderDerivativeSiso.constructor` | kltisystems/kNOrderDerivativeSiso.py:38-40 | the stored fields: M = order + 1, pole, Ts |
| `DerivativeSiso.CharPoly` | kltisystems/kNOrderDerivativeSiso.py:63-67 | den has order + 1 coefficients and leading coefficient 1 |
| `DerivativeSiso.BuildDen` | kltisystems/kNOrderDerivativeSiso.py:63-65 | the loop starting from [1, -pole] and multiplying by [1, -pole] order - 1 times yields (s - pole)^order |
| `DerivativeSiso.CharPolyBinomial` | kltisystems/kNOrderDerivativeSiso.py:63-66 | coefficient k of den (highest degree first) is C(order, k) * (-pole)^k |
| `DerivativeSiso.CharPolyPositive` | kltisystems/kNOrderDerivativeSiso.py:63-65 | with pole < 0 every coefficient of den is strictly positive |
| `DerivativeSiso.CharPolyEval` | kltisystems/kanyderivativesiso.py:41-45 | den evaluates to (s - pole)^order at every s: it is the product of order identical factors |
| `DerivativeSiso.ConstantTerm` | kltisystems/kanyderivativesiso.py:41-45 | the constant term den[-1] is (-pole)^order |
| `DerivativeSiso.CompanionA` | kltisystems/kNOrderDerivativeSiso.py:71-72 | A is order x order: order - 1 shift rows stacked on one coefficient row |
| `DerivativeSiso.MakeInputB` | kltisystems/kNOrderDerivativeSiso.py:73-75 | the zero array with its last entry overwritten by den[-1] is InputB(den) |
| `DerivativeSiso.MakeSelector` | kltisystems/kNOrderDerivativeSiso.py:82-83 | the zero array with entry i overwritten by 1.0 is the unit vector e_i |
| `DerivativeSiso.Realize` | kltisystems/kNOrderDerivativeSiso.py:71-83 | (A, B, C_i, D = 0) are shape-consistent: A is n x n, B and C_i have n entries |
| `DerivativeSiso.RealizationOneShortOfM` | kltisystems/kNOrderDerivativeSiso.py:28-38 | for a configuration object of a given order, the realisation of (s - pole)^order has order = M - 1 states, and only outputs 0 to order - 1 exist |
| `DerivativeSiso.ShiftRowsDifferentiate` | kltisystems/kanyderivativesiso.py:49 | for every row i < order - 1, (A x)[i] = x[i + 1]: state i + 1 is the derivative of state i |
| `DerivativeSiso.StateDerivativeShifts` | kltisystems/kNOrderDerivativeSiso.py:71-75 | the first order - 1 entries of A x + B u are x[1], ..., x[order - 1], whatever u |
| `DerivativeSiso.LastRowIsNegatedCoefficients` | kltisystems/kanyderivativesiso.py:45-50 | A[order - 1][j] is minus den[order - j], the coefficient of s^j, for j < order (the leading 1 excluded) |
| `DerivativeSiso.InputBIsConstantTerm` | kltisystems/kanyderivativesiso.py:51-53 | B[order - 1] = (-pole)^order = den[-1] and every other entry of B is 0 |
| `DerivativeSiso.OutputIsState` | kltisystems/kanyderivativesiso.py:54-61 | with C_i = e_i and D = 0, output i is exactly state i, for any input |
| `DerivativeSiso.LastRowAtRest` | kltisystems/kNOrderDerivativeSiso.py:72-75 | on (x0, 0, ..., 0) the last derivative is den[-1] * (u - x0) |
| `DerivativeSiso.EquilibriumIsRest` | kltisystems/kNOrderDerivativeSiso.py:72-75 | if A x + B u = 0 and den[-1] != 0 then x = (u, 0, ..., 0) |
| `DerivativeSiso.RestIsEquilibrium` | kltisystems/kNOrderDerivativeSiso.py:72-75 | (u, 0, ..., 0) satisfies A x + B u = 0 |
| `DerivativeSiso.EquilibriumIff` | kltisystems/kNOrderDerivativeSiso.py:72-75 | for a non-zero constant term, A x + B u = 0 if and only if x = (u, 0, ..., 0) |
| `DerivativeSiso.UnityDcGain` | kltisystems/kanyderivativesiso.py:41-54 | for den = (s - pole)^order with pole < 0 the equilibrium for constant u is exactly (u, 0, ..., 0); there output 0 reads u and every derivative output reads 0 |
| `DerivativeSiso.CompanionTimesPowers` | kltisystems/kNOrderDerivativeSiso.py:71-72 | A (1, l, ..., l^(n-1)) equals l times that vector except in the last entry, which is short by den(l) |
| `DerivativeSiso.CompanionLastRowPowers` | kltisystems/kNOrderDerivativeSiso.py:67-72 | the last row of A applied to (1, l, ..., l^(n-1)) is l^n - den(l) for monic den |
| `DerivativeSiso.RootGivesEigenvector` | kltisystems/kNOrderDerivativeSiso.py:67-72 | a root l of den makes (1, l, ..., l^(n-1)) an eigenvector of A with eigenvalue l |
| `DerivativeSiso.EigenvectorGivesRoot` | kltisystems/kNOrderDerivativeSiso.py:67-72 | if (1, l, ..., l^(n-1)) is an eigenvector of A for l then den(l) = 0 |
| `DerivativeSiso.CompanionEigenvector` | kltisystems/kNOrderDerivativeSiso.py:67-72 | (1, l, ..., l^(n-1)) is an eigenvector of A for l if and only if l is a root of den |
| `DerivativeSiso.RepeatedPoleIsEigenvalue` | kltisystems/kNOrderDerivativeSiso.py:63-72 | for den = (s - pole)^order, A has the Vandermonde eigenvector for l exactly when l = pole |
| `Poly.UnitVector` | kltisystems/kanyderivativesiso.py:60-61 | C_i has a 1 at i and 0 everywhere else |
| `Poly.TimesLinearEval` | kltisystems/kNOrderDerivativeSiso.py:65 | the product with [1, a] evaluates to the factor's value times (s + a) at every s |
| `Poly.TimesLinearPascal` | kltisystems/kNOrderDerivativeSiso.py:65 | multiplying the binomial row of (s + a)^n by [1, a] gives the binomial row of (s + a)^(n+1) (Pascal's rule) |
| `Poly.LinearPower` | kltisystems/kanyderivativesiso.py:41-43 | n factors [1, a] give n + 1 coefficients with leading 1 |
| `Poly.LinearPowerBinomial` | kltisystems/kanyderivativesiso.py:41-43 | coefficient k of (s + a)^n is C(n, k) * a^k |
| `Poly.LinearPowerEval` | kltisystems/kanyderivativesiso.py:41-43 | the coefficient list evaluates to (s + a)^n at every s |
| `Poly.EvalAsDot` | kltisystems/kanyderivativesiso.py:45-46 | Horner evaluation of den equals the sum over j of rden[j] * s^j: rden[j] is the coefficient of s^j |
| `Mimo2Order.FillConfigList` | kltisystems/k2orderltisysmimo.py:63-80 | a scalar yields n copies of itself, an array or a list its own items in order, any other argument NameError |
| `Mimo2Order.Configure` | kltisystems/k2orderltisysmimo.py:41-61 | NameError exactly when some argument is neither scalar, array nor list; otherwise IndexError exactly when some array or list is shorter than n; on success each list is the filled argument and covers all n channels |
| `Mimo2Order.InterleaveAsWritten` | kltisystems/k2orderltisysmimo.py:107-113 | as written: UnboundLocalError exactly for a plain list on at least one channel; otherwise IndexError exactly when the input has fewer than 2n entries, else the interleaved vector |
| `Mimo2Order.DeinterleaveAsWritten` | kltisystems/k2orderltisysmimo.py:128-132 | as written: NameError exactly for a plain list on at least one channel; otherwise IndexError exactly when the input has fewer than 2n entries, else the deinterleaved vector |
| `Mimo2Order.ListInputDefect` | kltisystems/k2orderltisysmimo.py:107-132 | the as-written and the corrected interleave and deinterleave differ exactly for a plain list on at least one channel; there the corrected ones succeed on 2n entries |
| `Mimo2Order.OneChannelListInput` | kltisystems/k2orderltisysmimo.py:107-113 | on one channel the list [1.0, 2.0] fails as written while the array [1.0, 2.0] interleaves to itself; on no channel a list passes |
| `Mimo2Order.Interleaved` | kltisystems/k2orderltisysmimo.py:111-113 | the interleaved vector has 2n entries with y[2i] = x[i] and y[2i+1] = x[n+i] |
| `Mimo2Order.Deinterleaved` | kltisystems/k2orderltisysmimo.py:132 | the deinterleaved vector has 2n entries with y[i] = x[2i] and y[n+i] = x[2i+1] |
| `Mimo2Order.DeinterleaveInterleave` | kltisystems/k2orderltisysmimo.py:99-137 | deinterleave(interleave(x)) = x for a 2n-vector (the first 2n entries of a longer one) |
| `Mimo2Order.InterleaveDeinterleave` | kltisystems/k2orderltisysmimo.py:99-137 | interleave(deinterleave(x)) = x for a 2n-vector (the first 2n entries of a longer one) |
| `Mimo2Order.FlattenPairs` | kltisystems/k2orderltisysmimo.py:90-93 | when every channel state has two entries, the concatenation has 2n entries and channel i sits at 2i and 2i+1 |
| `Mimo2Order.Siso.constructor` | kltisystems/k2orderltisysmimo.py:52-60 | a channel keeps the configuration it was given, starts with a two-entry state and has received no input |
| `Mimo2Order.Siso.Update` | kltisystems/k2orderltisysmimo.py:158 | one call records the input (t, u) once and keeps a two-entry state |
| `Mimo2Order.Mimo.constructor` | kltisystems/k2orderltisysmimo.py:41-61 | n = len(x0) distinct fresh channels, channel i built from entry i of every list, x0[i] and Ts; curr_t = 0 |
| `Mimo2Order.Mimo.New` | kltisystems/k2orderltisysmimo.py:25-61 | the constructor's outcome is Configure's: its NameError or IndexError, otherwise a valid object whose lists are the filled arguments |
| `Mimo2Order.Mimo.GetState` | kltisystems/k2orderltisysmimo.py:90-93 | the channel states concatenated in channel order: 2n entries, channel i's [x, dx/dt] at 2i and 2i+1 |
| `Mimo2Order.Mimo.GetSisoState` | kltisystems/k2orderltisysmimo.py:94-95 | channel i's state for 0 <= i < n, channel n + i's for -n <= i < 0, IndexError otherwise |
| `Mimo2Order.Mimo.Interleave` | kltisystems/k2orderltisysmimo.py:99-118 | IndexError exactly when the input has fewer than 2n entries; otherwise the interleaved vector; arrays and lists alike |
| `Mimo2Order.Mimo.Deinterleave` | kltisystems/k2orderltisysmimo.py:120-137 | IndexError exactly when the input has fewer than 2n entries; otherwise y[i] = x[2i] and y[n+i] = x[2i+1]; arrays and lists alike |
| `Mimo2Order.Mimo.FanOut` | kltisystems/k2orderltisysmimo.py:156-158 | channels 0..k-1, k = min(len(u), n), each receive (t, u[i]) once in increasing order, the others are untouched; IndexError exactly when len(u) < n |
| `Mimo2Order.Mimo.ContinuousUpdate` | kltisystems/k2orderltisysmimo.py:147-158 | NameError and no change for an unfillable u; otherwise the fan-out of the filled u |
| `Mimo2Order.Mimo.DiscreteUpdate` | kltisystems/k2orderltisysmimo.py:167-179 | AssertionError and no change when Ts <= 0; otherwise as the continuous update |
| `Mimo2Order.Mimo.Update` | kltisystems/k2orderltisysmimo.py:214-221 | dispatches on Ts > 0, so the AssertionError never arises; NameError with no change, or the fan-out of the filled u |

## Findings

| source | as written | input that shows it | evidently intended | confidence | as-written member | corrected member |
|---|---|---|---|---|---|---|
| kltisystems/k2orderltisysmimo.py:107-108 | `In` is bound only when `x` is an ndarray. With at least one channel, a list argument fails at the first read of `In`: UnboundLocalError in `interleave` (line 113). In `deinterleave` the read is inside a comprehension (line 132), which raises NameError up to Python 3.11 and UnboundLocalError, a subclass of NameError, from 3.12 | `interleave([1.0, 2.0])` on a one-channel object | lists and arrays are both accepted, as the conversion back to an array only for an array input at lines 115-116 shows | high; not executed | `Mimo2Order.InterleaveAsWritten` and `Mimo2Order.DeinterleaveAsWritten` (with `Mimo2Order.ListInputDefect` and `Mimo2Order.OneChannelListInput`) | `Mimo2Order.Mimo.Interleave` and `Mimo2Order.Mimo.Deinterleave` |

## Left out

- The `scipy.signal` calls are not modelled: `ss.lti`, `ss.lsim`, `ss.cont2discrete`, `ss.ss2tf`, `ss.lfilter` and `ss.lfiltic` (`kNOrderDerivativeSiso.py:84-96`, `kanyderivativesiso.py:62-63`). They are library floating-point code: matrix exponentials, transfer-function extraction and IIR filtering.
- Plotting, the random step input (`np.random.randn`) and the demo buffers are not modelled. They are demo I/O.
- `do_tests.py` is only a test runner.
- Floating point: all arithmetic is exact `real`. Rounding in `poly1d` products and in `A`, `B` is not modelled.
- `DerivativeSiso.CharPoly`: the int64 wrap-around of `den` is not modelled. The scripts use the integer pole `-100` (`kNOrderDerivativeSiso.py:49`, `kanyderivativesiso.py:29`), so the `poly1d` coefficients are numpy int64 and the products wrap silently once a coefficient passes 2^63. For pole `-100` that happens from order 10 on, where the constant term is 100^10 = 10^20. `CharPoly` is the exact polynomial.
- `Poly.TimesLinear`: `poly1d` multiplication is modelled only for a monic linear factor `[1, a]`, the only product the code forms.
- The abstract-class guard `assert "kCommon2OrderLTIsysMimo" not in str(self.__class__)` is not modelled. It is reflection on the class name.
- The separate classes `k2OrderLTIsysMimoContinuos` and `k2OrderLTIsysMimoDiscrete` are not modelled separately. `Mimo` models the combined class `k2OrderLTIsysMimo` that the package instantiates.
- k2orderltisyssiso.py is not part of this model.
- `Mimo2Order.Siso.Update`: the new SISO state is left unspecified apart from its two entries, because the SISO dynamics, with their saturations, are not visible.
- `Mimo2Order.Siso.constructor`: the initial SISO state is likewise unspecified.
- Python's dynamic typing is reduced to `ConfigValue`: a scalar (`int` or `float`), a one-dimensional array, a list, or anything else. Booleans, which Python counts as `int`, and multi-dimensional arrays are not distinguished.
- `Mimo2Order.Mimo.GetState`: the `np.asarray` conversion is not modelled. The model returns the plain sequence.
- `get_state` with two or more arguments, which raises UnboundLocalError, is not modelled.
- `squeeze()` on the interleave and deinterleave inputs is not modelled: vectors are flat sequences.
- The array-versus-list return type of `interleave` and `deinterleave` is not modelled: both are sequences.
- `Mimo2Order.Mimo.Interleave` and `Mimo2Order.Mimo.Deinterleave` follow the corrected reading of the input, which accepts a list as well as an array. The code as written is `Mimo2Order.InterleaveAsWritten` and `Mimo2Order.DeinterleaveAsWritten`.
- Python negative indexing is modelled only in `get_state(i)`, where an integer index comes from the caller.
- `curr_t` is set to 0 by the continuous constructor and never read. The model keeps the field and proves that updates leave it unchanged.

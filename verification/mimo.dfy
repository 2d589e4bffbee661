/**
 * The MIMO composition of second-order SISO simulators
 * (kltisystems/k2orderltisysmimo.py): n independent SISO channels, one per
 * entry of the initial state x0, configured from per-channel lists, read as
 * one concatenated state vector, and updated by fanning an input vector out
 * to the channels.
 *
 * The class k2OrderLTIsysMimo combines a continuous and a discrete update
 * path; `Mimo` models that combined class. The SISO simulator itself
 * (k2orderltisyssiso.py) is not part of this model: `Siso` stands in for it
 * with its configuration, a two-entry state [x, dx/dt] whose evolution is
 * left unspecified, and a ghost log of the inputs it was given.
 */
module Mimo2Order {
  import opened Wrappers

  /**
   * The Python exceptions the MIMO object can raise. In Python
   * UnboundLocalError is a subclass of NameError; the two are kept apart here
   * so that each outcome names the exception the code raises.
   */
  datatype MimoError = NameError | IndexError | AssertionError | UnboundLocalError

  /** A state vector argument: a numpy array or a plain list. */
  datatype Vector = NdArray(items: seq<real>) | PyList(items: seq<real>)

  /** A configuration argument: a Python int/float, a numpy array, a list, or anything else. */
  datatype ConfigValue = Scalar(x: real) | Array(items: seq<real>) | List(items: seq<real>) | Other

  /** One `update(t, u)` call forwarded to channel `index`. */
  datatype Forward = Forward(index: nat, t: real, u: real)

  /** The six per-channel configuration lists, as `_fn_fill_config_list` returns them. */
  datatype Config = Config(qsi: seq<real>, wn: seq<real>, minX: seq<real>, maxX: seq<real>,
                           minDxdt: seq<real>, maxDxdt: seq<real>)
  {
    /** Every list has an entry for each of the n channels, so indexing it never raises. */
    predicate Covers(n: nat) {
      n <= |qsi| && n <= |wn| && n <= |minX| && n <= |maxX| && n <= |minDxdt| && n <= |maxDxdt|
    }
  }

  /** `_fn_fill_config_list`: a scalar becomes n copies, an array or a list its elements, anything else a NameError. */
  function FillConfigList(v: ConfigValue, n: nat): (r: Result<seq<real>, MimoError>)
    ensures r.Ok? <==> !v.Other?
    ensures v.Other? ==> r == Err(NameError)
    ensures v.Scalar? ==> |r.value| == n && forall i :: 0 <= i < n ==> r.value[i] == v.x
    ensures (v.Array? || v.List?) ==> r.value == v.items
  {
    match v
    case Scalar(x) => Ok(seq(n, _ => x))
    case Array(items) => Ok(items)
    case List(items) => Ok(items)
    case Other => Err(NameError)
  }

  /** An array or list argument with fewer entries than channels: indexing it at n - 1 raises. */
  predicate Short(v: ConfigValue, n: nat) {
    (v.Array? || v.List?) && |v.items| < n
  }

  /**
   * The configuration part of the constructor: the six fills, then the
   * indexing of every list at 0..n-1 while the channels are built.
   */
  function Configure(n: nat, qsi: ConfigValue, wn: ConfigValue, minDxdt: ConfigValue, maxDxdt: ConfigValue,
                     minX: ConfigValue, maxX: ConfigValue): (r: Result<Config, MimoError>)
    ensures r == Err(NameError) <==> (qsi.Other? || wn.Other? || minX.Other? || maxX.Other? || minDxdt.Other? || maxDxdt.Other?)
    ensures r == Err(IndexError) <==>
            !(qsi.Other? || wn.Other? || minX.Other? || maxX.Other? || minDxdt.Other? || maxDxdt.Other?) &&
            (Short(qsi, n) || Short(wn, n) || Short(minX, n) || Short(maxX, n) || Short(minDxdt, n) || Short(maxDxdt, n))
    ensures r.Ok? || r == Err(NameError) || r == Err(IndexError)
    ensures r.Ok? ==> r.value.Covers(n)
    ensures r.Ok? ==> r.value == Config(FillConfigList(qsi, n).value, FillConfigList(wn, n).value,
                                        FillConfigList(minX, n).value, FillConfigList(maxX, n).value,
                                        FillConfigList(minDxdt, n).value, FillConfigList(maxDxdt, n).value)
  {
    var fq, fw, fmin, fmax, fdmin, fdmax :=
      FillConfigList(qsi, n), FillConfigList(wn, n), FillConfigList(minX, n), FillConfigList(maxX, n),
      FillConfigList(minDxdt, n), FillConfigList(maxDxdt, n);
    if fq.Err? || fw.Err? || fmin.Err? || fmax.Err? || fdmin.Err? || fdmax.Err? then Err(NameError)
    else
      var c := Config(fq.value, fw.value, fmin.value, fmax.value, fdmin.value, fdmax.value);
      if c.Covers(n) then Ok(c) else Err(IndexError)
  }

  // The interleaved layout [x1, x1', x2, x2', ...] and the split layout [x1, ..., xn, x1', ..., xn'].

  /** What `interleave` computes from a split vector: position 2i holds x[i], position 2i+1 holds x[n+i]. */
  function Interleaved(n: nat, x: seq<real>): (y: seq<real>)
    requires 2 * n <= |x|
    ensures |y| == 2 * n
    ensures forall i :: 0 <= i < n ==> y[2 * i] == x[i] && y[2 * i + 1] == x[n + i]
  {
    seq(2 * n, k requires 0 <= k < 2 * n => if k % 2 == 0 then x[k / 2] else x[n + k / 2])
  }

  /** What `deinterleave` computes: the even positions, then the odd positions. */
  function Deinterleaved(n: nat, x: seq<real>): (y: seq<real>)
    requires 2 * n <= |x|
    ensures |y| == 2 * n
    ensures forall i :: 0 <= i < n ==> y[i] == x[2 * i] && y[n + i] == x[2 * i + 1]
  {
    seq(n, i requires 0 <= i < n => x[2 * i]) + seq(n, i requires 0 <= i < n => x[2 * i + 1])
  }

  /** Deinterleaving undoes interleaving; of a longer input, only the first 2n entries come back. */
  lemma {:induction false} DeinterleaveInterleave(n: nat, x: seq<real>)
    requires 2 * n <= |x|
    ensures Deinterleaved(n, Interleaved(n, x)) == x[..2 * n]
  {
    var y := Interleaved(n, x);
    var z := Deinterleaved(n, y);
    forall k | 0 <= k < 2 * n
      ensures z[k] == x[k]
    {
      if k < n {
        assert z[k] == y[2 * k];
      } else {
        assert z[n + (k - n)] == y[2 * (k - n) + 1];
      }
    }
  }

  /** Interleaving undoes deinterleaving. */
  lemma {:induction false} InterleaveDeinterleave(n: nat, x: seq<real>)
    requires 2 * n <= |x|
    ensures Interleaved(n, Deinterleaved(n, x)) == x[..2 * n]
  {
    var y := Deinterleaved(n, x);
    var z := Interleaved(n, y);
    forall k | 0 <= k < 2 * n
      ensures z[k] == x[k]
    {
      var i := k / 2;
      if k % 2 == 0 {
        assert k == 2 * i;
        assert z[2 * i] == y[i];
      } else {
        assert k == 2 * i + 1;
        assert z[2 * i + 1] == y[n + i];
      }
    }
  }

  /**
   * `interleave` as written: its working list `In` is bound only inside
   * `if isinstance(x, np.ndarray)`, so for a plain list the first read of `In`
   * in the loop raises UnboundLocalError. With no channel the loop never runs
   * and any input gives []. Otherwise reading past the input raises IndexError.
   */
  function InterleaveAsWritten(n: nat, v: Vector): (r: Result<seq<real>, MimoError>)
    ensures r == Err(UnboundLocalError) <==> v.PyList? && 0 < n
    ensures r == Err(IndexError) <==> (v.NdArray? || n == 0) && |v.items| < 2 * n
    ensures r.Ok? <==> (v.NdArray? || n == 0) && 2 * n <= |v.items|
    ensures r.Ok? ==> r.value == Interleaved(n, v.items)
  {
    if v.PyList? && 0 < n then Err(UnboundLocalError)
    else if |v.items| < 2 * n then Err(IndexError)
    else Ok(Interleaved(n, v.items))
  }

  /**
   * `deinterleave` as written: `In` is bound the same way, but read inside the
   * list comprehensions. Up to Python 3.11 a comprehension is a scope of its
   * own and the read of the unbound free variable raises NameError; from 3.12
   * it raises UnboundLocalError, a subclass of NameError. The model reports
   * NameError, which covers both. With no channel nothing is read.
   */
  function DeinterleaveAsWritten(n: nat, v: Vector): (r: Result<seq<real>, MimoError>)
    ensures r == Err(NameError) <==> v.PyList? && 0 < n
    ensures r == Err(IndexError) <==> (v.NdArray? || n == 0) && |v.items| < 2 * n
    ensures r.Ok? <==> (v.NdArray? || n == 0) && 2 * n <= |v.items|
    ensures r.Ok? ==> r.value == Deinterleaved(n, v.items)
  {
    if v.PyList? && 0 < n then Err(NameError)
    else if |v.items| < 2 * n then Err(IndexError)
    else Ok(Deinterleaved(n, v.items))
  }

  // The concatenated MIMO state.

  /** The states of the channels, concatenated in channel order. */
  function Flatten(xs: seq<seq<real>>): (r: seq<real>)
  {
    if xs == [] then [] else Flatten(xs[..|xs| - 1]) + xs[|xs| - 1]
  }

  /** When every channel state is [x, dx/dt], channel i's two entries sit at 2i and 2i+1. */
  lemma {:induction false} FlattenPairs(xs: seq<seq<real>>)
    requires forall i :: 0 <= i < |xs| ==> |xs[i]| == 2
    ensures |Flatten(xs)| == 2 * |xs|
    ensures forall i :: 0 <= i < |xs| ==> Flatten(xs)[2 * i] == xs[i][0] && Flatten(xs)[2 * i + 1] == xs[i][1]
  {
    if xs != [] {
      FlattenPairs(xs[..|xs| - 1]);
    }
  }

  /** Stand-in for k2OrderLTIsysSiso: its configuration, its state [x, dx/dt], and the inputs it received. */
  class Siso {
    const qsi: real
    const wn: real
    const x0: real
    const minDxdt: real
    const maxDxdt: real
    const minX: real
    const maxX: real
    const ts: real
    var state: seq<real>
    ghost var inputs: seq<(real, real)>

    constructor (qsi: real, wn: real, x0: real, minDxdt: real, maxDxdt: real, minX: real, maxX: real, ts: real)
      ensures this.qsi == qsi && this.wn == wn && this.x0 == x0 && this.minDxdt == minDxdt
      ensures this.maxDxdt == maxDxdt && this.minX == minX && this.maxX == maxX && this.ts == ts
      ensures |state| == 2 && inputs == []
    {
      this.qsi, this.wn, this.x0, this.minDxdt := qsi, wn, x0, minDxdt;
      this.maxDxdt, this.minX, this.maxX, this.ts := maxDxdt, minX, maxX, ts;
      assert |[0.0, 0.0]| == 2;
      var s: seq<real> :| |s| == 2;
      state := s;
      inputs := [];
    }

    /** One simulation step with input u at time t; the new state is not specified here. */
    method Update(t: real, u: real)
      modifies this
      ensures |state| == 2 && inputs == old(inputs) + [(t, u)]
    {
      assert |[0.0, 0.0]| == 2;
      var s: seq<real> :| |s| == 2;
      state := s;
      inputs := inputs + [(t, u)];
    }
  }

  /** The states of the given channels, in order. */
  function StatesOf(ss: seq<Siso>): (r: seq<seq<real>>)
    reads ss
    ensures |r| == |ss| && forall i :: 0 <= i < |ss| ==> r[i] == ss[i].state
  {
    seq(|ss|, i requires 0 <= i < |ss| reads ss => ss[i].state)
  }

  /** k2OrderLTIsysMimo: n channels, their configuration lists, and the channels themselves. */
  class Mimo {
    const n: nat
    const x0: seq<real>
    const ts: real
    const qsi: seq<real>
    const wn: seq<real>
    const minX: seq<real>
    const maxX: seq<real>
    const minDxdt: seq<real>
    const maxDxdt: seq<real>
    const siso: seq<Siso>
    var currT: real
    /** Every input forwarded to a channel, in call order. */
    ghost var forwarded: seq<Forward>

    /** Channel i is a distinct object configured from entry i of every list, with a state [x, dx/dt]. */
    ghost predicate Valid()
      reads this, siso
    {
      && |siso| == n && |x0| == n
      && Config(qsi, wn, minX, maxX, minDxdt, maxDxdt).Covers(n)
      && (forall i, j :: 0 <= i < j < n ==> siso[i] != siso[j])
      && (forall i :: 0 <= i < n ==>
            && siso[i].qsi == qsi[i] && siso[i].wn == wn[i] && siso[i].x0 == x0[i]
            && siso[i].minDxdt == minDxdt[i] && siso[i].maxDxdt == maxDxdt[i]
            && siso[i].minX == minX[i] && siso[i].maxX == maxX[i] && siso[i].ts == ts
            && |siso[i].state| == 2)
    }

    /** The constructor once the configuration lists are filled and long enough. */
    constructor (x0: seq<real>, c: Config, ts: real)
      requires c.Covers(|x0|)
      ensures Valid()
      ensures n == |x0| && this.x0 == x0 && this.ts == ts
      ensures qsi == c.qsi && wn == c.wn && minX == c.minX && maxX == c.maxX
      ensures minDxdt == c.minDxdt && maxDxdt == c.maxDxdt
      ensures currT == 0.0 && forwarded == []
      ensures forall i :: 0 <= i < n ==> fresh(siso[i]) && siso[i].inputs == []
    {
      var ss: seq<Siso> := [];
      for i := 0 to |x0|
        invariant |ss| == i
        invariant forall k, j :: 0 <= k < j < i ==> ss[k] != ss[j]
        invariant forall k :: 0 <= k < i ==>
          && fresh(ss[k]) && ss[k].inputs == []
          && ss[k].qsi == c.qsi[k] && ss[k].wn == c.wn[k] && ss[k].x0 == x0[k]
          && ss[k].minDxdt == c.minDxdt[k] && ss[k].maxDxdt == c.maxDxdt[k]
          && ss[k].minX == c.minX[k] && ss[k].maxX == c.maxX[k] && ss[k].ts == ts
          && |ss[k].state| == 2
      {
        var s := new Siso(c.qsi[i], c.wn[i], x0[i], c.minDxdt[i], c.maxDxdt[i], c.minX[i], c.maxX[i], ts);
        ss := ss + [s];
      }
      n, this.x0, this.ts := |x0|, x0, ts;
      qsi, wn, minX, maxX, minDxdt, maxDxdt := c.qsi, c.wn, c.minX, c.maxX, c.minDxdt, c.maxDxdt;
      siso := ss;
      currT := 0.0;
      forwarded := [];
    }

    /**
     * `k2OrderLTIsysMimo(...)`: n = len(x0) channels; a NameError from a fill,
     * an IndexError from a list shorter than n.
     */
    static method New(qsi: ConfigValue, wn: ConfigValue, x0: seq<real>, minDxdt: ConfigValue, maxDxdt: ConfigValue,
                      minX: ConfigValue, maxX: ConfigValue, ts: real) returns (r: Result<Mimo, MimoError>)
      ensures var c := Configure(|x0|, qsi, wn, minDxdt, maxDxdt, minX, maxX);
              && (c.Err? ==> r == Err(c.error))
              && (c.Ok? ==> r.Ok? && r.value.Valid() && fresh(r.value)
                            && r.value.n == |x0| && r.value.x0 == x0 && r.value.ts == ts
                            && Config(r.value.qsi, r.value.wn, r.value.minX, r.value.maxX,
                                      r.value.minDxdt, r.value.maxDxdt) == c.value
                            && r.value.currT == 0.0 && r.value.forwarded == []
                            && forall i :: 0 <= i < |x0| ==> fresh(r.value.siso[i]) && r.value.siso[i].inputs == [])
    {
      var c := Configure(|x0|, qsi, wn, minDxdt, maxDxdt, minX, maxX);
      if c.Err? {
        return Err(c.error);
      }
      var m := new Mimo(x0, c.value, ts);
      return Ok(m);
    }

    /** `get_state()`: the channel states concatenated, so [x1, x1', x2, x2', ...]. */
    method GetState() returns (x: seq<real>)
      requires Valid()
      ensures x == Flatten(StatesOf(siso))
      ensures |x| == 2 * n
      ensures forall i :: 0 <= i < n ==> x[2 * i] == siso[i].state[0] && x[2 * i + 1] == siso[i].state[1]
    {
      ghost var states := StatesOf(siso);
      x := [];
      for i := 0 to n
        invariant x == Flatten(states[..i])
      {
        assert states[..i + 1][..i] == states[..i];
        x := x + siso[i].state;
      }
      assert states[..n] == states;
      FlattenPairs(states);
    }

    /** `get_state(i)`: channel i's state; Python indexing, so a negative i counts from the end. */
    method GetSisoState(i: int) returns (r: Result<seq<real>, MimoError>)
      requires Valid()
      ensures 0 <= i < n ==> r == Ok(siso[i].state)
      ensures i < 0 <= n + i ==> r == Ok(siso[n + i].state)
      ensures r.Err? <==> !(0 <= n + i && i < n)
      ensures r.Err? ==> r.error == IndexError
    {
      if n + i < 0 || n <= i {
        return Err(IndexError);
      }
      var k := if i < 0 then n + i else i;
      return Ok(siso[k].state);
    }

    /**
     * `interleave`: [x1..xn, x1'..xn'] to [x1, x1', ..., xn, xn']; reading past
     * the input raises IndexError. An array and a list are read alike.
     */
    method Interleave(v: Vector) returns (r: Result<seq<real>, MimoError>)
      ensures r.Ok? <==> 2 * n <= |v.items|
      ensures r.Err? ==> r.error == IndexError
      ensures r.Ok? ==> r.value == Interleaved(n, v.items)
    {
      var x := v.items;
      var y: seq<real> := [];
      for i := 0 to n
        invariant |y| == 2 * i
        invariant 0 < i ==> n + i <= |x|
        invariant forall k :: 0 <= k < i ==> y[2 * k] == x[k] && y[2 * k + 1] == x[n + k]
      {
        if |x| <= n + i {
          return Err(IndexError);
        }
        y := y + [x[i], x[n + i]];
      }
      assert forall k :: 0 <= k < 2 * n ==> y[k] == Interleaved(n, x)[k] by {
        forall k | 0 <= k < 2 * n
          ensures y[k] == Interleaved(n, x)[k]
        {
          var j := k / 2;
          if k % 2 == 0 {
            assert k == 2 * j;
          } else {
            assert k == 2 * j + 1;
          }
        }
      }
      return Ok(y);
    }

    /**
     * `deinterleave`: [x1, x1', ..., xn, xn'] to [x1..xn, x1'..xn']; reading
     * past the input raises IndexError. An array and a list are read alike.
     */
    function Deinterleave(v: Vector): (r: Result<seq<real>, MimoError>)
      ensures r.Ok? <==> 2 * n <= |v.items|
      ensures r.Err? ==> r.error == IndexError
      ensures r.Ok? ==> |r.value| == 2 * n
      ensures r.Ok? ==> forall i :: 0 <= i < n ==> r.value[i] == v.items[2 * i] && r.value[n + i] == v.items[2 * i + 1]
    {
      if |v.items| < 2 * n then Err(IndexError) else Ok(Deinterleaved(n, v.items))
    }

    /** Nothing changed: no channel was updated and no input forwarded. */
    twostate predicate Untouched()
      reads this, siso
    {
      && currT == old(currT) && forwarded == old(forwarded)
      && forall i :: 0 <= i < |siso| ==> siso[i].state == old(siso[i].state) && siso[i].inputs == old(siso[i].inputs)
    }

    /**
     * The fan-out loop over the filled input f: channels 0..k-1, k = min(|f|, n),
     * each received (t, f[i]) once, in increasing channel order; the rest did not change.
     */
    twostate predicate FannedOut(t: real, f: seq<real>)
      reads this, siso
    {
      var k := if |f| < n then |f| else n;
      && currT == old(currT)
      && forwarded == old(forwarded) + seq(k, i requires 0 <= i < k => Forward(i, t, f[i]))
      && forall i :: 0 <= i < |siso| ==>
           if i < k then siso[i].inputs == old(siso[i].inputs) + [(t, f[i])]
           else siso[i].state == old(siso[i].state) && siso[i].inputs == old(siso[i].inputs)
    }

    /** `siso[i].update(t, u[i])` for i in range(n): an IndexError after the last entry of a short u. */
    method FanOut(t: real, f: seq<real>) returns (r: Outcome<MimoError>)
      requires Valid()
      modifies this, siso
      ensures Valid() && FannedOut(t, f)
      ensures r == if n <= |f| then Pass else Fail(IndexError)
    {
      for i := 0 to n
        invariant Valid()
        invariant i <= |f|
        invariant currT == old(currT)
        invariant forwarded == old(forwarded) + seq(i, j requires 0 <= j < i => Forward(j, t, f[j]))
        invariant forall j :: 0 <= j < n ==>
          if j < i then siso[j].inputs == old(siso[j].inputs) + [(t, f[j])]
          else siso[j].state == old(siso[j].state) && siso[j].inputs == old(siso[j].inputs)
      {
        if |f| <= i {
          return Fail(IndexError);
        }
        siso[i].Update(t, f[i]);
        forwarded := forwarded + [Forward(i, t, f[i])];
      }
      return Pass;
    }

    /** `_c_update(t, u)`: fill u to one entry per channel, then forward entry i to channel i. */
    method ContinuousUpdate(t: real, u: ConfigValue) returns (r: Outcome<MimoError>)
      requires Valid()
      modifies this, siso
      ensures Valid()
      ensures u.Other? ==> r == Fail(NameError) && Untouched()
      ensures !u.Other? ==> var f := FillConfigList(u, n).value;
                            FannedOut(t, f) && r == if n <= |f| then Pass else Fail(IndexError)
    {
      var f := FillConfigList(u, n);
      if f.Err? {
        return Fail(f.error);
      }
      r := FanOut(t, f.value);
    }

    /** `_d_update(t, u)`: as the continuous update, after asserting Ts > 0. */
    method DiscreteUpdate(t: real, u: ConfigValue) returns (r: Outcome<MimoError>)
      requires Valid()
      modifies this, siso
      ensures Valid()
      ensures ts <= 0.0 ==> r == Fail(AssertionError) && Untouched()
      ensures 0.0 < ts && u.Other? ==> r == Fail(NameError) && Untouched()
      ensures 0.0 < ts && !u.Other? ==> var f := FillConfigList(u, n).value;
                                        FannedOut(t, f) && r == if n <= |f| then Pass else Fail(IndexError)
    {
      if ts <= 0.0 {
        return Fail(AssertionError);
      }
      var f := FillConfigList(u, n);
      if f.Err? {
        return Fail(f.error);
      }
      r := FanOut(t, f.value);
    }

    /** `update(t, u)`: the discrete path when Ts > 0, the continuous path otherwise; the AssertionError cannot arise. */
    method Update(t: real, u: ConfigValue) returns (r: Outcome<MimoError>)
      requires Valid()
      modifies this, siso
      ensures Valid()
      ensures r != Fail(AssertionError)
      ensures u.Other? ==> r == Fail(NameError) && Untouched()
      ensures !u.Other? ==> var f := FillConfigList(u, n).value;
                            FannedOut(t, f) && r == if n <= |f| then Pass else Fail(IndexError)
    {
      if 0.0 < ts {
        r := DiscreteUpdate(t, u);
      } else {
        r := ContinuousUpdate(t, u);
      }
    }
  }

  /**
   * The list-input defect of `interleave` and `deinterleave`: the code as
   * written and the corrected `Mimo.Interleave` and `Mimo.Deinterleave`
   * disagree exactly when the input is a plain list and there is at least one
   * channel, and then the corrected reading succeeds whenever the list has
   * 2n entries. The interleave outcome compared is the one `Mimo.Interleave`
   * ensures.
   */
  lemma {:induction false} ListInputDefect(m: Mimo, v: Vector)
    ensures InterleaveAsWritten(m.n, v) != (if |v.items| < 2 * m.n then Err(IndexError) else Ok(Interleaved(m.n, v.items)))
            <==> v.PyList? && 0 < m.n
    ensures DeinterleaveAsWritten(m.n, v) != m.Deinterleave(v) <==> v.PyList? && 0 < m.n
    ensures v.PyList? && 0 < m.n && 2 * m.n <= |v.items| ==>
              && InterleaveAsWritten(m.n, v) == Err(UnboundLocalError)
              && DeinterleaveAsWritten(m.n, v) == Err(NameError)
              && m.Deinterleave(v) == Ok(Deinterleaved(m.n, v.items))
  {
  }

  /** On one channel the list [1.0, 2.0] fails as written while the array [1.0, 2.0] passes; on none, a list passes. */
  lemma {:induction false} OneChannelListInput()
    ensures InterleaveAsWritten(1, PyList([1.0, 2.0])) == Err(UnboundLocalError)
    ensures InterleaveAsWritten(1, NdArray([1.0, 2.0])) == Ok([1.0, 2.0])
    ensures Interleaved(1, [1.0, 2.0]) == [1.0, 2.0]
    ensures InterleaveAsWritten(0, PyList([])) == Ok([])
  {
    assert Interleaved(1, [1.0, 2.0]) == [1.0, 2.0];
  }
}

/**
 * `convolve_cyc`: a filter applied to a signal that wraps around, built by
 * padding the signal with its own ends and taking numpy's 'valid'
 * convolution. Python's slice rules (a negative start counts from the end,
 * out-of-range bounds are clamped, and `-0` is `0`) are written out.
 */
module CyclicFilter {
  import opened Wrappers

  /** `np.convolve` refuses an empty argument with a ValueError. */
  datatype ConvError = EmptyArray

  /** `x[start:]`. */
  function SliceFrom<T>(x: seq<T>, start: int): (r: seq<T>)
    ensures |r| == if start < 0 then (if -start > |x| then |x| else -start) else (if start > |x| then 0 else |x| - start)
  {
    var s := if start < 0 then (if -start > |x| then 0 else |x| + start) else (if start > |x| then |x| else start);
    x[s..]
  }

  /** `x[:stop]`. */
  function SliceTo<T>(x: seq<T>, stop: int): (r: seq<T>)
    ensures |r| == if stop < 0 then (if -stop > |x| then 0 else |x| + stop) else (if stop > |x| then |x| else stop)
  {
    var s := if stop < 0 then (if -stop > |x| then 0 else |x| + stop) else (if stop > |x| then |x| else stop);
    x[..s]
  }

  /** Lines 169-177: how many samples go before and after the signal. */
  function Pads(len: nat, left: bool): (int, int)
  {
    if len % 2 == 1 then ((len - 1) / 2, (len - 1) / 2)
    else if left then (len / 2, len / 2 - 1)
    else (len / 2 - 1, len / 2)
  }

  /**
   * A non-empty filter is padded by len - 1 samples in all: evenly when its
   * length is odd, with the extra one on the left or right side per `left`.
   */
  lemma PadsSplit(len: nat, left: bool)
    requires len >= 1
    ensures var (l, r) := Pads(len, left);
      && 0 <= l && 0 <= r && l + r == len - 1
      && (len % 2 == 1 ==> l == r)
      && (len % 2 == 0 && left ==> l == r + 1)
      && (len % 2 == 0 && !left ==> r == l + 1)
  {
  }

  /** sum over i < m of v[i] * a[k + |v| - 1 - i]: one output of a long a convolved with v. */
  function Tap(a: seq<real>, v: seq<real>, k: nat, m: nat): real
    requires m <= |v| && k + |v| <= |a|
  {
    if m == 0 then 0.0 else Tap(a, v, k, m - 1) + v[m - 1] * a[k + |v| - m]
  }

  /** `np.convolve(a, v, mode = 'valid')`; numpy swaps the arguments when v is the longer. */
  function ConvolveValid(a: seq<real>, v: seq<real>): (r: Result<seq<real>, ConvError>)
    ensures r.Success? <==> |a| > 0 && |v| > 0
    ensures r.Success? && |v| <= |a| ==>
      |r.value| == |a| - |v| + 1 && forall k :: 0 <= k < |r.value| ==> r.value[k] == Tap(a, v, k, |v|)
    ensures r.Success? && |v| > |a| ==> |r.value| == |v| - |a| + 1
  {
    if |a| == 0 || |v| == 0 then Failure(EmptyArray)
    else if |v| <= |a| then Success(seq(|a| - |v| + 1, k requires 0 <= k <= |a| - |v| => Tap(a, v, k, |v|)))
    else Success(seq(|v| - |a| + 1, k requires 0 <= k <= |v| - |a| => Tap(v, a, k, |a|)))
  }

  /** Lines 168-182 as written: `x[-pad_l:]` is all of x when pad_l is 0. */
  function ConvolveCycAsWritten(x: seq<real>, filt: seq<real>, left: bool): Result<seq<real>, ConvError>
  {
    var (l, r) := Pads(|filt|, left);
    ConvolveValid(SliceFrom(x, -l) + x + SliceTo(x, r), filt)
  }

  /** The padded signal with no left padding when pad_l is 0. */
  function Padded(x: seq<real>, l: int, r: int): seq<real>
  {
    (if l == 0 then [] else SliceFrom(x, -l)) + x + SliceTo(x, r)
  }

  /** Lines 168-182 with the left padding empty when pad_l is 0. */
  function ConvolveCyc(x: seq<real>, filt: seq<real>, left: bool): Result<seq<real>, ConvError>
  {
    var (l, r) := Pads(|filt|, left);
    ConvolveValid(Padded(x, l, r), filt)
  }

  /** sum over i < m of filt[i] * x[(k + shift - i) mod |x|]. */
  function CyclicTap(x: seq<real>, filt: seq<real>, k: int, shift: int, m: nat): real
    requires |x| > 0 && m <= |filt|
  {
    if m == 0 then 0.0 else CyclicTap(x, filt, k, shift, m - 1) + filt[m - 1] * x[(k + shift - (m - 1)) % |x|]
  }

  /** The cyclic convolution of x with filt, the filter's origin shifted by `shift` samples. */
  function CyclicConvolution(x: seq<real>, filt: seq<real>, shift: int): (r: seq<real>)
    requires |x| > 0
    ensures |r| == |x| && forall k :: 0 <= k < |x| ==> r[k] == CyclicTap(x, filt, k, shift, |filt|)
  {
    seq(|x|, k requires 0 <= k < |x| => CyclicTap(x, filt, k, shift, |filt|))
  }

  /** The two agree whenever the left padding is not empty. */
  lemma AsWrittenAgrees(x: seq<real>, filt: seq<real>, left: bool)
    requires Pads(|filt|, left).0 != 0
    ensures ConvolveCycAsWritten(x, filt, left) == ConvolveCyc(x, filt, left)
  {
  }

  /**
   * Whenever pad_l is 0 (a filter of length 1, or of length 2 padded on the
   * right), `convolve_cyc` as written filters the signal twice over and
   * returns 2n samples for a signal of n.
   */
  lemma AsWrittenDoubles(x: seq<real>, filt: seq<real>, left: bool)
    requires |x| > 0 && |filt| >= 1 && Pads(|filt|, left).0 == 0
    ensures ConvolveCycAsWritten(x, filt, left).Success?
    ensures |ConvolveCycAsWritten(x, filt, left).value| == 2 * |x|
  {
    PadsSplit(|filt|, left);
    var (l, r) := Pads(|filt|, left);
    assert |filt| == 1 || (|filt| == 2 && !left);
    assert |SliceFrom(x, -l)| == |x|;
    assert |SliceTo(x, r)| == r == |filt| - 1;
  }

  /** The smallest case: [1, 2] filtered by [1] comes back as [1, 2, 1, 2]. */
  lemma AsWrittenExample()
    ensures ConvolveCycAsWritten([1.0, 2.0], [1.0], true) == Success([1.0, 2.0, 1.0, 2.0])
  {
    var x := [1.0, 2.0];
    assert Pads(1, true) == (0, 0);
    assert SliceFrom(x, 0) == x && SliceTo(x, 0) == [];
    var p := [1.0, 2.0, 1.0, 2.0];
    assert SliceFrom(x, -0) + x + SliceTo(x, 0) == p;
    var r := ConvolveValid(p, [1.0]).value;
    assert |r| == 4;
    assert r[0] == Tap(p, [1.0], 0, 1) == 1.0;
    assert r[1] == Tap(p, [1.0], 1, 1) == 2.0;
    assert r[2] == Tap(p, [1.0], 2, 1) == 1.0;
    assert r[3] == Tap(p, [1.0], 3, 1) == 2.0;
    assert r == [1.0, 2.0, 1.0, 2.0];
  }

  /** For paddings no longer than the signal, the padded signal is its last l samples, itself and its first r. */
  lemma PaddedParts(x: seq<real>, l: nat, r: nat)
    requires l <= |x| && r <= |x|
    ensures Padded(x, l, r) == x[|x| - l..] + x + x[..r]
  {
    if l == 0 {
      assert x[|x|..] == [];
    }
  }

  /** A padded sample is the signal sample its position wraps onto. */
  lemma PaddedWraps(x: seq<real>, l: nat, r: nat)
    requires 0 < |x| && l <= |x| && r <= |x|
    ensures |Padded(x, l, r)| == l + |x| + r
    ensures forall t :: 0 <= t < l + |x| + r ==> Padded(x, l, r)[t] == x[(t - l) % |x|]
  {
    PaddedParts(x, l, r);
    var p := x[|x| - l..] + x + x[..r];
    forall t | 0 <= t < l + |x| + r ensures p[t] == x[(t - l) % |x|] {
      PartsAt(x, l, r, t);
    }
  }

  lemma PartsAt(x: seq<real>, l: nat, r: nat, t: nat)
    requires 0 < |x| && l <= |x| && r <= |x| && t < l + |x| + r
    ensures (x[|x| - l..] + x + x[..r])[t] == x[(t - l) % |x|]
  {
    var n := |x|;
    if t < l {
      ModShift(t - l, n, 1);
    } else if t < l + n {
      ModShift(t - l, n, 0);
    } else {
      ModShift(t - l, n, -1);
    }
  }

  lemma ModShift(a: int, n: int, c: int)
    requires n > 0 && 0 <= a + c * n < n
    ensures a % n == a + c * n
  {
    var rem := a + c * n;
    var d := -c - a / n;
    assert a == (a / n) * n + a % n;
    assert d * n == a % n - rem;
    if d > 0 {
      MulAtLeast(d, n);
    } else if d < 0 {
      MulAtLeast(-d, n);
    }
  }

  lemma MulAtLeast(d: int, n: int)
    requires d >= 1 && n > 0
    ensures d * n >= n
  {
  }

  /** Filter taps read off a signal padded by wrapping around are cyclic taps of the signal itself. */
  lemma {:induction false} TapIsCyclic(x: seq<real>, filt: seq<real>, p: seq<real>, l: nat, r: nat, k: nat, m: nat)
    requires 0 < |x| && l + r == |filt| - 1 && k < |x| && m <= |filt| && |p| == |x| + |filt| - 1
    requires forall t :: 0 <= t < |p| ==> p[t] == x[(t - l) % |x|]
    ensures Tap(p, filt, k, m) == CyclicTap(x, filt, k, r, m)
  {
    if m > 0 {
      TapIsCyclic(x, filt, p, l, r, k, m - 1);
      var t := k + |filt| - m;
      assert t - l == k + r - (m - 1);
      assert p[t] == x[(k + r - (m - 1)) % |x|];
    }
  }

  /**
   * When neither padding is longer than the signal, `convolve_cyc` is the
   * cyclic convolution: n samples, output k being the sum over i of
   * filt[i] * x[(k + pad_r - i) mod n].
   */
  lemma ConvolveCycIsCyclic(x: seq<real>, filt: seq<real>, left: bool)
    requires |x| > 0 && |filt| > 0
    requires Pads(|filt|, left).0 <= |x| && Pads(|filt|, left).1 <= |x|
    ensures ConvolveCyc(x, filt, left) == Success(CyclicConvolution(x, filt, Pads(|filt|, left).1))
  {
    PadsSplit(|filt|, left);
    var (l, r) := Pads(|filt|, left);
    var p := Padded(x, l, r);
    PaddedWraps(x, l, r);
    var out := ConvolveValid(p, filt).value;
    forall k | 0 <= k < |x| ensures out[k] == CyclicConvolution(x, filt, r)[k] {
      TapIsCyclic(x, filt, p, l, r, k, |filt|);
    }
    assert out == CyclicConvolution(x, filt, r);
  }

  /**
   * An empty filter or an empty signal is refused, as `np.convolve` refuses
   * it, by the corrected filter and by the one as written alike.
   */
  lemma ConvolveCycFails(x: seq<real>, filt: seq<real>, left: bool)
    ensures ConvolveCyc(x, filt, left).Failure? <==> |filt| == 0 || |x| == 0
    ensures ConvolveCycAsWritten(x, filt, left).Failure? <==> |filt| == 0 || |x| == 0
  {
    var (l, r) := Pads(|filt|, left);
    if |x| > 0 {
      assert |Padded(x, l, r)| >= |x|;
      assert |SliceFrom(x, -l) + x + SliceTo(x, r)| >= |x|;
    } else {
      assert Padded(x, l, r) == [];
      assert SliceFrom(x, -l) + x + SliceTo(x, r) == [];
    }
  }
}

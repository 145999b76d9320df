/** First-order recursive (IIR) filter with numerator (C,) and
    denominator (1, -(1 - C)) and an explicit initial state: the only
    behaviour of the signal-processing library's linear filter that the
    recursive statistics rely on. */
module Lfilter {
  import opened Rhos

  /** One step of the difference equation: the new output from the new
      input and the previous output. */
  function Step(C: real, input: real, previous: real): real
  {
    C * input + (1.0 - C) * previous
  }

  /** A step from a zero previous output is C times the input. */
  lemma StepFromZero(C: real, input: real, y: real)
    requires y == C * input
    ensures Step(C, input, 0.0) == y
  {
  }

  /** The state zi = (1 - C)·previous that makes the first output one step
      from the given previous output. */
  function Carried(C: real, previous: real): real
  {
    (1.0 - C) * previous
  }

  /** y[0] = C·x[0] + zi and y[k] = C·x[k] + (1 - C)·y[k - 1].
      Defined by extending the output one sample at a time; the ensures
      give the difference equation pointwise. */
  function Filter(C: real, x: seq<real>, zi: real): (y: seq<real>)
    ensures |y| == |x|
    ensures |x| > 0 ==> y[0] == C * x[0] + zi
    ensures forall k {:trigger x[k]} :: 0 < k < |x| ==> y[k] == Step(C, x[k], y[k - 1])
    decreases |x|
  {
    if |x| == 0 then []
    else
      var n := |x| - 1;
      var p := Filter(C, x[..n], zi);
      var y := p + [if n == 0 then C * x[n] + zi else Step(C, x[n], p[n - 1])];
      assert forall k :: 0 <= k < n ==> x[..n][k] == x[k];
      assert forall k :: 0 <= k < n ==> y[k] == p[k];
      y
  }

  /** From the state carried over from a previous output p, every output
      sample is one step from the one before it, p standing before the
      first. */
  lemma FilterCarried(C: real, x: seq<real>, p: real, k: nat)
    requires k < |x|
    ensures Filter(C, x, Carried(C, p))[k] == Step(C, x[k], if k == 0 then p else Filter(C, x, Carried(C, p))[k - 1])
  {
    var y := Filter(C, x, Carried(C, p));
    if k == 0 {
      assert y[0] == C * x[0] + Carried(C, p);
      assert Step(C, x[0], p) == C * x[0] + Carried(C, p);
    } else {
      assert y[k] == Step(C, x[k], y[k - 1]);
    }
  }

  /** From a zero state, every output sample is one step from the
      previous one, the sample before the first counting as zero. */
  lemma FilterFromRest(C: real, x: seq<real>, k: nat)
    requires k < |x|
    ensures Filter(C, x, 0.0)[k] == Step(C, x[k], if k == 0 then 0.0 else Filter(C, x, 0.0)[k - 1])
  {
    var y := Filter(C, x, 0.0);
    if k > 0 {
      assert y[k] == Step(C, x[k], y[k - 1]);
    }
  }

  /** A step from a non-negative input and a non-negative previous value
      stays non-negative; it is positive when the previous value is
      positive and some of it is kept (C < 1). It is zero only when both
      contributions vanish. */
  lemma StepSign(C: real, input: real, previous: real)
    requires 0.0 <= C <= 1.0 && input >= 0.0 && previous >= 0.0
    ensures Step(C, input, previous) >= 0.0
    ensures C < 1.0 && previous > 0.0 ==> Step(C, input, previous) > 0.0
    ensures Step(C, input, previous) == 0.0 && C > 0.0 ==> input == 0.0
  {
    ProductNonnegative(C, input);
    ProductNonnegative(1.0 - C, previous);
    if C < 1.0 && previous > 0.0 {
      ProductPositive(1.0 - C, previous);
    }
    if C > 0.0 && input > 0.0 {
      ProductPositive(C, input);
    }
  }

  /** The difference equation determines the output: any sequence that
      satisfies it from the same state is the filter output. */
  lemma {:induction false} FilterUnique(C: real, x: seq<real>, zi: real, y: seq<real>)
    requires |y| == |x|
    requires |x| > 0 ==> y[0] == C * x[0] + zi
    requires forall k :: 0 < k < |x| ==> y[k] == Step(C, x[k], y[k - 1])
    ensures y == Filter(C, x, zi)
  {
    var f := Filter(C, x, zi);
    forall k | 0 <= k < |x| ensures y[k] == f[k] {
      FilterUniqueAt(C, x, zi, y, k);
    }
  }

  lemma {:induction false} FilterUniqueAt(C: real, x: seq<real>, zi: real, y: seq<real>, k: nat)
    requires k < |y| == |x|
    requires |x| > 0 ==> y[0] == C * x[0] + zi
    requires forall j :: 0 < j < |x| ==> y[j] == Step(C, x[j], y[j - 1])
    ensures y[k] == Filter(C, x, zi)[k]
  {
    if k > 0 {
      FilterUniqueAt(C, x, zi, y, k - 1);
      // Names x[k], so Filter's ensures, whose trigger is x[k], fires at k.
      assert x[k] == x[k];
    }
  }

  /** With a decay constant in [0, 1], a non-negative input and a
      non-negative state give a non-negative output. */
  lemma FilterNonnegative(C: real, x: seq<real>, zi: real)
    requires 0.0 <= C <= 1.0 && zi >= 0.0
    requires forall j :: 0 <= j < |x| ==> x[j] >= 0.0
    ensures forall k :: 0 <= k < |x| ==> Filter(C, x, zi)[k] >= 0.0
  {
    var y := Filter(C, x, zi);
    for k := 0 to |x|
      invariant forall j :: 0 <= j < k ==> y[j] >= 0.0
    {
      ProductNonnegative(C, x[k]);
      if k > 0 {
        StepSign(C, x[k], y[k - 1]);
      }
    }
  }

  /** With a decay constant in [0, 1), a non-negative input and a positive
      state keep the output strictly positive. */
  lemma FilterPositive(C: real, x: seq<real>, zi: real)
    requires 0.0 <= C < 1.0 && zi > 0.0
    requires forall j :: 0 <= j < |x| ==> x[j] >= 0.0
    ensures forall k :: 0 <= k < |x| ==> Filter(C, x, zi)[k] > 0.0
  {
    var y := Filter(C, x, zi);
    for k := 0 to |x|
      invariant forall j :: 0 <= j < k ==> y[j] > 0.0
    {
      ProductNonnegative(C, x[k]);
      if k > 0 {
        StepSign(C, x[k], y[k - 1]);
      }
    }
  }

  /** A zero input from a zero state stays zero. */
  lemma FilterOfZero(C: real, x: seq<real>)
    requires forall j :: 0 <= j < |x| ==> x[j] == 0.0
    ensures forall k :: 0 <= k < |x| ==> Filter(C, x, 0.0)[k] == 0.0
  {
    var y := Filter(C, x, 0.0);
    for k := 0 to |x|
      invariant forall j :: 0 <= j < k ==> y[j] == 0.0
    {
      assert x[k] == 0.0;
    }
  }
}

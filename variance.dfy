/** Recursive variance in its two forms: the sample loops of
    rec_variance_py and the two filter calls of rec_variance.
    Definition 0 centres sample i on the previous mean μ[i - 1],
    definition 1 on the mean just updated, μ[i]. */
module Variance {
  import opened Rhos
  import opened Lfilter
  import opened Mean

  /** The input of the second filter in rec_variance: squared deviations
      from the previous mean (definition 0, where sample 0 is squared as
      it is) or from the current mean (definition 1). */
  function Deviations(signal: seq<real>, mean: seq<real>, definition: int): (dev: seq<real>)
    requires |mean| == |signal|
    ensures |dev| == |signal|
    ensures forall k :: 0 <= k < |signal| ==> dev[k] >= 0.0
  {
    if definition == 0 then
      seq(|signal|, k requires 0 <= k < |signal| =>
        if k == 0 then Sq(signal[0]) else Sq(signal[k] - mean[k - 1]))
    else
      seq(|signal|, k requires 0 <= k < |signal| => Sq(signal[k] - mean[k]))
  }

  /** The mean that sample k is centred on: μ[k - 1] (zero at k = 0) for
      definition 0, μ[k] for definition 1. */
  function CentringMean(mean: seq<real>, k: nat, definition: int): real
    requires k < |mean|
  {
    if definition == 0 then (if k == 0 then 0.0 else mean[k - 1]) else mean[k]
  }

  /** rec_variance: filter the signal into the mean, then filter the
      squared deviations into the variance, both from a zero state. */
  function FastVariance(signal: seq<real>, C: real, definition: int): (r: Result<seq<real>>)
    ensures !ValidDecay(C) ==> r == Err(DecayOutOfRange)
    ensures ValidDecay(C) && !ValidDefinition(definition) ==> r == Err(UnknownDefinition)
    ensures r.Ok? <==> ValidDecay(C) && ValidDefinition(definition)
    ensures r.Ok? ==> |r.value| == |signal|
  {
    if !ValidDecay(C) then Err(DecayOutOfRange)
    else if !ValidDefinition(definition) then Err(UnknownDefinition)
    else
      var mean := Filter(C, signal, 0.0);
      Ok(Filter(C, Deviations(signal, mean, definition), 0.0))
  }

  /** The fast variance satisfies the documented recurrence
      σ²[i] = C·(signal[i] - μ[j])² + (1 - C)·σ²[i - 1] with j = i - 1 for
      definition 0 and j = i for definition 1, where μ is the recursive
      mean and μ[-1] and σ²[-1] are zero. */
  lemma FastVarianceRecurrence(signal: seq<real>, C: real, definition: int, k: nat)
    requires FastVariance(signal, C, definition).Ok?
    requires k < |signal|
    ensures FastVariance(signal, C, definition).value[k] ==
              Step(C, Sq(signal[k] - CentringMean(FastMean(signal, C).value, k, definition)),
                   if k == 0 then 0.0 else FastVariance(signal, C, definition).value[k - 1])
  {
    var mean := FastMean(signal, C).value;
    var dev := Deviations(signal, mean, definition);
    assert FastVariance(signal, C, definition).value == Filter(C, dev, 0.0);
    DeviationAt(signal, mean, definition, k);
    FilterFromRest(C, dev, k);
  }

  lemma DeviationAt(signal: seq<real>, mean: seq<real>, definition: int, k: nat)
    requires |mean| == |signal| && k < |signal|
    ensures Deviations(signal, mean, definition)[k] == Sq(signal[k] - CentringMean(mean, k, definition))
  {
    if definition == 0 && k == 0 {
      assert signal[0] - 0.0 == signal[0];
    }
  }

  /** rec_variance_py: one loop per definition over zero-initialised mean
      and variance arrays, each step reading slot i - 1 with Python's
      wraparound. For definition 1, and for definition 0 on signals of any
      length but 1, this is the fast form. For definition 0 on a single
      sample the loop reads mean[-1] after writing mean[0], so it centres
      the sample on the updated mean C·signal[0]. */
  method ReferenceVariance(signal: seq<real>, C: real, definition: int) returns (r: Result<seq<real>>)
    ensures !(ValidDecay(C) && definition == 0 && |signal| == 1) ==> r == FastVariance(signal, C, definition)
    ensures ValidDecay(C) && definition == 0 && |signal| == 1 ==>
              r == Ok([C * Sq(signal[0] - C * signal[0])])
  {
    if !(0.0 <= C <= 1.0) {
      return Err(DecayOutOfRange);
    }
    if !(definition == 0 || definition == 1) {
      return Err(UnknownDefinition);
    }
    ghost var m := FastMean(signal, C).value;
    ghost var v := FastVariance(signal, C, definition).value;
    FastVarianceSteps(signal, C, definition);
    var variance;
    if definition == 0 {
      variance := PriorVarianceLoop(signal, C, m, v);
    } else {
      variance := CurrentVarianceLoop(signal, C, m, v);
    }
    return Ok(variance);
  }

  /** The recurrences the fast mean m and variance v satisfy. */
  ghost predicate VarianceSteps(signal: seq<real>, C: real, definition: int, m: seq<real>, v: seq<real>)
  {
    |m| == |signal| && |v| == |signal| &&
    (forall k {:trigger signal[k]} :: 0 <= k < |signal| ==>
      m[k] == Step(C, signal[k], if k == 0 then 0.0 else m[k - 1])) &&
    (forall k {:trigger signal[k]} :: 0 <= k < |signal| ==>
      v[k] == Step(C, Sq(signal[k] - CentringMean(m, k, definition)), if k == 0 then 0.0 else v[k - 1]))
  }

  lemma FastVarianceSteps(signal: seq<real>, C: real, definition: int)
    requires ValidDecay(C) && ValidDefinition(definition)
    ensures VarianceSteps(signal, C, definition, FastMean(signal, C).value, FastVariance(signal, C, definition).value)
  {
    forall k | 0 <= k < |signal|
      ensures FastMean(signal, C).value[k] == Step(C, signal[k], if k == 0 then 0.0 else FastMean(signal, C).value[k - 1])
    {
      FilterFromRest(C, signal, k);
    }
    forall k | 0 <= k < |signal|
      ensures FastVariance(signal, C, definition).value[k] ==
                Step(C, Sq(signal[k] - CentringMean(FastMean(signal, C).value, k, definition)),
                     if k == 0 then 0.0 else FastVariance(signal, C, definition).value[k - 1])
    {
      FastVarianceRecurrence(signal, C, definition, k);
    }
  }

  /** The definition-0 loop of rec_variance_py, for the sequences m and v
      of the recurrences. */
  method PriorVarianceLoop(signal: seq<real>, C: real, ghost m: seq<real>, ghost v: seq<real>) returns (r: seq<real>)
    requires VarianceSteps(signal, C, 0, m, v)
    ensures |signal| != 1 ==> r == v
    ensures |signal| == 1 ==> r == [C * Sq(signal[0] - C * signal[0])]
  {
    var n := |signal|;
    var mean := new real[n](_ => 0.0);
    var variance := new real[n](_ => 0.0);
    ghost var target := if n == 1 then [C * Sq(signal[0] - C * signal[0])] else v;
    for i := 0 to n
      invariant forall k :: 0 <= k < i ==> mean[k] == m[k] && variance[k] == target[k]
      invariant i == 0 && n > 0 ==> mean[n - 1] == 0.0 && variance[n - 1] == 0.0
    {
      StepsAt(signal, C, 0, m, v, i);
      var previous := mean[PyIndex(i - 1, n)];
      mean[i] := Step(C, signal[i], previous);
      var centre := mean[PyIndex(i - 1, n)];
      if n == 1 {
        assert centre == C * signal[0];
      } else {
        assert centre == CentringMean(m, i, 0);
      }
      variance[i] := Step(C, Sq(signal[i] - centre), variance[PyIndex(i - 1, n)]);
    }
    return variance[..];
  }

  /** The definition-1 loop of rec_variance_py. */
  method CurrentVarianceLoop(signal: seq<real>, C: real, ghost m: seq<real>, ghost v: seq<real>) returns (r: seq<real>)
    requires VarianceSteps(signal, C, 1, m, v)
    ensures r == v
  {
    var n := |signal|;
    var mean := new real[n](_ => 0.0);
    var variance := new real[n](_ => 0.0);
    for i := 0 to n
      invariant forall k :: 0 <= k < i ==> mean[k] == m[k] && variance[k] == v[k]
      invariant i == 0 && n > 0 ==> mean[n - 1] == 0.0 && variance[n - 1] == 0.0
    {
      StepsAt(signal, C, 1, m, v, i);
      var previous := mean[PyIndex(i - 1, n)];
      mean[i] := Step(C, signal[i], previous);
      variance[i] := Step(C, Sq(signal[i] - mean[i]), variance[PyIndex(i - 1, n)]);
    }
    return variance[..];
  }

  lemma StepsAt(signal: seq<real>, C: real, definition: int, m: seq<real>, v: seq<real>, i: nat)
    requires VarianceSteps(signal, C, definition, m, v) && i < |signal|
    ensures m[i] == Step(C, signal[i], if i == 0 then 0.0 else m[i - 1])
    ensures v[i] == Step(C, Sq(signal[i] - CentringMean(m, i, definition)), if i == 0 then 0.0 else v[i - 1])
  {
    // Names signal[i], so the quantifier of VarianceSteps fires at i.
    ghost var si := signal[i];
  }

  /** Every variance is non-negative: each step adds C times a square to
      (1 - C) times the previous, non-negative, value. */
  lemma VarianceNonnegative(signal: seq<real>, C: real, definition: int)
    requires FastVariance(signal, C, definition).Ok?
    ensures forall k :: 0 <= k < |signal| ==> FastVariance(signal, C, definition).value[k] >= 0.0
  {
    FilterNonnegative(C, Deviations(signal, Filter(C, signal, 0.0), definition), 0.0);
  }

  /** The variance of an all-zero signal is all zero. */
  lemma VarianceOfZeroSignal(signal: seq<real>, C: real, definition: int)
    requires ValidDecay(C) && ValidDefinition(definition)
    requires forall k :: 0 <= k < |signal| ==> signal[k] == 0.0
    ensures forall k :: 0 <= k < |signal| ==> FastVariance(signal, C, definition).value[k] == 0.0
  {
    var mean := Filter(C, signal, 0.0);
    FilterOfZero(C, signal);
    var dev := Deviations(signal, mean, definition);
    assert forall k :: 0 <= k < |signal| ==> dev[k] == Sq(0.0);
    FilterOfZero(C, dev);
  }

  /** On a single sample the definition-0 loop, which centres on the
      updated mean, agrees with the documented recurrence only when C is
      zero or the sample is zero. */
  lemma PriorSingleSample(x: real, C: real)
    requires ValidDecay(C)
    ensures FastVariance([x], C, 0).value == [C * Sq(x)]
    ensures C * Sq(x - C * x) == FastVariance([x], C, 0).value[0] <==> C == 0.0 || x == 0.0
  {
    var r := FastVariance([x], C, 0).value;
    var w := C * Sq(x);
    FastVarianceRecurrence([x], C, 0, 0);
    assert Sq(x - CentringMean(FastMean([x], C).value, 0, 0)) == Sq(x);
    assert r[0] == Step(C, Sq(x), 0.0);
    StepFromZero(C, Sq(x), w);
    assert |r| == 1 && r[0] == w;
    assert r == [w];
    CentredOnUpdatedMean(x, C, w);
  }

  /** Centring a sample on C times itself shrinks C times its square,
      unless C or the sample is zero. */
  lemma CentredOnUpdatedMean(x: real, C: real, w: real)
    requires ValidDecay(C) && w == C * Sq(x)
    ensures C * Sq(x - C * x) == w <==> C == 0.0 || x == 0.0
  {
    if C > 0.0 && x != 0.0 {
      CentringShrinks(x, C, w);
    } else if C == 0.0 {
      assert C * Sq(x - C * x) == 0.0;
    } else {
      assert x - C * x == 0.0;
    }
  }

  lemma CentringShrinks(x: real, C: real, w: real)
    requires 0.0 < C <= 1.0 && x != 0.0 && w == C * Sq(x)
    ensures C * Sq(x - C * x) < w
  {
    var d := Sq(x - C * x);
    SquareOfMultiple(1.0 - C, x, x - C * x);
    Shrinks(C, Sq(x), d);
  }

  /** (u·x)² == u²·x². */
  lemma SquareOfMultiple(u: real, x: real, y: real)
    requires y == u * x
    ensures Sq(y) == (u * u) * Sq(x)
  {
    SqIsProduct(y);
    SqIsProduct(x);
    assert y * y == (u * u) * (x * x);
  }

  /** C·d < C·a when d = (1 - C)²·a, for C in (0, 1] and a > 0. */
  lemma Shrinks(C: real, a: real, d: real)
    requires 0.0 < C <= 1.0 && a > 0.0 && d == (1.0 - C) * (1.0 - C) * a
    ensures C * d < C * a
  {
    var u := 1.0 - C;
    var q := u * u;
    ProductNonnegative(u, 1.0 - u);
    assert q <= u < 1.0;
    ProductPositive(1.0 - q, a);
    ProductPositive(C, a - q * a);
  }
}

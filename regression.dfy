/** The regression vectors of the unit tests, exactly: an impulse at index 2
    in twenty zeros, with C = 1/2. The window is int(1/C) = 2 samples, both
    zero, so the burn-in ends on mean 0 and variance 1/4. */
module Regression {
  import opened Rhos
  import opened Lfilter
  import opened Mean
  import opened Variance
  import opened Hos

  /** The test signal: twenty zeros but a one at index 2. */
  predicate IsImpulse(s: seq<real>)
  {
    |s| == 20 && forall k :: 0 <= k < 20 ==> s[k] == if k == 2 then 1.0 else 0.0
  }

  /** The first four samples of the filter from the state zi, each one step
      from the one before. */
  lemma FirstSteps(C: real, x: seq<real>, zi: real)
    requires |x| >= 4
    ensures Filter(C, x, zi)[0] == C * x[0] + zi
    ensures Filter(C, x, zi)[1] == Step(C, x[1], Filter(C, x, zi)[0])
    ensures Filter(C, x, zi)[2] == Step(C, x[2], Filter(C, x, zi)[1])
    ensures Filter(C, x, zi)[3] == Step(C, x[3], Filter(C, x, zi)[2])
  {
    var y := Filter(C, x, zi);
    // Names x[1], x[2] and x[3], so Filter's quantified ensures fire at those samples.
    assert x[1] == x[1] && x[2] == x[2] && x[3] == x[3];
  }

  /** The recursive mean of the impulse: 0, 0, 1/2, 1/4. */
  lemma ImpulseMean(s: seq<real>)
    requires IsImpulse(s)
    ensures FastMean(s, 0.5).value[..4] == [0.0, 0.0, 0.5, 0.25]
  {
    FirstSteps(0.5, s, 0.0);
    assert FastMean(s, 0.5).value == Filter(0.5, s, 0.0);
  }

  /** The loop form of the mean gives the same vector. */
  method ImpulseReferenceMean(s: seq<real>) returns (r: Result<seq<real>>)
    requires IsImpulse(s)
    ensures r.Ok? && |r.value| == 20 && r.value[..4] == [0.0, 0.0, 0.5, 0.25]
  {
    r := ReferenceMean(s, 0.5);
    ImpulseMean(s);
  }

  /** The recursive variance of the impulse around the previous mean:
      0, 0, 1/2, 3/8. */
  lemma ImpulseVariancePrior(s: seq<real>)
    requires IsImpulse(s)
    ensures FastVariance(s, 0.5, 0).value[..4] == [0.0, 0.0, 0.5, 0.375]
  {
    var m := Filter(0.5, s, 0.0);
    FirstSteps(0.5, s, 0.0);
    var dev := Deviations(s, m, 0);
    assert dev[0] == Sq(0.0) && dev[1] == Sq(0.0);
    assert dev[2] == Sq(1.0) && dev[3] == Sq(-0.5);
    SqIsProduct(1.0);
    SqIsProduct(-0.5);
    FirstSteps(0.5, dev, 0.0);
    assert FastVariance(s, 0.5, 0).value == Filter(0.5, dev, 0.0);
  }

  /** The recursive variance of the impulse around the current mean:
      0, 0, 1/8, 3/32. */
  lemma ImpulseVarianceCurrent(s: seq<real>)
    requires IsImpulse(s)
    ensures FastVariance(s, 0.5, 1).value[..4] == [0.0, 0.0, 0.125, 0.09375]
  {
    var m := Filter(0.5, s, 0.0);
    FirstSteps(0.5, s, 0.0);
    var dev := Deviations(s, m, 1);
    assert dev[0] == Sq(0.0) && dev[1] == Sq(0.0);
    assert dev[2] == Sq(0.5) && dev[3] == Sq(-0.25);
    SqIsProduct(0.5);
    SqIsProduct(-0.25);
    FirstSteps(0.5, dev, 0.0);
    assert FastVariance(s, 0.5, 1).value == Filter(0.5, dev, 0.0);
  }

  /** The burn-in over the two leading zeros: mean 0, variance 1/4. */
  lemma ImpulseBurnIn(s: seq<real>)
    requires IsImpulse(s)
    ensures WindowLength(0.5) == 2
    ensures BurnIn(0.5, s, 2) == Moments(0.0, 0.25)
  {
    assert BurnIn(0.5, s, 1) == Moments(0.0, 0.5);
  }

  /** The filtered variances of centred samples 0, 0, x from the burn-in
      variance 1/4: 1/8, 1/16 and x²/2 + 1/32. */
  lemma VariancesToTwo(e: seq<real>, x: real)
    requires |e| >= 4 && e[0] == 0.0 && e[1] == 0.0 && e[2] == x
    ensures Variances(0.5, e, 0.25)[0] == 0.125
    ensures Variances(0.5, e, 0.25)[1] == 0.0625
    ensures Variances(0.5, e, 0.25)[2] == Step(0.5, Sq(x), 0.0625)
  {
    VariancesAt(0.5, e, 0.25, 0);
    VariancesAt(0.5, e, 0.25, 1);
    VariancesAt(0.5, e, 0.25, 2);
  }

  /** The unsmoothed terms of order 4 for the same samples: 0, 0 and
      x⁴ / v2², v2 being the third variance. */
  lemma TermsToTwo(e: seq<real>, x: real, v2: real)
    requires |e| >= 4 && e[0] == 0.0 && e[1] == 0.0 && e[2] == x
    requires v2 == Step(0.5, Sq(x), 0.0625) && v2 > 0.0
    ensures Terms(0.5, e, 0.25, 4, DefaultVarMin, ReferenceRule)[0] == 0.0
    ensures Terms(0.5, e, 0.25, 4, DefaultVarMin, ReferenceRule)[1] == 0.0
    ensures Terms(0.5, e, 0.25, 4, DefaultVarMin, ReferenceRule)[2] == Pow(x, 4) / Pow(v2, 2)
  {
    ZeroDeviationTerm(0.5, e, 0.25, 4, DefaultVarMin, ReferenceRule, 0);
    ZeroDeviationTerm(0.5, e, 0.25, 4, DefaultVarMin, ReferenceRule, 1);
    ThirdTerm(e, x, v2);
  }

  lemma ThirdTerm(e: seq<real>, x: real, v2: real)
    requires |e| >= 4 && e[0] == 0.0 && e[1] == 0.0 && e[2] == x
    requires v2 == Step(0.5, Sq(x), 0.0625) && v2 > 0.0
    ensures Terms(0.5, e, 0.25, 4, DefaultVarMin, ReferenceRule)[2] == Pow(x, 4) / Pow(v2, 2)
  {
    VariancesToTwo(e, x);
    TermsAt(0.5, e, 0.25, 4, DefaultVarMin, ReferenceRule, 2);
    assert ReferenceClamp(v2, DefaultVarMin) == v2;
  }

  /** The smoothed HOS at index 2: half the third term, the first two
      being zero. */
  lemma HosAtTwo(e: seq<real>, x: real)
    requires |e| >= 4 && e[0] == 0.0 && e[1] == 0.0 && e[2] == x
    ensures Step(0.5, Sq(x), 0.0625) > 0.0
    ensures Smoothed(0.5, e, 0.25, 4, DefaultVarMin, ReferenceRule)[2] ==
              0.5 * (Pow(x, 4) / Pow(Step(0.5, Sq(x), 0.0625), 2))
  {
    var t := Terms(0.5, e, 0.25, 4, DefaultVarMin, ReferenceRule);
    TermsToTwo(e, x, Step(0.5, Sq(x), 0.0625));
    FirstSteps(0.5, t, 0.0);
  }

  /** 1/2·x⁴/v² for the two cases of the tests, v = x²/2 + 1/32. The
      values are bound by preconditions rather than passed as literals, so
      that the powers are unfolded only as far as the proof needs. */
  lemma HalfTermCurrent(x: real)
    requires x == 0.5
    ensures 0.5 * (Pow(x, 4) / Pow(Step(0.5, Sq(x), 0.0625), 2)) == 32.0 / 25.0
  {
    FourthPowerOfHalf(x);
    VarianceOfHalf(x);
    SquareOfFiveThirtySeconds(Step(0.5, Sq(x), 0.0625));
  }

  lemma HalfTermPrior(x: real)
    requires x == 1.0
    ensures 0.5 * (Pow(x, 4) / Pow(Step(0.5, Sq(x), 0.0625), 2)) == 512.0 / 289.0
  {
    FourthPowerOfOne(x);
    VarianceOfOne(x);
    SquareOfSeventeenThirtySeconds(Step(0.5, Sq(x), 0.0625));
  }

  lemma FourthPowerOfHalf(x: real)
    requires x == 0.5
    ensures Pow(x, 4) == 0.0625
  {
    SqIsProduct(x);
    assert Pow(x, 4) == x * (x * Pow(x, 2));
  }

  lemma FourthPowerOfOne(x: real)
    requires x == 1.0
    ensures Pow(x, 4) == 1.0
  {
    SqIsProduct(x);
    assert Pow(x, 4) == x * (x * Pow(x, 2));
  }

  lemma VarianceOfHalf(x: real)
    requires x == 0.5
    ensures Step(0.5, Sq(x), 0.0625) == 5.0 / 32.0
  {
    SqIsProduct(x);
  }

  lemma VarianceOfOne(x: real)
    requires x == 1.0
    ensures Step(0.5, Sq(x), 0.0625) == 17.0 / 32.0
  {
    SqIsProduct(x);
  }

  lemma SquareOfFiveThirtySeconds(v: real)
    requires v == 5.0 / 32.0
    ensures Pow(v, 2) == 25.0 / 1024.0
  {
    SqIsProduct(v);
  }

  lemma SquareOfSeventeenThirtySeconds(v: real)
    requires v == 17.0 / 32.0
    ensures Pow(v, 2) == 289.0 / 1024.0
  {
    SqIsProduct(v);
  }

  /** The deviations of the impulse in rec_hos_py from the burn-in seed:
      0, 0 and then 1/2 around the current mean, 1 around the previous. */
  lemma ImpulseCentred(s: seq<real>, definition: int)
    requires IsImpulse(s) && ValidDefinition(definition)
    ensures ReferenceCentred(s, 0.5, definition, Moments(0.0, 0.25))[0] == 0.0
    ensures ReferenceCentred(s, 0.5, definition, Moments(0.0, 0.25))[1] == 0.0
    ensures ReferenceCentred(s, 0.5, definition, Moments(0.0, 0.25))[2] == if definition == 0 then 1.0 else 0.5
  {
    FirstSteps(0.5, s, Carried(0.5, 0.0));
    ReferenceCentredAt(s, 0.5, definition, Moments(0.0, 0.25), 0);
    ReferenceCentredAt(s, 0.5, definition, Moments(0.0, 0.25), 1);
    ReferenceCentredAt(s, 0.5, definition, Moments(0.0, 0.25), 2);
  }

  /** On the impulse rec_hos_py is the smoothing of the deviations from
      the burn-in seed (mean 0, variance 1/4). */
  lemma ImpulseReferenceHos(s: seq<real>, definition: int)
    requires IsImpulse(s) && ValidDefinition(definition)
    ensures ReferenceHosSpec(s, 0.5, 4, DefaultVarMin, definition) ==
              Ok(Smoothed(0.5, ReferenceCentred(s, 0.5, definition, Moments(0.0, 0.25)), 0.25, 4, DefaultVarMin, ReferenceRule))
  {
    ImpulseBurnIn(s);
    ReferenceHosValue(s, 0.5, 4, DefaultVarMin, definition);
  }

  /** rec_hos_py, definition 1, order 4: sample 2 is 32/25. */
  lemma ImpulseReferenceHosCurrent(s: seq<real>)
    requires IsImpulse(s)
    ensures ReferenceHosSpec(s, 0.5, 4, DefaultVarMin, 1).Ok?
    ensures ReferenceHosSpec(s, 0.5, 4, DefaultVarMin, 1).value[2] == 32.0 / 25.0
  {
    ImpulseReferenceHos(s, 1);
    var e := ReferenceCentred(s, 0.5, 1, Moments(0.0, 0.25));
    ImpulseCentred(s, 1);
    HosAtTwo(e, e[2]);
    HalfTermCurrent(e[2]);
  }

  /** rec_hos_py, definition 0, order 4: sample 2 is 512/289. */
  lemma ImpulseReferenceHosPrior(s: seq<real>)
    requires IsImpulse(s)
    ensures ReferenceHosSpec(s, 0.5, 4, DefaultVarMin, 0).Ok?
    ensures ReferenceHosSpec(s, 0.5, 4, DefaultVarMin, 0).value[2] == 512.0 / 289.0
  {
    ImpulseReferenceHos(s, 0);
    var e := ReferenceCentred(s, 0.5, 0, Moments(0.0, 0.25));
    ImpulseCentred(s, 0);
    HosAtTwo(e, e[2]);
    HalfTermPrior(e[2]);
  }

  /** rec_hos as written, asked for definition 1, returns the definition-0
      vector: sample 2 is 512/289, not the 32/25 of rec_hos_py that the
      unit test expects. */
  lemma FastHosIgnoresDefinition(s: seq<real>)
    requires IsImpulse(s)
    ensures FastHosSpec(s, 0.5, 4, DefaultVarMin).Ok?
    ensures FastHosSpec(s, 0.5, 4, DefaultVarMin).value[2] == 512.0 / 289.0
    ensures FastHosSpec(s, 0.5, 4, DefaultVarMin).value[2] != ReferenceHosSpec(s, 0.5, 4, DefaultVarMin, 1).value[2]
  {
    ImpulseBurnIn(s);
    HosFormsAgree(s, 0.5, 4, DefaultVarMin);
    ImpulseReferenceHosPrior(s);
    ImpulseReferenceHosCurrent(s);
  }

  /** A burn-in that ends on a non-zero mean can still leave the two forms
      equal: on 2, 7 with C = 1/2 the burn-in mean is 4 = 2·signal[0], so
      sample 0 centred on it is -2, whose even powers are those of 2. */
  lemma MirroredBurnInAgrees(s: seq<real>)
    requires |s| == 2 && s[0] == 2.0 && s[1] == 7.0
    ensures BurnIn(0.5, s, WindowLength(0.5)).mean == 4.0
    ensures ReferenceHosSpec(s, 0.5, 4, DefaultVarMin, 0) == FastHosSpec(s, 0.5, 4, DefaultVarMin)
  {
    assert WindowLength(0.5) == 2;
    assert BurnIn(0.5, s, 1).mean == 1.0;
    SqIsProduct(s[0] - 4.0);
    SqIsProduct(s[0]);
    HosFormsAgree(s, 0.5, 4, DefaultVarMin);
  }

  /** At order 0 every term is 1, so the forms agree even where sample 0
      has different squares: on 1, 0 with C = 1/2 the burn-in mean is 1/4. */
  lemma OrderZeroAgrees(s: seq<real>)
    requires |s| == 2 && s[0] == 1.0 && s[1] == 0.0
    ensures BurnIn(0.5, s, WindowLength(0.5)).mean == 0.25
    ensures Sq(s[0] - BurnIn(0.5, s, WindowLength(0.5)).mean) != Sq(s[0])
    ensures ReferenceHosSpec(s, 0.5, 0, DefaultVarMin, 0) == FastHosSpec(s, 0.5, 0, DefaultVarMin)
  {
    assert WindowLength(0.5) == 2;
    assert BurnIn(0.5, s, 1).mean == 0.5;
    SqIsProduct(s[0] - 0.25);
    SqIsProduct(s[0]);
    HosFormsAgree(s, 0.5, 0, DefaultVarMin);
  }

  /** The corrected fast form gives the unit test's definition-1 value. */
  lemma CorrectedHosImpulse(s: seq<real>)
    requires IsImpulse(s)
    ensures CorrectedFastHosSpec(s, 0.5, 4, DefaultVarMin, 1).Ok?
    ensures CorrectedFastHosSpec(s, 0.5, 4, DefaultVarMin, 1).value[2] == 32.0 / 25.0
  {
    ImpulseBurnIn(s);
    CorrectedHosAgrees(s, 0.5, 4, DefaultVarMin, 1);
    ImpulseReferenceHosCurrent(s);
  }
}

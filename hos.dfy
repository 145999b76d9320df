/** Recursive higher-order statistic (HOS) in its two forms: the sample
    loops of rec_hos_py and the filter pipeline of rec_hos. Both seed the
    mean and variance with a burn-in over the first int(1/C) samples,
    normalise the centred sample raised to the order by the variance
    raised to half the order, and smooth the result with the same filter. */
module Hos {
  import opened Rhos
  import opened Lfilter

  /** A running mean and variance. */
  datatype Moments = Moments(mean: real, variance: real)

  /** The two rules that turn a variance into a HOS denominator. */
  datatype ClampRule = ReferenceRule | FastRule

  function Clamp(rule: ClampRule, v: real, varMin: real): real
  {
    match rule
    case ReferenceRule => ReferenceClamp(v, varMin)
    case FastRule => FastClamp(v, varMin)
  }

  /** The burn-in state after k samples: from mean 0 and variance 1, each
      sample updates the mean, then the variance around the updated mean. */
  function BurnIn(C: real, signal: seq<real>, k: nat): (s: Moments)
    requires ValidDecay(C) && k <= |signal|
    ensures s.variance >= 0.0
    ensures C < 1.0 ==> s.variance > 0.0
  {
    if k == 0 then Moments(0.0, 1.0)
    else
      var p := BurnIn(C, signal, k - 1);
      var m := Step(C, signal[k - 1], p.mean);
      StepSign(C, Sq(signal[k - 1] - m), p.variance);
      Moments(m, Step(C, Sq(signal[k - 1] - m), p.variance))
  }

  /** Sample k centred on the mean before it: the given value for sample 0,
      μ[k - 1] after that. */
  function PriorCentred(signal: seq<real>, mean: seq<real>, first: real): (e: seq<real>)
    requires |mean| == |signal|
    ensures |e| == |signal|
  {
    seq(|signal|, k requires 0 <= k < |signal| => if k == 0 then signal[0] - first else signal[k] - mean[k - 1])
  }

  /** Sample k centred on the mean updated with it, μ[k]. */
  function CurrentCentred(signal: seq<real>, mean: seq<real>): (e: seq<real>)
    requires |mean| == |signal|
    ensures |e| == |signal|
  {
    seq(|signal|, k requires 0 <= k < |signal| => signal[k] - mean[k])
  }

  /** The filtered squared deviations, from a state of (1 - C) times the seed. */
  function Variances(C: real, e: seq<real>, seed: real): (v: seq<real>)
    requires ValidDecay(C) && seed >= 0.0
    ensures |v| == |e|
    ensures forall k :: 0 <= k < |e| ==> v[k] >= 0.0
    ensures C < 1.0 && seed > 0.0 ==> forall k :: 0 <= k < |e| ==> v[k] > 0.0
  {
    ProductNonnegative(1.0 - C, seed);
    FilterNonnegative(C, Squares(e), Carried(C, seed));
    if C < 1.0 && seed > 0.0 then
      ProductPositive(1.0 - C, seed);
      FilterPositive(C, Squares(e), Carried(C, seed));
      Filter(C, Squares(e), Carried(C, seed))
    else
      Filter(C, Squares(e), Carried(C, seed))
  }

  /** The unsmoothed HOS value of one sample: the centred sample to the
      order over the denominator to half the order. */
  function Term(e: real, d: real, order: nat): real
    requires d != 0.0
  {
    Pow(e, order) / Pow(d, order / 2)
  }

  /** When the denominators can be formed: every variance non-negative
      and, under the reference rule, a zero denominator ruled out. The fast
      rule never yields zero. */
  predicate Admissible(C: real, seed: real, varMin: real, rule: ClampRule)
  {
    0.0 < C <= 1.0 && seed >= 0.0 &&
    (rule == ReferenceRule ==> (C < 1.0 ==> seed > 0.0) && !(C == 1.0 && varMin == 0.0))
  }

  lemma ClampNonZero(C: real, v: real, varMin: real, rule: ClampRule)
    requires 0.0 < C <= 1.0 && v >= 0.0
    requires rule == ReferenceRule ==> (C < 1.0 ==> v > 0.0) && !(C == 1.0 && varMin == 0.0)
    ensures Clamp(rule, v, varMin) != 0.0
  {
  }

  /** The unsmoothed HOS of the centred samples e: each one's Term with the
      filtered variance clamped by the given rule. */
  function Terms(C: real, e: seq<real>, seed: real, order: nat, varMin: real, rule: ClampRule): (t: seq<real>)
    requires Admissible(C, seed, varMin, rule)
    ensures |t| == |e|
  {
    var v := Variances(C, e, seed);
    seq(|e|, k requires 0 <= k < |e| =>
      ClampNonZero(C, v[k], varMin, rule);
      Term(e[k], Clamp(rule, v[k], varMin), order))
  }

  /** The HOS of the centred samples e: their Terms filtered from a zero state. */
  function Smoothed(C: real, e: seq<real>, seed: real, order: nat, varMin: real, rule: ClampRule): (h: seq<real>)
    requires Admissible(C, seed, varMin, rule)
    ensures |h| == |e|
  {
    Filter(C, Terms(C, e, seed, order, varMin, rule), 0.0)
  }

  /** The deviations the main loops of rec_hos_py take the power of. From
      length 2 on, definition 0 centres on μ[i - 1], μ[-1] being the seed
      mean left in the last slot, and definition 1 on μ[i]. On a single
      sample μ[-1] is the slot just updated, so both centre on μ[0]. */
  function ReferenceCentred(signal: seq<real>, C: real, definition: int, seed: Moments): (e: seq<real>)
    ensures |e| == |signal|
  {
    var mean := Filter(C, signal, Carried(C, seed.mean));
    if definition == 0 && |signal| >= 2 then PriorCentred(signal, mean, seed.mean) else CurrentCentred(signal, mean)
  }

  /** The deviations rec_hos takes the power of: sample 0 as it is (the
      burn-in mean is not subtracted), sample k > 0 centred on μ[k - 1]. */
  function FastCentred(signal: seq<real>, C: real, seed: Moments): (e: seq<real>)
    ensures |e| == |signal|
  {
    PriorCentred(signal, Filter(C, signal, Carried(C, seed.mean)), 0.0)
  }

  /** The main loops of rec_hos_py after the burn-in left seed in the last
      slots. On a single sample hos[-1] is hos[0] itself, so the step from
      the previous value starts from the value just written. */
  function ReferenceHosFrom(signal: seq<real>, C: real, order: nat, varMin: real, definition: int, seed: Moments): (h: seq<real>)
    requires |signal| >= 1 && Admissible(C, seed.variance, varMin, ReferenceRule)
    ensures |h| == |signal|
    ensures var t := Terms(C, ReferenceCentred(signal, C, definition, seed), seed.variance, order, varMin, ReferenceRule);
            h[0] == Step(C, t[0], if |signal| == 1 then C * t[0] else 0.0) &&
            forall k :: 0 < k < |signal| ==> h[k] == Step(C, t[k], h[k - 1])
  {
    LoopSmoothing(C, Terms(C, ReferenceCentred(signal, C, definition, seed), seed.variance, order, varMin, ReferenceRule))
  }

  /** The smoothing in the main loops of rec_hos_py: the filter from a zero
      hos[-1], except on a single sample, where hos[-1] is the slot just
      written, C·t[0]. */
  function LoopSmoothing(C: real, t: seq<real>): (h: seq<real>)
    requires |t| >= 1
    ensures |h| == |t|
    ensures h[0] == Step(C, t[0], if |t| == 1 then C * t[0] else 0.0)
    ensures forall k :: 0 < k < |t| ==> h[k] == Step(C, t[k], h[k - 1])
  {
    var h := Filter(C, t, 0.0);
    StepFromZero(C, t[0], h[0]);
    if |t| == 1 then [Step(C, t[0], h[0])] else h
  }

  /** rec_hos_py as a function of its arguments. */
  function ReferenceHosSpec(signal: seq<real>, C: real, order: nat, varMin: real, definition: int): (r: Result<seq<real>>)
    requires order % 2 == 0
    requires C == 1.0 && varMin == 0.0 ==> !ValidDefinition(definition) || |signal| == 0
    ensures !ValidDecay(C) ==> r == Err(DecayOutOfRange)
    ensures ValidDecay(C) && !ValidDefinition(definition) ==> r == Err(UnknownDefinition)
    ensures ValidDecay(C) && ValidDefinition(definition) && C == 0.0 ==> r == Err(ZeroDivision)
    ensures 0.0 < C <= 1.0 && ValidDefinition(definition) ==> (r == Err(IndexOutOfRange) <==> WindowLength(C) > |signal|)
    ensures r.Ok? ==> |r.value| == |signal|
  {
    if !ValidDecay(C) then Err(DecayOutOfRange)
    else if !ValidDefinition(definition) then Err(UnknownDefinition)
    else if C == 0.0 then Err(ZeroDivision)
    else if WindowLength(C) > |signal| then Err(IndexOutOfRange)
    else Ok(ReferenceHosFrom(signal, C, order, varMin, definition, BurnIn(C, signal, WindowLength(C))))
  }

  /** rec_hos as a function of its arguments: whatever the definition,
      sample 0 is taken as it is and sample k > 0 is centred on μ[k - 1]. */
  function FastHosSpec(signal: seq<real>, C: real, order: nat, varMin: real): (r: Result<seq<real>>)
    requires order % 2 == 0
    ensures !ValidDecay(C) ==> r == Err(DecayOutOfRange)
    ensures ValidDecay(C) && C == 0.0 ==> r == Err(ZeroDivision)
    ensures 0.0 < C <= 1.0 ==> (r == Err(IndexOutOfRange) <==> WindowLength(C) > |signal|)
    ensures r.Ok? ==> |r.value| == |signal|
  {
    if !ValidDecay(C) then Err(DecayOutOfRange)
    else if C == 0.0 then Err(ZeroDivision)
    else if WindowLength(C) > |signal| then Err(IndexOutOfRange)
    else
      var seed := BurnIn(C, signal, WindowLength(C));
      Ok(Smoothed(C, FastCentred(signal, C, seed), seed.variance, order, varMin, FastRule))
  }

  /** rec_hos with the definition honoured: arguments checked as in
      rec_hos_py; definition 0 centres as rec_hos does, definition 1 on
      the mean updated with the sample, μ[i]. */
  function CorrectedFastHosSpec(signal: seq<real>, C: real, order: nat, varMin: real, definition: int): (r: Result<seq<real>>)
    requires order % 2 == 0
    ensures !ValidDecay(C) ==> r == Err(DecayOutOfRange)
    ensures ValidDecay(C) && !ValidDefinition(definition) ==> r == Err(UnknownDefinition)
    ensures ValidDecay(C) && ValidDefinition(definition) && C == 0.0 ==> r == Err(ZeroDivision)
    ensures 0.0 < C <= 1.0 && ValidDefinition(definition) ==> (r == Err(IndexOutOfRange) <==> WindowLength(C) > |signal|)
    ensures r.Ok? ==> |r.value| == |signal|
  {
    if !ValidDecay(C) then Err(DecayOutOfRange)
    else if !ValidDefinition(definition) then Err(UnknownDefinition)
    else if C == 0.0 then Err(ZeroDivision)
    else if WindowLength(C) > |signal| then Err(IndexOutOfRange)
    else
      var seed := BurnIn(C, signal, WindowLength(C));
      var e := if definition == 0 then FastCentred(signal, C, seed)
               else CurrentCentred(signal, Filter(C, signal, Carried(C, seed.mean)));
      Ok(Smoothed(C, e, seed.variance, order, varMin, FastRule))
  }

  /** The correction changes nothing for definition 0. */
  lemma CorrectedKeepsPriorMean(signal: seq<real>, C: real, order: nat, varMin: real)
    requires order % 2 == 0
    ensures CorrectedFastHosSpec(signal, C, order, varMin, 0) == FastHosSpec(signal, C, order, varMin)
  {
  }

  /** The corrected fast form computes what rec_hos_py computes on two
      samples or more: for definition 1 always, for definition 0 whenever
      sample 0 has the same square centred on the burn-in mean as on zero,
      or the order is 0. */
  lemma CorrectedHosAgrees(signal: seq<real>, C: real, order: nat, varMin: real, definition: int)
    requires order % 2 == 0 && !(C == 1.0 && varMin == 0.0) && 2 <= |signal|
    requires definition == 0 && 0.0 < C <= 1.0 && WindowLength(C) <= |signal| ==>
               Sq(signal[0] - BurnIn(C, signal, WindowLength(C)).mean) == Sq(signal[0]) || order == 0
    ensures CorrectedFastHosSpec(signal, C, order, varMin, definition) == ReferenceHosSpec(signal, C, order, varMin, definition)
  {
    if 0.0 < C <= 1.0 && ValidDefinition(definition) && WindowLength(C) <= |signal| {
      if definition == 0 {
        HosFormsAgree(signal, C, order, varMin);
        CorrectedKeepsPriorMean(signal, C, order, varMin);
      } else {
        var seed := BurnIn(C, signal, WindowLength(C));
        var e := CurrentCentred(signal, Filter(C, signal, Carried(C, seed.mean)));
        assert ReferenceCentred(signal, C, 1, seed) == e;
        TermsClampIrrelevant(C, e, seed.variance, order, varMin);
        ReferenceHosValue(signal, C, order, varMin, 1);
        assert CorrectedFastHosSpec(signal, C, order, varMin, 1) == Ok(Smoothed(C, e, seed.variance, order, varMin, FastRule));
      }
    }
  }

  /** The burn-in state after k samples is the last of k steps of the definition-1 recursive mean and
      variance, started from mean 0 and variance 1. */
  lemma {:induction false} BurnInIsFilter(C: real, signal: seq<real>, k: nat)
    requires ValidDecay(C) && 0 < k <= |signal|
    ensures BurnIn(C, signal, k).mean == Filter(C, signal, 0.0)[k - 1]
    ensures BurnIn(C, signal, k).variance ==
              Filter(C, Squares(CurrentCentred(signal, Filter(C, signal, 0.0))), 1.0 - C)[k - 1]
  {
    var mean := Filter(C, signal, 0.0);
    var e := CurrentCentred(signal, mean);
    var v := Filter(C, Squares(e), 1.0 - C);
    var p := BurnIn(C, signal, k - 1);
    assert e[k - 1] == signal[k - 1] - mean[k - 1];
    if k == 1 {
      assert mean[0] == Step(C, signal[0], 0.0);
      assert v[0] == Step(C, Sq(e[0]), 1.0);
    } else {
      BurnInIsFilter(C, signal, k - 1);
      assert mean[k - 1] == Step(C, signal[k - 1], mean[k - 2]);
      assert v[k - 1] == Step(C, Squares(e)[k - 1], v[k - 2]);
    }
  }

  /** A zero filtered variance, with C > 0, means a zero deviation. */
  lemma VarianceZeroMeansCentred(C: real, e: seq<real>, seed: real, k: nat)
    requires 0.0 < C <= 1.0 && seed >= 0.0 && k < |e|
    requires Variances(C, e, seed)[k] == 0.0
    ensures e[k] == 0.0
  {
    var v := Variances(C, e, seed);
    ProductNonnegative(1.0 - C, seed);
    if k == 0 {
      StepSign(C, Sq(e[0]), seed);
      assert v[0] == C * Sq(e[0]) + (1.0 - C) * seed;
    } else {
      StepSign(C, Sq(e[k]), v[k - 1]);
      assert v[k] == Step(C, Squares(e)[k], v[k - 1]);
    }
  }

  /** Where the two clamps differ the variance is zero, so the deviation is
      zero, and the HOS term is the same under either rule: 0 for a positive
      order, 1 for order 0. */
  lemma TermsClampIrrelevant(C: real, e: seq<real>, seed: real, order: nat, varMin: real)
    requires Admissible(C, seed, varMin, ReferenceRule)
    ensures Terms(C, e, seed, order, varMin, ReferenceRule) == Terms(C, e, seed, order, varMin, FastRule)
  {
    var v := Variances(C, e, seed);
    var tr := Terms(C, e, seed, order, varMin, ReferenceRule);
    var tf := Terms(C, e, seed, order, varMin, FastRule);
    forall k | 0 <= k < |e|
      ensures tr[k] == tf[k]
    {
      ClampRulesAgree(v[k], varMin);
      if v[k] == 0.0 {
        VarianceZeroMeansCentred(C, e, seed, k);
      }
      ZeroTerm(e[k], ReferenceClamp(v[k], varMin), FastClamp(v[k], varMin), order);
    }
  }

  /** A zero deviation gives a zero term for a positive order. */
  lemma ZeroDeviationTerm(C: real, e: seq<real>, seed: real, order: nat, varMin: real, rule: ClampRule, k: nat)
    requires Admissible(C, seed, varMin, rule) && k < |e| && e[k] == 0.0 && order > 0
    ensures Terms(C, e, seed, order, varMin, rule)[k] == 0.0
  {
    TermsAt(C, e, seed, order, varMin, rule, k);
    ZeroOverPower(Clamp(rule, Variances(C, e, seed)[k], varMin), order);
  }

  lemma ZeroOverPower(d: real, order: nat)
    requires d != 0.0 && order > 0
    ensures Term(0.0, d, order) == 0.0
  {
    assert Pow(0.0, order) == 0.0;
  }

  /** A zero deviation gives the same term whatever the denominator. */
  lemma ZeroTerm(e: real, d1: real, d2: real, order: nat)
    requires d1 != 0.0 && d2 != 0.0
    ensures e == 0.0 ==> Term(e, d1, order) == Term(e, d2, order)
  {
    if e == 0.0 && order == 0 {
      assert Pow(d1, 0) == 1.0 && Pow(d2, 0) == 1.0;
    }
  }

  /** For definition 0 on two samples or more, rec_hos computes exactly what
      rec_hos_py computes whenever sample 0 centred on the burn-in mean μ[-1]
      has the same square as sample 0 itself, which rec_hos uses instead:
      that is, when the burn-in mean is 0 or 2·signal[0]. Every later
      deviation is the same in both forms, and an even order sees only
      squares. Order 0 makes every term 1, so there any burn-in mean will
      do. The clamp rules may differ, but never where it shows. */
  lemma HosFormsAgree(signal: seq<real>, C: real, order: nat, varMin: real)
    requires order % 2 == 0 && !(C == 1.0 && varMin == 0.0)
    requires 0.0 < C <= 1.0 && 2 <= |signal| && WindowLength(C) <= |signal|
    requires Sq(signal[0] - BurnIn(C, signal, WindowLength(C)).mean) == Sq(signal[0]) || order == 0
    ensures ReferenceHosSpec(signal, C, order, varMin, 0) == FastHosSpec(signal, C, order, varMin)
  {
    var seed := BurnIn(C, signal, WindowLength(C));
    var er := ReferenceCentred(signal, C, 0, seed);
    var ef := FastCentred(signal, C, seed);
    TermsClampIrrelevant(C, er, seed.variance, order, varMin);
    if order == 0 {
      TermsOfOrderZero(C, er, ef, seed.variance, varMin, FastRule);
    } else {
      CentringsSameSquares(signal, C, seed);
      TermsOfSameSquares(C, er, ef, seed.variance, order, varMin, FastRule);
    }
    ReferenceHosValue(signal, C, order, varMin, 0);
    FastHosValue(signal, C, order, varMin);
  }

  /** The two definition-0 centrings differ only at sample 0, so they have
      the same squares when sample 0 does. */
  lemma CentringsSameSquares(signal: seq<real>, C: real, seed: Moments)
    requires |signal| >= 2 && Sq(signal[0] - seed.mean) == Sq(signal[0])
    ensures forall k :: 0 <= k < |signal| ==>
              Sq(ReferenceCentred(signal, C, 0, seed)[k]) == Sq(FastCentred(signal, C, seed)[k])
  {
    var er := ReferenceCentred(signal, C, 0, seed);
    var ef := FastCentred(signal, C, seed);
    assert er[0] == signal[0] - seed.mean && ef[0] == signal[0] - 0.0;
    forall k | 0 <= k < |signal|
      ensures Sq(er[k]) == Sq(ef[k])
    {
      if k > 0 {
        assert er[k] == ef[k];
      }
    }
  }

  /** Order 0 makes every term 1, whatever the deviations. */
  lemma TermsOfOrderZero(C: real, e1: seq<real>, e2: seq<real>, seed: real, varMin: real, rule: ClampRule)
    requires Admissible(C, seed, varMin, rule) && |e1| == |e2|
    ensures Terms(C, e1, seed, 0, varMin, rule) == Terms(C, e2, seed, 0, varMin, rule)
  {
    var t1 := Terms(C, e1, seed, 0, varMin, rule);
    var t2 := Terms(C, e2, seed, 0, varMin, rule);
    forall k | 0 <= k < |e1|
      ensures t1[k] == 1.0 && t2[k] == 1.0
    {
      TermsAt(C, e1, seed, 0, varMin, rule, k);
      TermsAt(C, e2, seed, 0, varMin, rule, k);
    }
  }

  /** For an even order, deviations with the same squares give the same
      variances and so the same terms. */
  lemma TermsOfSameSquares(C: real, e1: seq<real>, e2: seq<real>, seed: real, order: nat, varMin: real, rule: ClampRule)
    requires Admissible(C, seed, varMin, rule) && order % 2 == 0 && |e1| == |e2|
    requires forall k :: 0 <= k < |e1| ==> Sq(e1[k]) == Sq(e2[k])
    ensures Variances(C, e1, seed) == Variances(C, e2, seed)
    ensures Terms(C, e1, seed, order, varMin, rule) == Terms(C, e2, seed, order, varMin, rule)
  {
    assert Squares(e1) == Squares(e2);
    var t1 := Terms(C, e1, seed, order, varMin, rule);
    var t2 := Terms(C, e2, seed, order, varMin, rule);
    forall k | 0 <= k < |e1|
      ensures t1[k] == t2[k]
    {
      TermsAt(C, e1, seed, order, varMin, rule, k);
      TermsAt(C, e2, seed, order, varMin, rule, k);
      EvenPowOfSquare(e1[k], e2[k], order);
    }
  }

  /** What rec_hos_py returns on valid arguments and a long enough signal. */
  lemma ReferenceHosResult(signal: seq<real>, C: real, order: nat, varMin: real, definition: int)
    requires order % 2 == 0 && !(C == 1.0 && varMin == 0.0)
    requires 0.0 < C <= 1.0 && ValidDefinition(definition) && WindowLength(C) <= |signal|
    ensures ReferenceHosSpec(signal, C, order, varMin, definition) ==
              Ok(ReferenceHosFrom(signal, C, order, varMin, definition, BurnIn(C, signal, WindowLength(C))))
  {
  }

  /** The same on two samples or more, where the main loop is the filter. */
  lemma ReferenceHosValue(signal: seq<real>, C: real, order: nat, varMin: real, definition: int)
    requires order % 2 == 0 && !(C == 1.0 && varMin == 0.0)
    requires 0.0 < C <= 1.0 && ValidDefinition(definition) && 2 <= |signal| && WindowLength(C) <= |signal|
    ensures ReferenceHosSpec(signal, C, order, varMin, definition) ==
              Ok(Smoothed(C, ReferenceCentred(signal, C, definition, BurnIn(C, signal, WindowLength(C))),
                          BurnIn(C, signal, WindowLength(C)).variance, order, varMin, ReferenceRule))
  {
    ReferenceHosResult(signal, C, order, varMin, definition);
  }

  /** What rec_hos returns on valid arguments and a long enough signal. */
  lemma FastHosValue(signal: seq<real>, C: real, order: nat, varMin: real)
    requires order % 2 == 0
    requires 0.0 < C <= 1.0 && WindowLength(C) <= |signal|
    ensures FastHosSpec(signal, C, order, varMin) ==
              Ok(Smoothed(C, FastCentred(signal, C, BurnIn(C, signal, WindowLength(C))),
                          BurnIn(C, signal, WindowLength(C)).variance, order, varMin, FastRule))
  {
  }

  /** Over an all-zero signal the burn-in mean stays zero. */
  lemma {:induction false} BurnInOfZero(C: real, signal: seq<real>, k: nat)
    requires ValidDecay(C) && k <= |signal|
    requires forall j :: 0 <= j < |signal| ==> signal[j] == 0.0
    ensures BurnIn(C, signal, k).mean == 0.0
  {
    if k > 0 {
      BurnInOfZero(C, signal, k - 1);
      assert signal[k - 1] == 0.0;
    }
  }

  /** All-zero deviations give all-zero terms, for a positive order, and so
      an all-zero HOS. */
  lemma ZeroDeviationsSmoothed(C: real, e: seq<real>, seed: real, order: nat, varMin: real, rule: ClampRule)
    requires Admissible(C, seed, varMin, rule) && order > 0
    requires forall j :: 0 <= j < |e| ==> e[j] == 0.0
    ensures forall k :: 0 <= k < |e| ==> Terms(C, e, seed, order, varMin, rule)[k] == 0.0
    ensures forall k :: 0 <= k < |e| ==> Smoothed(C, e, seed, order, varMin, rule)[k] == 0.0
  {
    var t := Terms(C, e, seed, order, varMin, rule);
    forall k | 0 <= k < |e|
      ensures t[k] == 0.0
    {
      ZeroDeviationTerm(C, e, seed, order, varMin, rule, k);
    }
    FilterOfZero(C, t);
  }

  /** rec_hos of an all-zero signal is all zero, for a positive order. */
  lemma FastHosOfZeroSignal(signal: seq<real>, C: real, order: nat, varMin: real)
    requires order % 2 == 0 && order > 0
    requires forall j :: 0 <= j < |signal| ==> signal[j] == 0.0
    ensures FastHosSpec(signal, C, order, varMin).Ok? ==>
              forall k :: 0 <= k < |signal| ==> FastHosSpec(signal, C, order, varMin).value[k] == 0.0
  {
    if 0.0 < C <= 1.0 && WindowLength(C) <= |signal| {
      var seed := BurnIn(C, signal, WindowLength(C));
      BurnInOfZero(C, signal, WindowLength(C));
      assert Carried(C, seed.mean) == 0.0;
      FilterOfZero(C, signal);
      var e := FastCentred(signal, C, seed);
      assert forall j :: 0 <= j < |e| ==> e[j] == 0.0;
      ZeroDeviationsSmoothed(C, e, seed.variance, order, varMin, FastRule);
      FastHosValue(signal, C, order, varMin);
    }
  }

  /** rec_hos_py of an all-zero signal is all zero, for a positive order,
      on any length, one sample included. */
  lemma ReferenceHosOfZeroSignal(signal: seq<real>, C: real, order: nat, varMin: real, definition: int)
    requires order % 2 == 0 && order > 0
    requires C == 1.0 && varMin == 0.0 ==> !ValidDefinition(definition) || |signal| == 0
    requires forall j :: 0 <= j < |signal| ==> signal[j] == 0.0
    ensures ReferenceHosSpec(signal, C, order, varMin, definition).Ok? ==>
              forall k :: 0 <= k < |signal| ==> ReferenceHosSpec(signal, C, order, varMin, definition).value[k] == 0.0
  {
    if 0.0 < C <= 1.0 && ValidDefinition(definition) && WindowLength(C) <= |signal| {
      var seed := BurnIn(C, signal, WindowLength(C));
      BurnInOfZero(C, signal, WindowLength(C));
      assert Carried(C, seed.mean) == 0.0;
      FilterOfZero(C, signal);
      var e := ReferenceCentred(signal, C, definition, seed);
      assert forall j :: 0 <= j < |e| ==> e[j] == 0.0;
      ZeroDeviationsSmoothed(C, e, seed.variance, order, varMin, ReferenceRule);
      ReferenceHosResult(signal, C, order, varMin, definition);
      if |signal| == 1 {
        var t := Terms(C, e, seed.variance, order, varMin, ReferenceRule);
        assert t[0] == 0.0 && Filter(C, t, 0.0)[0] == 0.0;
        assert Step(C, t[0], Filter(C, t, 0.0)[0]) == 0.0;
      } else {
        ReferenceHosFromLong(signal, C, order, varMin, definition, seed);
      }
    }
  }

  /** rec_hos: the burn-in loop over scalars, two filter calls for the mean
      and the variance, the masked clamps of the variance array and the
      in-place division of the power array, then the smoothing filter. The
      definition argument is accepted and ignored. */
  method FastHos(signal: seq<real>, C: real, order: nat, varMin: real, definition: int) returns (r: Result<seq<real>>)
    requires order % 2 == 0
    ensures r == FastHosSpec(signal, C, order, varMin)
  {
    if !(0.0 <= C <= 1.0) {
      return Err(DecayOutOfRange);
    }
    if C == 0.0 {
      return Err(ZeroDivision);
    }
    var nWin := (1.0 / C).Floor;
    var mean0, var0 := 0.0, 1.0;
    for i := 0 to nWin
      invariant i <= |signal| && Moments(mean0, var0) == BurnIn(C, signal, i)
    {
      if i >= |signal| {
        return Err(IndexOutOfRange);
      }
      mean0 := Step(C, signal[i], mean0);
      var0 := Step(C, Sq(signal[i] - mean0), var0);
    }
    var t := FastTerms(signal, C, order, varMin, mean0, var0);
    return Ok(Filter(C, t, 0.0));
  }

  /** The body of rec_hos between the burn-in and the smoothing filter. */
  method FastTerms(signal: seq<real>, C: real, order: nat, varMin: real, mean0: real, var0: real) returns (t: seq<real>)
    requires 0.0 < C <= 1.0 && var0 >= 0.0
    ensures t == Terms(C, FastCentred(signal, C, Moments(mean0, var0)), var0, order, varMin, FastRule)
  {
    var n := |signal|;
    ghost var e := FastCentred(signal, C, Moments(mean0, var0));
    var mean := Filter(C, signal, Carried(C, mean0));
    assert e == PriorCentred(signal, mean, 0.0);
    var sq := PoweredDeviations(signal, mean, 2);
    assert sq == Squares(e);
    var variance := Filter(C, sq, Carried(C, var0));
    ghost var vs := Variances(C, e, var0);
    assert variance == vs;
    var dev := new real[n];
    var powers := PoweredDeviations(signal, mean, order);
    forall k | 0 <= k < n {
      dev[k] := powers[k];
    }
    var v := FastDenominators(variance, varMin);
    forall k | 0 <= k < n {
      dev[k] := dev[k] / Pow(v[k], order / 2);
    }
    assert forall k :: 0 <= k < n ==> dev[k] == Term(e[k], FastClamp(vs[k], varMin), order);
    assert dev[..] == Terms(C, e, var0, order, varMin, FastRule);
    return dev[..];
  }

  /** dev = signal**p, then dev[1:] = (signal[1:] - mean[:-1])**p: the
      power of each sample centred on the mean before it, sample 0 taken
      as it is. */
  method PoweredDeviations(signal: seq<real>, mean: seq<real>, p: nat) returns (r: seq<real>)
    requires |mean| == |signal|
    ensures r == Powers(PriorCentred(signal, mean, 0.0), p)
  {
    var n := |signal|;
    var dev := new real[n](k => if 0 <= k < n then Pow(signal[k], p) else 0.0);
    forall k | 1 <= k < n {
      dev[k] := Pow(signal[k] - mean[k - 1], p);
    }
    ghost var e := PriorCentred(signal, mean, 0.0);
    forall k | 0 <= k < n
      ensures dev[k] == Pow(e[k], p)
    {
      if k == 0 {
        assert e[0] == signal[0];
      }
    }
    return dev[..];
  }

  /** var[var == 0] = 1e-9, then var[var < var_min] = var_min. */
  method FastDenominators(variance: seq<real>, varMin: real) returns (v: array<real>)
    ensures fresh(v) && v.Length == |variance|
    ensures forall k :: 0 <= k < |variance| ==> v[k] == FastClamp(variance[k], varMin)
  {
    var n := |variance|;
    v := new real[n](k => if 0 <= k < n then variance[k] else 0.0);
    forall k | 0 <= k < n && v[k] == 0.0 {
      v[k] := Eps;
    }
    forall k | 0 <= k < n && v[k] < varMin {
      v[k] := varMin;
    }
  }

  /** rec_hos_py: argument checks, the burn-in loop writing into the last
      slots of the zero mean, unit variance and zero HOS arrays, then the
      main loop of the chosen definition. */
  method ReferenceHos(signal: seq<real>, C: real, order: nat, varMin: real, definition: int) returns (r: Result<seq<real>>)
    requires order % 2 == 0
    requires C == 1.0 && varMin == 0.0 ==> !ValidDefinition(definition) || |signal| == 0
    ensures r == ReferenceHosSpec(signal, C, order, varMin, definition)
  {
    if !(0.0 <= C <= 1.0) {
      return Err(DecayOutOfRange);
    }
    if !(definition == 0 || definition == 1) {
      return Err(UnknownDefinition);
    }
    var n := |signal|;
    var mean := new real[n](_ => 0.0);
    var variance := new real[n](_ => 1.0);
    var hos := new real[n](_ => 0.0);
    if C == 0.0 {
      return Err(ZeroDivision);
    }
    var nWin := (1.0 / C).Floor;
    assert nWin == WindowLength(C);
    var inRange := SeedLastSlots(signal, C, nWin, mean, variance);
    if !inRange {
      return Err(IndexOutOfRange);
    }
    HosMain(signal, C, order, varMin, definition, mean, variance, hos);
    ReferenceHosResult(signal, C, order, varMin, definition);
    return Ok(hos[..]);
  }

  /** The burn-in loop of rec_hos_py: nWin steps of the mean and variance
      recurrences in the last slots, which fail on a signal shorter than
      nWin when signal[i] is out of range. */
  method SeedLastSlots(signal: seq<real>, C: real, nWin: nat, mean: array<real>, variance: array<real>) returns (inRange: bool)
    requires ValidDecay(C) && mean != variance
    requires mean.Length == |signal| && variance.Length == |signal|
    requires |signal| > 0 ==> mean[|signal| - 1] == 0.0 && variance[|signal| - 1] == 1.0
    modifies mean, variance
    ensures inRange <==> nWin <= |signal|
    ensures inRange && |signal| > 0 ==>
              mean[|signal| - 1] == BurnIn(C, signal, nWin).mean && variance[|signal| - 1] == BurnIn(C, signal, nWin).variance
    ensures forall k :: 0 <= k < |signal| - 1 ==> mean[k] == old(mean[k]) && variance[k] == old(variance[k])
  {
    var n := |signal|;
    for i := 0 to nWin
      invariant i <= n
      invariant n > 0 ==> mean[n - 1] == BurnIn(C, signal, i).mean && variance[n - 1] == BurnIn(C, signal, i).variance
      invariant forall k :: 0 <= k < n - 1 ==> mean[k] == old(mean[k]) && variance[k] == old(variance[k])
    {
      if i >= n {
        return false;
      }
      mean[n - 1] := Step(C, signal[i], mean[n - 1]);
      variance[n - 1] := Step(C, Sq(signal[i] - mean[n - 1]), variance[n - 1]);
    }
    return nWin <= n;
  }

  /** The main loop of rec_hos_py on the arrays the burn-in seeded. */
  method HosMain(signal: seq<real>, C: real, order: nat, varMin: real, definition: int,
                 mean: array<real>, variance: array<real>, hos: array<real>)
    requires mean != variance && variance != hos && mean != hos
    requires mean.Length == |signal| && variance.Length == |signal| && hos.Length == |signal| >= 1
    requires Admissible(C, variance[|signal| - 1], varMin, ReferenceRule)
    requires |signal| >= 2 ==> hos[|signal| - 1] == 0.0
    modifies mean, variance, hos
    ensures mean[..] == Filter(C, signal, Carried(C, old(mean[|signal| - 1])))
    ensures variance[..] == Variances(C, ReferenceCentred(signal, C, definition, Moments(old(mean[|signal| - 1]), old(variance[|signal| - 1]))),
                                      old(variance[|signal| - 1]))
    ensures hos[..] == ReferenceHosFrom(signal, C, order, varMin, definition,
                                        Moments(old(mean[|signal| - 1]), old(variance[|signal| - 1])))
  {
    var n := |signal|;
    ghost var seed := Moments(mean[n - 1], variance[n - 1]);
    ghost var m := Filter(C, signal, Carried(C, seed.mean));
    ghost var e := ReferenceCentred(signal, C, definition, seed);
    ghost var v := Variances(C, e, seed.variance);
    ghost var t := Terms(C, e, seed.variance, order, varMin, ReferenceRule);
    ghost var h := Smoothed(C, e, seed.variance, order, varMin, ReferenceRule);
    ReferenceRecurrences(signal, C, order, varMin, definition, seed);
    HosLoop(signal, C, order, varMin, definition, mean, variance, hos, seed, m, e, v, t, h);
    if n == 1 {
      ReferenceHosFromSingle(signal, C, order, varMin, definition, seed);
    } else {
      ReferenceHosFromLong(signal, C, order, varMin, definition, seed);
    }
  }

  /** The recurrences the sequences of the reference form satisfy. */
  ghost predicate LoopRecurrences(signal: seq<real>, C: real, order: nat, varMin: real, definition: int, seed: Moments,
                                  m: seq<real>, e: seq<real>, v: seq<real>, t: seq<real>, h: seq<real>)
  {
    |m| == |e| == |v| == |t| == |h| == |signal| &&
    MeanSteps(signal, C, seed.mean, m) &&
    CentredSteps(signal, definition, seed.mean, m, e) &&
    SeededVarianceSteps(C, e, seed.variance, v) &&
    TermSteps(order, varMin, e, v, t) &&
    HosSteps(C, t, h)
  }

  ghost predicate MeanSteps(signal: seq<real>, C: real, mean0: real, m: seq<real>)
    requires |m| == |signal|
  {
    forall k {:trigger signal[k]} :: 0 <= k < |signal| ==>
      m[k] == Step(C, signal[k], if k == 0 then mean0 else m[k - 1])
  }

  ghost predicate CentredSteps(signal: seq<real>, definition: int, mean0: real, m: seq<real>, e: seq<real>)
    requires |m| == |e| == |signal|
  {
    forall k {:trigger e[k]} :: 0 <= k < |signal| ==>
      e[k] == signal[k] - (if definition == 0 && |signal| >= 2 then (if k == 0 then mean0 else m[k - 1]) else m[k])
  }

  ghost predicate SeededVarianceSteps(C: real, e: seq<real>, variance0: real, v: seq<real>)
    requires |v| == |e|
  {
    forall k {:trigger e[k]} :: 0 <= k < |e| ==>
      v[k] == Step(C, Sq(e[k]), if k == 0 then variance0 else v[k - 1])
  }

  ghost predicate TermSteps(order: nat, varMin: real, e: seq<real>, v: seq<real>, t: seq<real>)
    requires |v| == |e| == |t|
  {
    forall k {:trigger t[k]} :: 0 <= k < |t| ==>
      ReferenceClamp(v[k], varMin) != 0.0 && t[k] == Term(e[k], ReferenceClamp(v[k], varMin), order)
  }

  ghost predicate HosSteps(C: real, t: seq<real>, h: seq<real>)
    requires |h| == |t|
  {
    forall k {:trigger t[k]} :: 0 <= k < |t| ==>
      h[k] == Step(C, t[k], if k == 0 then 0.0 else h[k - 1])
  }

  lemma ReferenceRecurrences(signal: seq<real>, C: real, order: nat, varMin: real, definition: int, seed: Moments)
    requires Admissible(C, seed.variance, varMin, ReferenceRule)
    ensures LoopRecurrences(signal, C, order, varMin, definition, seed,
                            Filter(C, signal, Carried(C, seed.mean)),
                            ReferenceCentred(signal, C, definition, seed),
                            Variances(C, ReferenceCentred(signal, C, definition, seed), seed.variance),
                            Terms(C, ReferenceCentred(signal, C, definition, seed), seed.variance, order, varMin, ReferenceRule),
                            Smoothed(C, ReferenceCentred(signal, C, definition, seed), seed.variance, order, varMin, ReferenceRule))
  {
    var e := ReferenceCentred(signal, C, definition, seed);
    MeanStepsHold(signal, C, seed.mean);
    CentredStepsHold(signal, C, definition, seed);
    SeededVarianceStepsHold(C, e, seed.variance);
    TermStepsHold(C, e, seed.variance, order, varMin);
    HosStepsHold(C, Terms(C, e, seed.variance, order, varMin, ReferenceRule));
    assert Smoothed(C, e, seed.variance, order, varMin, ReferenceRule) == Filter(C, Terms(C, e, seed.variance, order, varMin, ReferenceRule), 0.0);
  }

  lemma MeanStepsHold(signal: seq<real>, C: real, mean0: real)
    ensures MeanSteps(signal, C, mean0, Filter(C, signal, Carried(C, mean0)))
  {
    forall k | 0 <= k < |signal|
      ensures Filter(C, signal, Carried(C, mean0))[k] ==
                Step(C, signal[k], if k == 0 then mean0 else Filter(C, signal, Carried(C, mean0))[k - 1])
    {
      FilterCarried(C, signal, mean0, k);
    }
  }

  lemma CentredStepsHold(signal: seq<real>, C: real, definition: int, seed: Moments)
    ensures CentredSteps(signal, definition, seed.mean, Filter(C, signal, Carried(C, seed.mean)), ReferenceCentred(signal, C, definition, seed))
  {
    forall k | 0 <= k < |signal|
      ensures ReferenceCentred(signal, C, definition, seed)[k] ==
                signal[k] - (if definition == 0 && |signal| >= 2 then (if k == 0 then seed.mean else Filter(C, signal, Carried(C, seed.mean))[k - 1])
                             else Filter(C, signal, Carried(C, seed.mean))[k])
    {
      ReferenceCentredAt(signal, C, definition, seed, k);
    }
  }

  lemma SeededVarianceStepsHold(C: real, e: seq<real>, variance0: real)
    requires ValidDecay(C) && variance0 >= 0.0
    ensures SeededVarianceSteps(C, e, variance0, Variances(C, e, variance0))
  {
    forall k | 0 <= k < |e|
      ensures Variances(C, e, variance0)[k] == Step(C, Sq(e[k]), if k == 0 then variance0 else Variances(C, e, variance0)[k - 1])
    {
      VariancesAt(C, e, variance0, k);
    }
  }

  lemma TermStepsHold(C: real, e: seq<real>, variance0: real, order: nat, varMin: real)
    requires Admissible(C, variance0, varMin, ReferenceRule)
    ensures TermSteps(order, varMin, e, Variances(C, e, variance0), Terms(C, e, variance0, order, varMin, ReferenceRule))
  {
    forall k | 0 <= k < |e|
      ensures ReferenceClamp(Variances(C, e, variance0)[k], varMin) != 0.0 &&
              Terms(C, e, variance0, order, varMin, ReferenceRule)[k] == Term(e[k], ReferenceClamp(Variances(C, e, variance0)[k], varMin), order)
    {
      TermsAt(C, e, variance0, order, varMin, ReferenceRule, k);
    }
  }

  lemma HosStepsHold(C: real, t: seq<real>)
    ensures HosSteps(C, t, Filter(C, t, 0.0))
  {
    forall k | 0 <= k < |t|
      ensures Filter(C, t, 0.0)[k] == Step(C, t[k], if k == 0 then 0.0 else Filter(C, t, 0.0)[k - 1])
    {
      FilterFromRest(C, t, k);
    }
  }

  lemma ReferenceHosFromLong(signal: seq<real>, C: real, order: nat, varMin: real, definition: int, seed: Moments)
    requires |signal| >= 2 && Admissible(C, seed.variance, varMin, ReferenceRule)
    ensures ReferenceHosFrom(signal, C, order, varMin, definition, seed) ==
              Smoothed(C, ReferenceCentred(signal, C, definition, seed), seed.variance, order, varMin, ReferenceRule)
  {
  }

  lemma ReferenceHosFromSingle(signal: seq<real>, C: real, order: nat, varMin: real, definition: int, seed: Moments)
    requires |signal| == 1 && Admissible(C, seed.variance, varMin, ReferenceRule)
    ensures var t := Terms(C, ReferenceCentred(signal, C, definition, seed), seed.variance, order, varMin, ReferenceRule);
            ReferenceHosFrom(signal, C, order, varMin, definition, seed) == [Step(C, t[0], Filter(C, t, 0.0)[0])]
  {
  }

  /** The main loops of rec_hos_py, which differ only in the mean they
      centre sample i on: μ[i - 1] for definition 0, μ[i] for definition 1,
      with Python's wraparound at i = 0 reading the burn-in slots. The ghost
      arguments are the sequences the loops build, given by their
      recurrences. */
  method HosLoop(signal: seq<real>, C: real, order: nat, varMin: real, definition: int,
                 mean: array<real>, variance: array<real>, hos: array<real>,
                 ghost seed: Moments, ghost m: seq<real>, ghost e: seq<real>, ghost v: seq<real>,
                 ghost t: seq<real>, ghost h: seq<real>)
    requires mean != variance && variance != hos && mean != hos
    requires mean.Length == |signal| && variance.Length == |signal| && hos.Length == |signal| >= 1
    requires mean[|signal| - 1] == seed.mean && variance[|signal| - 1] == seed.variance
    requires |signal| >= 2 ==> hos[|signal| - 1] == 0.0
    requires LoopRecurrences(signal, C, order, varMin, definition, seed, m, e, v, t, h)
    modifies mean, variance, hos
    ensures mean[..] == m && variance[..] == v
    ensures |signal| >= 2 ==> hos[..] == h
    ensures |signal| == 1 ==> hos[..] == [Step(C, t[0], h[0])]
  {
    var n := |signal|;
    ghost var target := if n == 1 then [Step(C, t[0], h[0])] else h;
    for i := 0 to n
      invariant forall k :: 0 <= k < i ==> mean[k] == m[k]
      invariant forall k :: 0 <= k < i ==> variance[k] == v[k]
      invariant forall k :: 0 <= k < i ==> hos[k] == target[k]
      invariant i == 0 ==> mean[n - 1] == seed.mean && variance[n - 1] == seed.variance
      invariant i == 0 && n >= 2 ==> hos[n - 1] == 0.0
    {
      RecurrencesAt(signal, C, order, varMin, definition, seed, m, e, v, t, h, i);
      HosSample(signal, C, order, varMin, definition, mean, variance, hos, i, seed, m, e, v, t, h);
    }
    assert mean[..] == m && variance[..] == v;
    assert hos[..] == target;
  }

  /** One pass of the main loop of rec_hos_py: sample i of the mean, the
      variance and the HOS, each reading slot i - 1 with Python's
      wraparound. The requires are the recurrences at sample i. */
  method HosSample(signal: seq<real>, C: real, order: nat, varMin: real, definition: int,
                   mean: array<real>, variance: array<real>, hos: array<real>, i: nat,
                   ghost seed: Moments, ghost m: seq<real>, ghost e: seq<real>, ghost v: seq<real>,
                   ghost t: seq<real>, ghost h: seq<real>)
    requires mean != variance && variance != hos && mean != hos
    requires mean.Length == |signal| && variance.Length == |signal| && hos.Length == |signal|
    requires i < |signal| && |m| == |e| == |v| == |t| == |h| == |signal|
    requires m[i] == Step(C, signal[i], if i == 0 then seed.mean else m[i - 1])
    requires e[i] == signal[i] - (if definition == 0 && |signal| >= 2 then (if i == 0 then seed.mean else m[i - 1]) else m[i])
    requires v[i] == Step(C, Sq(e[i]), if i == 0 then seed.variance else v[i - 1])
    requires ReferenceClamp(v[i], varMin) != 0.0 && t[i] == Term(e[i], ReferenceClamp(v[i], varMin), order)
    requires h[i] == Step(C, t[i], if i == 0 then 0.0 else h[i - 1])
    requires mean[PyIndex(i - 1, |signal|)] == (if i == 0 then seed.mean else m[i - 1])
    requires variance[PyIndex(i - 1, |signal|)] == (if i == 0 then seed.variance else v[i - 1])
    requires i > 0 ==> hos[i - 1] == h[i - 1]
    requires i == 0 && |signal| >= 2 ==> hos[|signal| - 1] == 0.0
    modifies mean, variance, hos
    ensures mean[..] == old(mean[..])[i := m[i]]
    ensures variance[..] == old(variance[..])[i := v[i]]
    ensures hos[..] == old(hos[..])[i := if |signal| == 1 then Step(C, t[0], h[0]) else h[i]]
  {
    var n := |signal|;
    ghost var previous := if i == 0 then 0.0 else h[i - 1];
    ghost var target := if n == 1 then Step(C, t[0], h[0]) else h[i];
    if n == 1 {
      assert i == 0;
      SingleSampleStep(C, t[0], h[0]);
    } else {
      assert hos[PyIndex(i - 1, n)] == previous;
    }
    var centred, vi := MomentsSample(signal, C, definition, mean, variance, i, seed, m, e, v);
    HosUpdate(C, order, varMin, hos, i, vi, centred, t[i], previous, target);
  }

  /** On a single sample hos[-1] is the C·t[0] just written, so the step
      from it is the step from the smoothed value h[0]. */
  lemma SingleSampleStep(C: real, t0: real, h0: real)
    requires h0 == Step(C, t0, 0.0)
    ensures Step(C, t0, h0) == Step(C, t0, C * t0)
  {
  }

  /** The HOS part of one pass: the denominator rule of lines 330-333, the
      term written to hos[i], then the carried part of hos[i - 1] added,
      which on a single sample is the value just written. */
  method HosUpdate(C: real, order: nat, varMin: real, hos: array<real>, i: nat, vi: real, centred: real,
                   ghost ti: real, ghost previous: real, ghost target: real)
    requires i < hos.Length
    requires ReferenceClamp(vi, varMin) != 0.0 && ti == Term(centred, ReferenceClamp(vi, varMin), order)
    requires hos.Length == 1 ==> target == Step(C, ti, C * ti)
    requires hos.Length >= 2 ==> hos[PyIndex(i - 1, hos.Length)] == previous && target == Step(C, ti, previous)
    modifies hos
    ensures hos[..] == old(hos[..])[i := target]
  {
    var n := hos.Length;
    var d;
    if vi > varMin {
      d := if vi != 0.0 then vi else Eps;
    } else {
      d := varMin;
    }
    assert d == ReferenceClamp(vi, varMin);
    var x := Term(centred, d, order);
    assert x == ti;
    hos[i] := C * x;
    var carried := hos[PyIndex(i - 1, n)];
    if n == 1 {
      assert carried == C * ti;
    } else {
      assert PyIndex(i - 1, n) != i;
      assert carried == previous;
    }
    StepInTwo(C, x, hos[i], carried);
    hos[i] := hos[i] + (1.0 - C) * carried;
  }

  /** The mean and variance updates of one pass of the main loop of
      rec_hos_py. The results are the centred sample, which both the
      variance and the HOS take the power of, and the variance just
      written, which the denominator rule reads. */
  method MomentsSample(signal: seq<real>, C: real, definition: int,
                       mean: array<real>, variance: array<real>, i: nat,
                       ghost seed: Moments, ghost m: seq<real>, ghost e: seq<real>, ghost v: seq<real>)
                       returns (centred: real, vi: real)
    requires mean != variance
    requires mean.Length == |signal| && variance.Length == |signal|
    requires i < |signal| && |m| == |e| == |v| == |signal|
    requires m[i] == Step(C, signal[i], if i == 0 then seed.mean else m[i - 1])
    requires e[i] == signal[i] - (if definition == 0 && |signal| >= 2 then (if i == 0 then seed.mean else m[i - 1]) else m[i])
    requires v[i] == Step(C, Sq(e[i]), if i == 0 then seed.variance else v[i - 1])
    requires mean[PyIndex(i - 1, |signal|)] == (if i == 0 then seed.mean else m[i - 1])
    requires variance[PyIndex(i - 1, |signal|)] == (if i == 0 then seed.variance else v[i - 1])
    modifies mean, variance
    ensures mean[..] == old(mean[..])[i := m[i]]
    ensures variance[..] == old(variance[..])[i := v[i]]
    ensures centred == e[i] && vi == v[i]
  {
    var n := |signal|;
    mean[i] := Step(C, signal[i], mean[PyIndex(i - 1, n)]);
    centred := signal[i] - (if definition == 0 then mean[PyIndex(i - 1, n)] else mean[i]);
    variance[i] := Step(C, Sq(centred), variance[PyIndex(i - 1, n)]);
    vi := variance[i];
  }

  /** A step written as its two updates, C·x first and the carried part added. */
  lemma StepInTwo(C: real, x: real, first: real, carried: real)
    requires first == C * x
    ensures first + (1.0 - C) * carried == Step(C, x, carried)
  {
  }

  /** The recurrences of LoopRecurrences at sample i. */
  lemma RecurrencesAt(signal: seq<real>, C: real, order: nat, varMin: real, definition: int, seed: Moments,
                      m: seq<real>, e: seq<real>, v: seq<real>, t: seq<real>, h: seq<real>, i: nat)
    requires LoopRecurrences(signal, C, order, varMin, definition, seed, m, e, v, t, h)
    requires i < |signal|
    ensures m[i] == Step(C, signal[i], if i == 0 then seed.mean else m[i - 1])
    ensures e[i] == signal[i] - (if definition == 0 && |signal| >= 2 then (if i == 0 then seed.mean else m[i - 1]) else m[i])
    ensures v[i] == Step(C, Sq(e[i]), if i == 0 then seed.variance else v[i - 1])
    ensures ReferenceClamp(v[i], varMin) != 0.0 && t[i] == Term(e[i], ReferenceClamp(v[i], varMin), order)
    ensures h[i] == Step(C, t[i], if i == 0 then 0.0 else h[i - 1])
  {
    assert MeanSteps(signal, C, seed.mean, m);
    assert CentredSteps(signal, definition, seed.mean, m, e);
    assert SeededVarianceSteps(C, e, seed.variance, v);
    assert TermSteps(order, varMin, e, v, t);
    assert HosSteps(C, t, h);
    // These name the terms signal[i], e[i] and t[i], so the quantifiers of the predicates above fire at i.
    ghost var si := signal[i];
    ghost var ei := e[i];
    ghost var ti := t[i];
  }

  /** Sample k of the reference deviations, case by case. */
  lemma ReferenceCentredAt(signal: seq<real>, C: real, definition: int, seed: Moments, k: nat)
    requires k < |signal|
    ensures ReferenceCentred(signal, C, definition, seed)[k] ==
              signal[k] - (if definition == 0 && |signal| >= 2 then (if k == 0 then seed.mean else Filter(C, signal, Carried(C, seed.mean))[k - 1])
                           else Filter(C, signal, Carried(C, seed.mean))[k])
  {
  }

  lemma VariancesAt(C: real, e: seq<real>, seed: real, k: nat)
    requires ValidDecay(C) && seed >= 0.0 && k < |e|
    ensures Variances(C, e, seed)[k] == Step(C, Sq(e[k]), if k == 0 then seed else Variances(C, e, seed)[k - 1])
  {
    FilterCarried(C, Squares(e), seed, k);
  }

  lemma TermsAt(C: real, e: seq<real>, seed: real, order: nat, varMin: real, rule: ClampRule, k: nat)
    requires Admissible(C, seed, varMin, rule) && k < |e|
    ensures Clamp(rule, Variances(C, e, seed)[k], varMin) != 0.0
    ensures Terms(C, e, seed, order, varMin, rule)[k] == Term(e[k], Clamp(rule, Variances(C, e, seed)[k], varMin), order)
  {
    ClampNonZero(C, Variances(C, e, seed)[k], varMin, rule);
  }
}

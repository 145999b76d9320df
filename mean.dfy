/** Recursive mean, μ[i] = C·signal[i] + (1 - C)·μ[i - 1], in its two
    forms: the sample loop of rec_mean_py and the filter call of rec_mean. */
module Mean {
  import opened Rhos
  import opened Lfilter

  /** rec_mean: one pass of the filter from a zero state. */
  function FastMean(signal: seq<real>, C: real): (r: Result<seq<real>>)
    ensures r.Err? <==> !ValidDecay(C)
    ensures r.Err? ==> r.error == DecayOutOfRange
    ensures r.Ok? ==> |r.value| == |signal|
  {
    if !ValidDecay(C) then Err(DecayOutOfRange)
    else Ok(Filter(C, signal, 0.0))
  }

  /** The fast mean satisfies the documented recurrence
      μ[k] = C·signal[k] + (1 - C)·μ[k - 1] with μ[-1] = 0. */
  lemma FastMeanRecurrence(signal: seq<real>, C: real, k: nat)
    requires ValidDecay(C) && k < |signal|
    ensures FastMean(signal, C).value[k] ==
              C * signal[k] + (1.0 - C) * (if k == 0 then 0.0 else FastMean(signal, C).value[k - 1])
  {
    var m := Filter(C, signal, 0.0);
    assert FastMean(signal, C).value == m;
    if k > 0 {
      assert m[k] == Step(C, signal[k], m[k - 1]);
    }
  }

  /** rec_mean_py: the index loop over a zero-initialised array. At i = 0
      the loop reads mean[-1], the last slot, which is still zero, so the
      loop computes exactly what the filter from a zero state computes. */
  method ReferenceMean(signal: seq<real>, C: real) returns (r: Result<seq<real>>)
    ensures r == FastMean(signal, C)
  {
    if !(0.0 <= C <= 1.0) {
      return Err(DecayOutOfRange);
    }
    var n := |signal|;
    var mean := new real[n](_ => 0.0);
    ghost var target := Filter(C, signal, 0.0);
    for i := 0 to n
      invariant forall k :: 0 <= k < i ==> mean[k] == target[k]
      invariant forall k :: i <= k < n ==> mean[k] == 0.0
    {
      mean[i] := C * signal[i] + (1.0 - C) * mean[PyIndex(i - 1, n)];
    }
    assert mean[..] == target;
    return Ok(mean[..]);
  }

  /** The mean of an all-zero signal is all zero. */
  lemma MeanOfZeroSignal(signal: seq<real>, C: real)
    requires ValidDecay(C)
    requires forall k :: 0 <= k < |signal| ==> signal[k] == 0.0
    ensures forall k :: 0 <= k < |signal| ==> FastMean(signal, C).value[k] == 0.0
  {
    FilterOfZero(C, signal);
  }
}

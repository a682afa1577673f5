/**
 * The series generators: for a sequence of inter-arrival times they write,
 * cell by cell, the failure intensity and the expected cumulative number of
 * faults at each cumulative time. Both skip all work when the declared
 * parameter count is not 3. Results are stated against the arrays as they
 * were on entry, so they hold even when the output array is the input array
 * or the parameter array.
 */
module Series {
  import opened NumLib
  import opened Kernel

  /** The failure intensity of the process at time t: omega times the density. */
  function Intensity(lib: Lib, t: real, omega: real, shape: real, scale: real): real {
    omega * Pdf(lib, t, shape, scale)
  }

  /** Fills lambda[i] with omega * pdf at time[0] + ... + time[i], for i < dsize. */
  method RateSeries(lib: Lib, dsize: int, time: array<real>, lambda: array<real>,
                    npara: int, para: array<real>)
    requires npara == 3 ==> dsize <= time.Length && dsize <= lambda.Length && para.Length >= 3
    modifies lambda
    ensures npara != 3 ==> lambda[..] == old(lambda[..])
    ensures npara == 3 ==> forall i :: 0 <= i < dsize ==>
      lambda[i] == Intensity(lib, Cumulative(old(time[..]), i + 1), old(para[0]), old(para[2]), old(para[1]))
    ensures forall i :: 0 <= i < lambda.Length && dsize <= i ==> lambda[i] == old(lambda[i])
  {
    if npara != 3 {
      return;
    }
    var omega, shape, scale := para[0], para[2], para[1];
    ghost var spans := time[..];
    var t := 0.0;
    var i := 0;
    while i < dsize
      invariant 0 <= i <= if dsize < 0 then 0 else dsize
      invariant t == Cumulative(spans, i)
      invariant forall k :: i <= k < time.Length ==> time[k] == spans[k]
      invariant forall k :: 0 <= k < i ==> lambda[k] == Intensity(lib, Cumulative(spans, k + 1), omega, shape, scale)
      invariant forall k :: i <= k < lambda.Length ==> lambda[k] == old(lambda[k])
    {
      t := t + time[i];
      lambda[i] := omega * Pdf(lib, t, shape, scale);
      assert lambda[i] == Intensity(lib, t, omega, shape, scale);
      i := i + 1;
    }
  }

  /** Fills mean[i] with the mean value function at time[0] + ... + time[i], for i < dsize. */
  method MvfSeries(lib: Lib, dsize: int, time: array<real>, mean: array<real>,
                   npara: int, para: array<real>)
    requires npara == 3 ==> dsize <= time.Length && dsize <= mean.Length && para.Length >= 3
    modifies mean
    ensures npara != 3 ==> mean[..] == old(mean[..])
    ensures npara == 3 ==> forall i :: 0 <= i < dsize ==>
      mean[i] == Mvf(lib, Cumulative(old(time[..]), i + 1), old(para[0]), old(para[2]), old(para[1]))
    ensures forall i :: 0 <= i < mean.Length && dsize <= i ==> mean[i] == old(mean[i])
  {
    if npara != 3 {
      return;
    }
    var omega, shape, scale := para[0], para[2], para[1];
    ghost var spans := time[..];
    var t := 0.0;
    var i := 0;
    while i < dsize
      invariant 0 <= i <= if dsize < 0 then 0 else dsize
      invariant t == Cumulative(spans, i)
      invariant forall k :: i <= k < time.Length ==> time[k] == spans[k]
      invariant forall k :: 0 <= k < i ==> mean[k] == Mvf(lib, Cumulative(spans, k + 1), omega, shape, scale)
      invariant forall k :: i <= k < mean.Length ==> mean[k] == old(mean[k])
    {
      t := t + time[i];
      mean[i] := Mvf(lib, t, omega, shape, scale);
      i := i + 1;
    }
  }

  // ---------------------------------------------------------------------
  // Properties of the series

  /**
   * The expected-fault series never decreases along the data: with
   * non-negative spans, a positive first span, omega >= 0 and shape > 0,
   * the value written at cell i is at most the value written at cell j >= i.
   */
  lemma MvfSeriesNondecreasing(lib: Lib, spans: seq<real>, i: nat, j: nat,
                               omega: real, shape: real, scale: real)
    requires ExpIncreasing(lib) && LogIncreasing(lib)
    requires i <= j < |spans|
    requires spans[0] > 0.0 && forall k :: 0 <= k < |spans| ==> spans[k] >= 0.0
    requires omega >= 0.0 && shape > 0.0
    ensures Mvf(lib, Cumulative(spans, i + 1), omega, shape, scale)
         <= Mvf(lib, Cumulative(spans, j + 1), omega, shape, scale)
  {
    CumulativePositive(spans, i + 1);
    CumulativeMonotone(spans, i + 1, j + 1);
    MvfNondecreasing(lib, Cumulative(spans, i + 1), Cumulative(spans, j + 1), omega, shape, scale);
  }

  /**
   * The intensity series is positive in every cell: with non-negative spans,
   * a positive first span, omega > 0 and shape > 0.
   */
  lemma RateSeriesPositive(lib: Lib, spans: seq<real>, i: nat,
                           omega: real, shape: real, scale: real)
    requires ExpPositive(lib)
    requires i < |spans|
    requires spans[0] > 0.0 && forall k :: 0 <= k < |spans| ==> spans[k] >= 0.0
    requires omega > 0.0 && shape > 0.0
    ensures Intensity(lib, Cumulative(spans, i + 1), omega, shape, scale) > 0.0
  {
    CumulativePositive(spans, i + 1);
    PdfPositive(lib, Cumulative(spans, i + 1), shape, scale);
  }
}

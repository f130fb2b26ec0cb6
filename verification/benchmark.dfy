/** The benchmark summary: averages over the latency samples of a session. */
module Benchmark {

  /** `(avg_fps, avg_latency)` as `get_benchmark_results` returns them. */
  datatype BenchmarkResult = BenchmarkResult(avgFps: real, avgLatency: real)

  /** Python's `sum` over the samples, with exact reals. */
  function Sum(xs: seq<real>): real
    decreases |xs|
  {
    if xs == [] then 0.0 else Sum(xs[..|xs| - 1]) + xs[|xs| - 1]
  }

  /**
   * `get_benchmark_results`: `(0, 0)` without samples; otherwise the mean
   * latency and the frame rate it implies, `1000 / mean` (latencies are in
   * milliseconds), or 0 when the mean is not positive.
   */
  function Averages(data: seq<real>): (r: BenchmarkResult)
    ensures data == [] ==> r == BenchmarkResult(0.0, 0.0)
    ensures data != [] ==> r.avgLatency * |data| as real == Sum(data)
    ensures r.avgLatency > 0.0 ==> r.avgFps * r.avgLatency == 1000.0
    ensures r.avgLatency <= 0.0 ==> r.avgFps == 0.0
    ensures r == BenchmarkResult(0.0, 0.0) <==> data == [] || Sum(data) == 0.0
  {
    if data == [] then BenchmarkResult(0.0, 0.0)
    else
      var avg := Sum(data) / |data| as real;
      BenchmarkResult(if avg > 0.0 then 1000.0 / avg else 0.0, avg)
  }

  /** The sum of samples lying between `lo` and `hi` lies between `n * lo` and `n * hi`. */
  lemma {:induction false} SumBounds(xs: seq<real>, lo: real, hi: real)
    requires forall i :: 0 <= i < |xs| ==> lo <= xs[i] <= hi
    ensures |xs| as real * lo <= Sum(xs) <= |xs| as real * hi
    decreases |xs|
  {
    if xs != [] {
      var n := |xs| - 1;
      SumBounds(xs[..n], lo, hi);
      assert Sum(xs) == Sum(xs[..n]) + xs[n];
      assert |xs| as real * lo == n as real * lo + lo;
      assert |xs| as real * hi == n as real * hi + hi;
    }
  }

  /** The sum of positive samples is positive. */
  lemma {:induction false} SumPositive(xs: seq<real>)
    requires xs != []
    requires forall i :: 0 <= i < |xs| ==> xs[i] > 0.0
    ensures Sum(xs) > 0.0
    decreases |xs|
  {
    if |xs| > 1 {
      SumPositive(xs[..|xs| - 1]);
    }
  }

  /** The mean latency lies between any lower and upper bound of the samples. */
  lemma MeanWithinSamples(data: seq<real>, lo: real, hi: real)
    requires data != []
    requires forall i :: 0 <= i < |data| ==> lo <= data[i] <= hi
    ensures lo <= Averages(data).avgLatency <= hi
  {
    var avg := Averages(data).avgLatency;
    var n := |data| as real;
    SumBounds(data, lo, hi);
    assert avg * n == Sum(data);
    CancelPositive(lo, avg, n);
    CancelPositive(avg, hi, n);
  }

  /** For positive bounds on the samples, the reported rate lies between `1000 / hi` and `1000 / lo`. */
  lemma RateWithinSamples(data: seq<real>, lo: real, hi: real)
    requires data != [] && 0.0 < lo <= hi
    requires forall i :: 0 <= i < |data| ==> lo <= data[i] <= hi
    ensures 1000.0 / hi <= Averages(data).avgFps <= 1000.0 / lo
  {
    MeanWithinSamples(data, lo, hi);
    var r := Averages(data);
    assert r.avgFps == 1000.0 / r.avgLatency;
    RateDecreases(r.avgLatency, hi);
    RateDecreases(lo, r.avgLatency);
  }

  /** Dividing both sides of an inequality by a positive count. */
  lemma CancelPositive(a: real, b: real, n: real)
    requires n > 0.0 && n * a <= b * n
    ensures a <= b
  {
  }

  /** A longer latency means a lower rate. */
  lemma RateDecreases(a: real, b: real)
    requires 0.0 < a <= b
    ensures 1000.0 / b <= 1000.0 / a
  {
  }

  /** When every sample is a positive latency, the result is never `(0, 0)`. */
  lemma PositiveSamplesReport(data: seq<real>)
    requires data != []
    requires forall i :: 0 <= i < |data| ==> data[i] > 0.0
    ensures Averages(data).avgLatency > 0.0 && Averages(data).avgFps > 0.0
  {
    SumPositive(data);
    var r := Averages(data);
    assert r.avgLatency * |data| as real > 0.0;
    assert r.avgFps * r.avgLatency == 1000.0;
  }

  /** Latencies of 10, 20 and 30 ms average to 20 ms, that is 50 frames per second. */
  lemma ThreeSampleExample()
    ensures Averages([10.0, 20.0, 30.0]) == BenchmarkResult(50.0, 20.0)
  {
    var xs := [10.0, 20.0, 30.0];
    assert xs[..2] == [10.0, 20.0] && xs[..2][..1] == [10.0] && xs[..2][..1][..0] == [];
    assert Sum([10.0]) == 10.0;
    assert Sum([10.0, 20.0]) == 30.0;
    assert Sum(xs) == 60.0;
  }
}

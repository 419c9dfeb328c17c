/**
 * The threshold classifier (analyzer.h, analyzer.cpp).
 *
 * For every value of the batch, in order, the analyzer looks for the lowest
 * threshold index j with value > thresholds[j]; when it finds one, the status
 * becomes j. A value that crosses no threshold leaves the status as it was.
 * The status therefore reflects only the LAST value that crossed anything,
 * and for that value only its lowest crossed index.
 */
module Analyzers {
  import opened Wrappers
  import opened SensorTypes

  /** thresholds[HEALTH_STATUS_CRITICAL_HIGH + 1] */
  type Thresholds = t: seq<real> | |t| == 5 witness [0.0, 0.0, 0.0, 0.0, 0.0]

  /** analyzerConfig_t */
  datatype AnalyzerConfig = AnalyzerConfig(thresholds: Thresholds, sensorType: SensorType, sampleType: SampleType)

  /** The lowest index j >= from such that v > t[j], if there is one. */
  function FirstCrossedFrom(t: Thresholds, v: real, from: nat): (r: Option<HealthStatus>)
    requires from <= 5
    decreases 5 - from
    ensures r.Some? ==> from <= r.value && v > t[r.value]
    ensures r.Some? ==> forall i :: from <= i < r.value ==> v <= t[i]
    ensures r.None? ==> forall i :: from <= i < 5 ==> v <= t[i]
  {
    if from == 5 then None
    else if v > t[from] then Some(from)
    else FirstCrossedFrom(t, v, from + 1)
  }

  /** The status one value alone selects: its lowest crossed threshold index, or nothing. */
  function FirstCrossed(t: Thresholds, v: real): (r: Option<HealthStatus>)
    ensures r.Some? ==> v > t[r.value] && forall i :: 0 <= i < r.value ==> v <= t[i]
    ensures r.None? <==> forall i :: 0 <= i < 5 ==> v <= t[i]
  {
    FirstCrossedFrom(t, v, 0)
  }

  /**
   * The reference scan: the status after classifying `values` from first to
   * last, starting from HEALTH_STATUS_NORMAL. Written as a left fold, so the
   * last value of the batch decides first.
   */
  function Scan(t: Thresholds, values: seq<real>): HealthStatus
  {
    if |values| == 0 then HEALTH_STATUS_NORMAL
    else match FirstCrossed(t, values[|values| - 1])
      case Some(j) => j
      case None => Scan(t, values[..|values| - 1])
  }

  /** One more value: it overwrites the status exactly when it crosses some threshold. */
  lemma ScanSnoc(t: Thresholds, values: seq<real>, v: real)
    ensures Scan(t, values + [v]) == match FirstCrossed(t, v)
                                     case Some(j) => j
                                     case None => Scan(t, values)
  {
    assert (values + [v])[..|values|] == values;
  }

  /** A batch in which no value crosses any threshold classifies as NORMAL. */
  lemma {:induction false} ScanQuiet(t: Thresholds, values: seq<real>)
    requires forall k :: 0 <= k < |values| ==> FirstCrossed(t, values[k]).None?
    ensures Scan(t, values) == HEALTH_STATUS_NORMAL
  {
    if |values| > 0 {
      var front := values[..|values| - 1];
      assert forall k :: 0 <= k < |front| ==> front[k] == values[k];
      ScanQuiet(t, front);
    }
  }

  /**
   * Last write wins: when values[k] is the last value of the batch that
   * crosses a threshold, the result is values[k]'s own lowest crossed index,
   * whatever the values before it selected.
   */
  lemma {:induction false} ScanLastCrossing(t: Thresholds, values: seq<real>, k: nat)
    requires k < |values| && FirstCrossed(t, values[k]).Some?
    requires forall m :: k < m < |values| ==> FirstCrossed(t, values[m]).None?
    ensures Scan(t, values) == FirstCrossed(t, values[k]).value
  {
    if k < |values| - 1 {
      var front := values[..|values| - 1];
      assert forall m :: 0 <= m < |front| ==> front[m] == values[m];
      ScanLastCrossing(t, front, k);
    }
  }

  /** A single value: its lowest crossed index, or NORMAL when it crosses none. */
  lemma SingleValue(t: Thresholds, v: real, j: HealthStatus)
    ensures Scan(t, [v]) == j <==>
              (v > t[j] && forall i :: 0 <= i < j ==> v <= t[i]) ||
              (j == HEALTH_STATUS_NORMAL && forall i :: 0 <= i < 5 ==> v <= t[i])
  {
  }

  /** Any value above thresholds[0] selects CRITICAL_LOW, whatever the other four thresholds are. */
  lemma AboveLowestThreshold(t: Thresholds, values: seq<real>)
    requires |values| > 0 && values[|values| - 1] > t[0]
    ensures Scan(t, values) == HEALTH_STATUS_CRITICAL_LOW
  {
  }

  /** A value that crosses nothing leaves the status established by the earlier values. */
  lemma QuietValueKeepsStatus(t: Thresholds, values: seq<real>, v: real)
    requires forall i :: 0 <= i < 5 ==> v <= t[i]
    ensures Scan(t, values + [v]) == Scan(t, values)
  {
    ScanSnoc(t, values, v);
  }

  /** The heart-rate thresholds of the sample configuration. */
  const EXAMPLE_THRESHOLDS: Thresholds := [0.0, 60.0, 100.0, 140.0, 180.0]

  /**
   * With thresholds [0,60,100,140,180] every positive value is CRITICAL_LOW,
   * so 150 and 190 are CRITICAL_LOW too, and the batch [190, 10] ends at
   * CRITICAL_LOW because 10 > 0 overwrites whatever 190 selected.
   */
  lemma ExampleThresholds(v: real)
    requires v > 0.0
    ensures Scan(EXAMPLE_THRESHOLDS, [v]) == HEALTH_STATUS_CRITICAL_LOW
    ensures Scan(EXAMPLE_THRESHOLDS, [190.0, 10.0]) == HEALTH_STATUS_CRITICAL_LOW
    ensures Scan(EXAMPLE_THRESHOLDS, [150.0]) == HEALTH_STATUS_CRITICAL_LOW
    ensures Scan(EXAMPLE_THRESHOLDS, [-5.0]) == HEALTH_STATUS_NORMAL
  {
    ScanSnoc(EXAMPLE_THRESHOLDS, [190.0], 10.0);
    assert [190.0] + [10.0] == [190.0, 10.0];
  }

  /** Analyzer: an immutable configuration and the classification over it. */
  class Analyzer {
    const config: AnalyzerConfig

    constructor (config: AnalyzerConfig)
      ensures this.config == config
    {
      this.config := config;
    }

    /**
     * Analyze: the nested scan with its early break. It changes nothing (no
     * modifies clause) and its result is the reference scan of the batch.
     */
    method Analyze(data: Data) returns (status: HealthStatus)
      ensures status == Scan(config.thresholds, data.values)
      ensures |data.values| == 0 ==> status == HEALTH_STATUS_NORMAL
    {
      var t := config.thresholds;
      var values := data.values;
      status := HEALTH_STATUS_NORMAL;
      var i := 0;
      while i < |values|
        invariant 0 <= i <= |values|
        invariant status == Scan(t, values[..i])
      {
        var v := values[i];
        ghost var before := status;
        var j := 0;
        while j < HEALTH_STATUS_CRITICAL_HIGH + 1
          invariant 0 <= j <= 5
          invariant status == before
          invariant FirstCrossedFrom(t, v, j) == FirstCrossed(t, v)
        {
          if v > t[j] {
            status := j;
            break;
          }
          j := j + 1;
        }
        assert status == match FirstCrossed(t, v) case Some(k) => k case None => before;
        assert values[..i + 1] == values[..i] + [v];
        ScanSnoc(t, values[..i], v);
        i := i + 1;
      }
      assert values[..i] == values;
    }
  }
}

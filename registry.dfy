/**
 * The sensor/analyzer registry (state.h, state.cpp): two fixed slot arrays,
 * first-free-slot insertion that never overwrites and never grows, and
 * linear first-match lookup returning null when nothing matches.
 *
 * Both insertion and lookup look at the first SENSOR_TYPE_QTT (2) slots only,
 * also in the analyzer array, which is declared with SAMPLE_TYPE_QTT (4)
 * slots: the last two analyzer slots are never used.
 */
module Registry {
  import opened Wrappers
  import opened SensorTypes
  import opened Analyzers

  /** A registered sensor: its identity (the pointer) and the kind GetType reports. */
  datatype SensorHandle = SensorHandle(id: nat, kind: SensorType)

  /** The lowest empty slot in [from, bound), if any. */
  function FirstFree<T>(slots: seq<Option<T>>, bound: nat, from: nat): (r: Option<nat>)
    requires from <= bound <= |slots|
    decreases bound - from
    ensures r.Some? ==> from <= r.value < bound && slots[r.value].None?
    ensures r.Some? ==> forall j :: from <= j < r.value ==> slots[j].Some?
    ensures r.None? ==> forall j :: from <= j < bound ==> slots[j].Some?
  {
    if from == bound then None
    else if slots[from].None? then Some(from)
    else FirstFree(slots, bound, from + 1)
  }

  /** The lowest occupied slot in [from, bound) whose entry satisfies p, if any. */
  function FirstMatch<T>(slots: seq<Option<T>>, bound: nat, from: nat, p: T -> bool): (r: Option<nat>)
    requires from <= bound <= |slots|
    decreases bound - from
    ensures r.Some? ==> from <= r.value < bound && slots[r.value].Some? && p(slots[r.value].value)
    ensures r.Some? ==> forall j :: from <= j < r.value ==> slots[j].None? || !p(slots[j].value)
    ensures r.None? ==> forall j :: from <= j < bound ==> slots[j].None? || !p(slots[j].value)
  {
    if from == bound then None
    else if slots[from].Some? && p(slots[from].value) then Some(from)
    else FirstMatch(slots, bound, from + 1, p)
  }

  /** The outcome of an insertion: success and the slots afterwards. */
  datatype Insertion<T> = Insertion(ok: bool, slots: seq<Option<T>>)

  /** Store x in the first free slot below bound; fail, changing nothing, when there is none. */
  function InsertFirstFree<T>(slots: seq<Option<T>>, bound: nat, x: T): (r: Insertion<T>)
    requires bound <= |slots|
  {
    match FirstFree(slots, bound, 0)
    case None => Insertion(false, slots)
    case Some(i) => Insertion(true, slots[i := Some(x)])
  }

  /**
   * Insertion never overwrites and never grows: it succeeds exactly when a
   * slot below bound is free, then fills the lowest such slot with x and
   * leaves every other slot as it was; on failure nothing changes.
   */
  lemma InsertionFacts<T>(slots: seq<Option<T>>, bound: nat, x: T)
    requires bound <= |slots|
    ensures var r := InsertFirstFree(slots, bound, x);
      |r.slots| == |slots| &&
      (r.ok <==> exists j :: 0 <= j < bound && slots[j].None?) &&
      (!r.ok ==> r.slots == slots) &&
      (r.ok ==> exists i :: 0 <= i < bound && slots[i].None? &&
                 (forall j :: 0 <= j < i ==> slots[j].Some?) &&
                 r.slots[i] == Some(x) &&
                 forall j :: 0 <= j < |slots| && j != i ==> r.slots[j] == slots[j])
  {
  }

  function SensorIndex(slots: seq<Option<SensorHandle>>, kind: SensorType): Option<nat>
    requires SENSOR_TYPE_QTT <= |slots|
  {
    FirstMatch(slots, SENSOR_TYPE_QTT, 0, (h: SensorHandle) => h.kind == kind)
  }

  /** GetSensor's answer: the lowest-index registered sensor of that kind, or null. */
  function LookupSensor(slots: seq<Option<SensorHandle>>, kind: SensorType): (r: Option<SensorHandle>)
    requires SENSOR_TYPE_QTT <= |slots|
    ensures r.Some? ==> r.value.kind == kind
    ensures r.Some? <==> exists i :: 0 <= i < SENSOR_TYPE_QTT && slots[i].Some? && slots[i].value.kind == kind
  {
    match SensorIndex(slots, kind)
    case None => None
    case Some(i) => slots[i]
  }

  /** GetSensor's scan stops at the first match: the answer sits in a slot with no earlier sensor of that kind. */
  lemma LookupSensorFirst(slots: seq<Option<SensorHandle>>, kind: SensorType)
    requires SENSOR_TYPE_QTT <= |slots|
    ensures var r := LookupSensor(slots, kind);
      r.Some? ==> exists i :: 0 <= i < SENSOR_TYPE_QTT && slots[i] == r &&
                              forall j :: 0 <= j < i ==> slots[j].None? || slots[j].value.kind != kind
  {
    var r := LookupSensor(slots, kind);
    if r.Some? {
      var i := SensorIndex(slots, kind).value;
      assert slots[i] == r;
    }
  }

  function AnalyzerIndex(slots: seq<Option<Analyzer>>, kind: SensorType, sample: SampleType): Option<nat>
    requires SENSOR_TYPE_QTT <= |slots|
  {
    FirstMatch(slots, SENSOR_TYPE_QTT, 0,
               (a: Analyzer) => a.config.sensorType == kind && a.config.sampleType == sample)
  }

  /** GetAnalyzer's answer: the first analyzer configured for both keys, or null. */
  function LookupAnalyzer(slots: seq<Option<Analyzer>>, kind: SensorType, sample: SampleType): (r: Option<Analyzer>)
    requires SENSOR_TYPE_QTT <= |slots|
    ensures r.Some? ==> r.value.config.sensorType == kind && r.value.config.sampleType == sample
    ensures r.Some? <==> exists i :: 0 <= i < SENSOR_TYPE_QTT && slots[i].Some? &&
                                     slots[i].value.config.sensorType == kind &&
                                     slots[i].value.config.sampleType == sample
  {
    match AnalyzerIndex(slots, kind, sample)
    case None => None
    case Some(i) => slots[i]
  }

  /** GetAnalyzer's scan stops at the first match: the answer sits in a slot with no earlier analyzer for both keys. */
  lemma LookupAnalyzerFirst(slots: seq<Option<Analyzer>>, kind: SensorType, sample: SampleType)
    requires SENSOR_TYPE_QTT <= |slots|
    ensures var r := LookupAnalyzer(slots, kind, sample);
      r.Some? ==> exists i :: 0 <= i < SENSOR_TYPE_QTT && slots[i] == r &&
                              forall j :: 0 <= j < i ==> slots[j].None? ||
                                                         slots[j].value.config.sensorType != kind ||
                                                         slots[j].value.config.sampleType != sample
  {
    var r := LookupAnalyzer(slots, kind, sample);
    if r.Some? {
      var i := AnalyzerIndex(slots, kind, sample).value;
      assert slots[i] == r;
    }
  }

  /**
   * Even though the analyzer array has four slots, a third analyzer is
   * refused: only the first two slots are ever filled.
   */
  lemma ThirdAnalyzerRejected(a: Analyzer, b: Analyzer, c: Analyzer)
    ensures var empty: seq<Option<Analyzer>> := [None, None, None, None];
      var r1 := InsertFirstFree(empty, SENSOR_TYPE_QTT, a);
      var r2 := InsertFirstFree(r1.slots, SENSOR_TYPE_QTT, b);
      var r3 := InsertFirstFree(r2.slots, SENSOR_TYPE_QTT, c);
      r1.ok && r2.ok && !r3.ok && r3.slots == [Some(a), Some(b), None, None]
  {
    var empty: seq<Option<Analyzer>> := [None, None, None, None];
    assert FirstFree(empty, 2, 0) == Some(0);
    var s1 := empty[0 := Some(a)];
    assert FirstFree(s1, 2, 0) == Some(1);
    var s2 := s1[1 := Some(b)];
    assert FirstFree(s2, 2, 0) == None;
  }

  /**
   * No duplicate check: the same sensor added twice occupies both slots, and
   * a lookup of its kind answers with slot 0.
   */
  lemma DuplicateSensor(h: SensorHandle)
    ensures var empty: seq<Option<SensorHandle>> := [None, None];
      var r1 := InsertFirstFree(empty, SENSOR_TYPE_QTT, h);
      var r2 := InsertFirstFree(r1.slots, SENSOR_TYPE_QTT, h);
      r1.ok && r2.ok && r2.slots == [Some(h), Some(h)] &&
      SensorIndex(r2.slots, h.kind) == Some(0)
  {
    var empty: seq<Option<SensorHandle>> := [None, None];
    assert FirstFree(empty, 2, 0) == Some(0);
    var s1 := empty[0 := Some(h)];
    assert FirstFree(s1, 2, 0) == Some(1);
  }

  /** State: the registry part of the collection state. */
  class State {
    const sensorArray: array<Option<SensorHandle>>
    const analyzerArray: array<Option<Analyzer>>
    var popRequested: bool
    var quitRequested: bool

    ghost predicate Valid()
      reads this
    {
      sensorArray.Length == SENSOR_TYPE_QTT && analyzerArray.Length == SAMPLE_TYPE_QTT
    }

    /** Every slot starts empty, so every lookup answers null. */
    constructor ()
      ensures Valid() && fresh(sensorArray) && fresh(analyzerArray)
      ensures forall i :: 0 <= i < sensorArray.Length ==> sensorArray[i].None?
      ensures forall i :: 0 <= i < analyzerArray.Length ==> analyzerArray[i].None?
      ensures forall k: SensorType :: LookupSensor(sensorArray[..], k).None?
      ensures forall k: SensorType, s: SampleType :: LookupAnalyzer(analyzerArray[..], k, s).None?
      ensures !popRequested && !quitRequested
    {
      sensorArray := new Option<SensorHandle>[SENSOR_TYPE_QTT](_ => None);
      analyzerArray := new Option<Analyzer>[SAMPLE_TYPE_QTT](_ => None);
      popRequested, quitRequested := false, false;
    }

    /** AddSensor: first free of the SENSOR_TYPE_QTT slots. */
    method AddSensor(sensor: SensorHandle) returns (ok: bool)
      requires Valid()
      modifies sensorArray
      ensures Insertion(ok, sensorArray[..]) == InsertFirstFree(old(sensorArray[..]), SENSOR_TYPE_QTT, sensor)
    {
      ghost var before := sensorArray[..];
      for i := 0 to SENSOR_TYPE_QTT
        invariant sensorArray[..] == before
        invariant FirstFree(before, SENSOR_TYPE_QTT, 0) == FirstFree(before, SENSOR_TYPE_QTT, i)
      {
        if sensorArray[i].None? {
          sensorArray[i] := Some(sensor);
          return true;
        }
      }
      return false;
    }

    /** GetSensor: linear scan, first match wins. It changes nothing. */
    method GetSensor(kind: SensorType) returns (r: Option<SensorHandle>)
      requires Valid()
      ensures r == LookupSensor(sensorArray[..], kind)
    {
      for i := 0 to SENSOR_TYPE_QTT
        invariant SensorIndex(sensorArray[..], kind) ==
                  FirstMatch(sensorArray[..], SENSOR_TYPE_QTT, i, (h: SensorHandle) => h.kind == kind)
      {
        if sensorArray[i].Some? && sensorArray[i].value.kind == kind {
          return sensorArray[i];
        }
      }
      return None;
    }

    /** AddAnalyzer: first free of the first SENSOR_TYPE_QTT slots (not all SAMPLE_TYPE_QTT). */
    method AddAnalyzer(analyzer: Analyzer) returns (ok: bool)
      requires Valid()
      modifies analyzerArray
      ensures Insertion(ok, analyzerArray[..]) == InsertFirstFree(old(analyzerArray[..]), SENSOR_TYPE_QTT, analyzer)
    {
      ghost var before := analyzerArray[..];
      for i := 0 to SENSOR_TYPE_QTT
        invariant analyzerArray[..] == before
        invariant FirstFree(before, SENSOR_TYPE_QTT, 0) == FirstFree(before, SENSOR_TYPE_QTT, i)
      {
        if analyzerArray[i].None? {
          analyzerArray[i] := Some(analyzer);
          return true;
        }
      }
      return false;
    }

    /** GetAnalyzer: the first slot matching both the sensor type and the sample type. It changes nothing. */
    method GetAnalyzer(kind: SensorType, sample: SampleType) returns (r: Option<Analyzer>)
      requires Valid()
      ensures r == LookupAnalyzer(analyzerArray[..], kind, sample)
    {
      for i := 0 to SENSOR_TYPE_QTT
        invariant AnalyzerIndex(analyzerArray[..], kind, sample) ==
                  FirstMatch(analyzerArray[..], SENSOR_TYPE_QTT, i,
                             (a: Analyzer) => a.config.sensorType == kind && a.config.sampleType == sample)
      {
        var entry := analyzerArray[i];
        if entry.Some? && entry.value.config.sensorType == kind && entry.value.config.sampleType == sample {
          return entry;
        }
      }
      return None;
    }
  }
}

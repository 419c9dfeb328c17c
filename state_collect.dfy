/**
 * One collection tick (state_collect.h, state_collect.cpp).
 *
 * A tick prints the "collecting" banner, calls Update on every registered
 * sensor in slot order, then for every sensor kind that GetSensor finds, in
 * ascending kind order, tries to drain each entry of wanted_samples in table
 * order. A successful drain prints its first value on display line
 * sample_index + 1 and, when an analyzer exists for the (kind, sample) pair,
 * classifies the batch and prints the status on line 7. The display frame is
 * rendered once, at the end. Every display call is skipped when no OLED is set.
 *
 * Sensors are abstract here: the registry holds handles, the effect of a
 * sensor's Update is not modelled, and what each getData returns during the
 * tick is the parameter `drain`. The tick is observed through the trace of
 * the calls it makes to sensors, analyzers and the display.
 */
module Collect {
  import opened Wrappers
  import opened SensorTypes
  import opened Analyzers
  import opened Registry

  /**
   * wanted_samples. It is declared with SAMPLE_TYPE_QTT entries; its
   * initializer names constants that sensor.h does not declare, so the model
   * uses the four declared sample types in their enumeration order.
   */
  const WANTED_SAMPLES: seq<SampleType> :=
    [SAMPLE_TYPE_SPO2, SAMPLE_TYPE_HEART_RATE, SAMPLE_TYPE_TEMPERATURE, SAMPLE_TYPE_ACCEL]

  /** The status line is printed on this display line. */
  const STATUS_LINE: nat := 7

  /** What a display line shows: the banner, "S.. T.. V.." for a sample, "H.." for a status. */
  datatype Text =
    | Collecting
    | SampleLine(kind: SensorType, sample: SampleType, value: real)
    | StatusLine(status: HealthStatus)

  /** The calls a tick makes, in order. */
  datatype Event =
    | SensorUpdate(sensor: SensorHandle)
    | DrainAttempt(sensor: SensorHandle, sample: SampleType)
    | Analysis(kind: SensorType, sample: SampleType, status: HealthStatus)
    | Print(line: nat, text: Text)
    | Render

  /** What getData returns for a sensor and a sample type during this tick. */
  type Drain = (SensorHandle, SampleType) -> Option<Data>

  /**
   * A successful getData always hands out at least one value. Both sensors
   * promise this: Accelerometers.Accelerometer.GetData succeeds only when the
   * magnitude buffer was non-empty, and Oximeters.Oximeter.GetData only when
   * the asked channel was, and each hands out that buffer's old contents.
   */
  ghost predicate DrainsNonEmpty(drain: Drain)
  {
    forall h: SensorHandle, s: SampleType :: drain(h, s).Some? ==> |drain(h, s).value.values| > 0
  }

  /** PrintOled: the display call, or nothing without an OLED. */
  function PrintIf(oled: bool, line: nat, text: Text): seq<Event>
  {
    if oled then [Print(line, text)] else []
  }

  /** The events for wanted_samples[idx] of the sensor h of the given kind. */
  function SampleEvents(h: SensorHandle, kind: SensorType, idx: nat, analyzers: seq<Option<Analyzer>>,
                        oled: bool, drain: Drain): seq<Event>
    requires idx < SAMPLE_TYPE_QTT && SENSOR_TYPE_QTT <= |analyzers| && DrainsNonEmpty(drain)
  {
    var sample := WANTED_SAMPLES[idx];
    [DrainAttempt(h, sample)] +
    DrainedEvents(kind, idx, drain(h, sample), LookupAnalyzer(analyzers, kind, sample), oled)
  }

  /** What follows the drain of wanted_samples[idx]: nothing on an empty drain, else its line and the analysis. */
  function DrainedEvents(kind: SensorType, idx: nat, data: Option<Data>, analyzer: Option<Analyzer>,
                         oled: bool): seq<Event>
    requires idx < SAMPLE_TYPE_QTT && (data.Some? ==> |data.value.values| > 0)
  {
    var sample := WANTED_SAMPLES[idx];
    match data
    case None => []
    case Some(d) =>
      PrintIf(oled, idx + 1, SampleLine(kind, sample, d.values[0])) +
      match analyzer
      case None => []
      case Some(a) =>
        var status := Scan(a.config.thresholds, d.values);
        [Analysis(kind, sample, status)] + PrintIf(oled, STATUS_LINE, StatusLine(status))
  }

  /** The blocks of wanted_samples[0..n) of sensor h, one per wanted sample. */
  function SampleBlocks(h: SensorHandle, kind: SensorType, n: nat, analyzers: seq<Option<Analyzer>>,
                        oled: bool, drain: Drain): seq<seq<Event>>
    requires n <= SAMPLE_TYPE_QTT && SENSOR_TYPE_QTT <= |analyzers| && DrainsNonEmpty(drain)
  {
    seq(n, i requires 0 <= i < n => SampleEvents(h, kind, i, analyzers, oled, drain))
  }

  /** The events for wanted_samples[0..n) of sensor h. */
  function SamplesUpTo(h: SensorHandle, kind: SensorType, n: nat, analyzers: seq<Option<Analyzer>>,
                       oled: bool, drain: Drain): seq<Event>
    requires n <= SAMPLE_TYPE_QTT && SENSOR_TYPE_QTT <= |analyzers| && DrainsNonEmpty(drain)
  {
    Concat(SampleBlocks(h, kind, n, analyzers, oled, drain))
  }

  /** The events for one sensor kind: none when GetSensor finds no sensor of that kind. */
  function KindEvents(slots: seq<Option<SensorHandle>>, kind: SensorType, analyzers: seq<Option<Analyzer>>,
                      oled: bool, drain: Drain): seq<Event>
    requires SENSOR_TYPE_QTT <= |slots| && SENSOR_TYPE_QTT <= |analyzers| && DrainsNonEmpty(drain)
  {
    match LookupSensor(slots, kind)
    case None => []
    case Some(h) => SamplesUpTo(h, kind, SAMPLE_TYPE_QTT, analyzers, oled, drain)
  }

  /** The blocks of sensor kinds 0..n-1, one per kind. */
  function KindBlocks(slots: seq<Option<SensorHandle>>, n: nat, analyzers: seq<Option<Analyzer>>,
                      oled: bool, drain: Drain): seq<seq<Event>>
    requires n <= SENSOR_TYPE_QTT <= |slots| && SENSOR_TYPE_QTT <= |analyzers| && DrainsNonEmpty(drain)
  {
    seq(n, k requires 0 <= k < n => KindEvents(slots, k, analyzers, oled, drain))
  }

  /** The events of the blocks, in order. */
  function Concat(bs: seq<seq<Event>>): seq<Event>
  {
    if |bs| == 0 then [] else Concat(bs[..|bs| - 1]) + bs[|bs| - 1]
  }

  /** The drain phase for sensor kinds 0..n-1. */
  function DrainsUpTo(slots: seq<Option<SensorHandle>>, n: nat, analyzers: seq<Option<Analyzer>>,
                      oled: bool, drain: Drain): seq<Event>
    requires n <= SENSOR_TYPE_QTT <= |slots| && SENSOR_TYPE_QTT <= |analyzers| && DrainsNonEmpty(drain)
  {
    Concat(KindBlocks(slots, n, analyzers, oled, drain))
  }

  /** The update phase for slots 0..n-1. */
  function UpdatesUpTo(slots: seq<Option<SensorHandle>>, n: nat): seq<Event>
    requires n <= |slots|
  {
    if n == 0 then []
    else UpdatesUpTo(slots, n - 1) + match slots[n - 1] case None => [] case Some(h) => [SensorUpdate(h)]
  }

  /** The whole tick. */
  function TickTrace(slots: seq<Option<SensorHandle>>, analyzers: seq<Option<Analyzer>>,
                     oled: bool, drain: Drain): seq<Event>
    requires SENSOR_TYPE_QTT <= |slots| && SENSOR_TYPE_QTT <= |analyzers| && DrainsNonEmpty(drain)
  {
    PrintIf(oled, 0, Collecting) + UpdatesUpTo(slots, SENSOR_TYPE_QTT) +
    DrainsUpTo(slots, SENSOR_TYPE_QTT, analyzers, oled, drain) + (if oled then [Render] else [])
  }

  // ---------------------------------------------------------------------
  // What a tick's events mean

  /** An analysis of (kind, sample) with this status is due: sensor found, drain succeeded, analyzer found. */
  predicate AnalysisDue(slots: seq<Option<SensorHandle>>, analyzers: seq<Option<Analyzer>>, drain: Drain,
                        kind: SensorType, sample: SampleType, status: HealthStatus)
    requires SENSOR_TYPE_QTT <= |slots| && SENSOR_TYPE_QTT <= |analyzers|
  {
    var h := LookupSensor(slots, kind);
    var a := LookupAnalyzer(analyzers, kind, sample);
    h.Some? && drain(h.value, sample).Some? && a.Some? &&
    status == Scan(a.value.config.thresholds, drain(h.value, sample).value.values)
  }

  /** Each event is justified by the registry, the drain outcomes, the analyzers and the display setting. */
  ghost predicate Justified(slots: seq<Option<SensorHandle>>, analyzers: seq<Option<Analyzer>>, oled: bool,
                      drain: Drain, e: Event)
    requires SENSOR_TYPE_QTT <= |slots| && SENSOR_TYPE_QTT <= |analyzers| && DrainsNonEmpty(drain)
  {
    match e
    case SensorUpdate(h) => exists i :: 0 <= i < SENSOR_TYPE_QTT && slots[i] == Some(h)
    case DrainAttempt(h, s) => LookupSensor(slots, h.kind) == Some(h)
    case Analysis(k, s, status) => AnalysisDue(slots, analyzers, drain, k, s, status)
    case Print(line, text) =>
      oled &&
      (match text
       case Collecting => line == 0
       case SampleLine(k, s, v) =>
         var h := LookupSensor(slots, k);
         line == s + 1 && h.Some? && drain(h.value, s).Some? && v == drain(h.value, s).value.values[0]
       case StatusLine(st) =>
         line == STATUS_LINE && exists k: SensorType, s: SampleType :: AnalysisDue(slots, analyzers, drain, k, s, st))
    case Render => oled
  }

  /** The keyed event kinds whose order the tick fixes. */
  datatype Selector = Attempts | Analyses

  predicate Selected(e: Event, sel: Selector)
  {
    match sel
    case Attempts => e.DrainAttempt?
    case Analyses => e.Analysis?
  }

  /** The position of an event's (kind, sample) pair in the tick's visiting order. */
  function EventKey(e: Event): nat
  {
    match e
    case DrainAttempt(h, s) => h.kind * SAMPLE_TYPE_QTT + s
    case Analysis(k, s, _) => k * SAMPLE_TYPE_QTT + s
    case _ => 0
  }

  /** The selected events occur in strictly increasing (kind, sample) order: ordered, and never twice. */
  ghost predicate Increasing(t: seq<Event>, sel: Selector)
  {
    forall i, j :: 0 <= i < j < |t| && Selected(t[i], sel) && Selected(t[j], sel) ==> EventKey(t[i]) < EventKey(t[j])
  }

  ghost predicate KeysIn(t: seq<Event>, lo: nat, hi: nat)
  {
    forall e :: e in t && (e.DrainAttempt? || e.Analysis?) ==> lo <= EventKey(e) < hi
  }

  lemma IncreasingConcat(a: seq<Event>, b: seq<Event>, sel: Selector, lo: nat, mid: nat, hi: nat)
    requires lo <= mid <= hi
    requires Increasing(a, sel) && Increasing(b, sel) && KeysIn(a, lo, mid) && KeysIn(b, mid, hi)
    ensures Increasing(a + b, sel) && KeysIn(a + b, lo, hi)
  {
    var t := a + b;
    forall i, j | 0 <= i < j < |t| && Selected(t[i], sel) && Selected(t[j], sel)
      ensures EventKey(t[i]) < EventKey(t[j])
    {
      if j < |a| {
        assert t[i] == a[i] && t[j] == a[j];
      } else if i >= |a| {
        assert t[i] == b[i - |a|] && t[j] == b[j - |a|];
      } else {
        assert t[i] == a[i] && a[i] in a;
        assert t[j] == b[j - |a|] && b[j - |a|] in b;
      }
    }
  }

  /** At most one selected event, at a known position, makes a sequence increasing. */
  lemma SingleSelected(a: seq<Event>, x: Event, b: seq<Event>, sel: Selector)
    requires forall e :: e in a || e in b ==> !Selected(e, sel)
    ensures Increasing(a + [x] + b, sel)
  {
    var t := a + [x] + b;
    forall i | 0 <= i < |t| && i != |a|
      ensures !Selected(t[i], sel)
    {
      if i < |a| {
        assert t[i] == a[i] && a[i] in a;
      } else {
        assert t[i] == b[i - |a| - 1] && b[i - |a| - 1] in b;
      }
    }
  }

  lemma NoneSelected(t: seq<Event>, sel: Selector)
    requires forall e :: e in t ==> !Selected(e, sel)
    ensures Increasing(t, sel)
  {
    assert forall i | 0 <= i < |t| :: t[i] in t;
  }

  // Sequences of blocks. These lemmas know nothing of what a block holds;
  // the ones after them speak of one event or one (sensor, sample) pair at a
  // time, and the tick-level lemmas quantify over them with forall statements.

  lemma ConcatSnoc(bs: seq<seq<Event>>, b: seq<Event>)
    ensures Concat(bs + [b]) == Concat(bs) + b
  {
    assert (bs + [b])[..|bs|] == bs;
  }

  /** Every event of a concatenation comes from one of its blocks. */
  lemma {:induction false} ConcatLocate(bs: seq<seq<Event>>, e: Event) returns (k: nat)
    requires e in Concat(bs)
    ensures k < |bs| && e in bs[k]
  {
    assert |bs| > 0;
    var front := bs[..|bs| - 1];
    if e in Concat(front) {
      k := ConcatLocate(front, e);
      assert bs[k] == front[k];
    } else {
      k := |bs| - 1;
    }
  }

  /** Every event of every block is in the concatenation. */
  lemma {:induction false} ConcatHas(bs: seq<seq<Event>>, k: nat, e: Event)
    requires k < |bs| && e in bs[k]
    ensures e in Concat(bs)
  {
    var front := bs[..|bs| - 1];
    if k < |bs| - 1 {
      assert bs[k] == front[k];
      ConcatHas(front, k, e);
    }
  }

  /**
   * Blocks that are each increasing, block k keyed within [cuts[k],
   * cuts[k + 1]), concatenate to an increasing sequence keyed within
   * [cuts[0], cuts[|bs|]).
   */
  lemma {:induction false} ConcatIncreasing(bs: seq<seq<Event>>, sel: Selector, cuts: seq<nat>)
    requires |cuts| == |bs| + 1
    requires forall k :: 0 <= k < |bs| ==> cuts[k] <= cuts[k + 1]
    requires forall k :: 0 <= k < |bs| ==> Increasing(bs[k], sel) && KeysIn(bs[k], cuts[k], cuts[k + 1])
    ensures cuts[0] <= cuts[|bs|]
    ensures Increasing(Concat(bs), sel) && KeysIn(Concat(bs), cuts[0], cuts[|bs|])
  {
    if |bs| == 0 {
      NoneSelected([], sel);
    } else {
      var n := |bs| - 1;
      var front := bs[..n];
      var fcuts := cuts[..n + 1];
      forall k | 0 <= k < n
        ensures fcuts[k] <= fcuts[k + 1] && Increasing(front[k], sel) && KeysIn(front[k], fcuts[k], fcuts[k + 1])
      {
        assert front[k] == bs[k] && fcuts[k] == cuts[k] && fcuts[k + 1] == cuts[k + 1];
      }
      ConcatIncreasing(front, sel, fcuts);
      assert Increasing(bs[n], sel) && KeysIn(bs[n], cuts[n], cuts[n + 1]);
      IncreasingConcat(Concat(front), bs[n], sel, cuts[0], cuts[n], cuts[n + 1]);
    }
  }

  /** An event of one wanted sample's block is justified, and is no sensor update and no render. */
  lemma SampleEventsSound(slots: seq<Option<SensorHandle>>, analyzers: seq<Option<Analyzer>>,
                          oled: bool, drain: Drain, h: SensorHandle, kind: SensorType, idx: nat, e: Event)
    requires SENSOR_TYPE_QTT <= |slots| && SENSOR_TYPE_QTT <= |analyzers| && DrainsNonEmpty(drain)
    requires LookupSensor(slots, kind) == Some(h) && idx < SAMPLE_TYPE_QTT
    requires e in SampleEvents(h, kind, idx, analyzers, oled, drain)
    ensures Justified(slots, analyzers, oled, drain, e) && !e.SensorUpdate? && !e.Render?
  {
    assert WANTED_SAMPLES[idx] == idx;
    if e.Print? && e.text.StatusLine? {
      assert AnalysisDue(slots, analyzers, drain, kind, idx, e.text.status);
    }
  }

  /** One wanted sample's drain attempt and analysis are keyed by (kind, idx). */
  lemma SampleEventsKeys(h: SensorHandle, kind: SensorType, idx: nat, analyzers: seq<Option<Analyzer>>,
                         oled: bool, drain: Drain, e: Event)
    requires SENSOR_TYPE_QTT <= |analyzers| && DrainsNonEmpty(drain) && idx < SAMPLE_TYPE_QTT && h.kind == kind
    requires e in SampleEvents(h, kind, idx, analyzers, oled, drain) && (e.DrainAttempt? || e.Analysis?)
    ensures EventKey(e) == kind * SAMPLE_TYPE_QTT + idx
  {
    assert WANTED_SAMPLES[idx] == idx;
  }

  /** One wanted sample's block attempts the drain of that sample. */
  lemma SampleEventsAttempted(h: SensorHandle, kind: SensorType, idx: nat, analyzers: seq<Option<Analyzer>>,
                              oled: bool, drain: Drain)
    requires SENSOR_TYPE_QTT <= |analyzers| && DrainsNonEmpty(drain) && idx < SAMPLE_TYPE_QTT
    ensures DrainAttempt(h, idx) in SampleEvents(h, kind, idx, analyzers, oled, drain)
  {
    assert WANTED_SAMPLES[idx] == idx;
  }

  /** One wanted sample's block performs its analysis when it is due. */
  lemma SampleEventsAnalysed(slots: seq<Option<SensorHandle>>, analyzers: seq<Option<Analyzer>>,
                             oled: bool, drain: Drain, h: SensorHandle, kind: SensorType, idx: nat,
                             st: HealthStatus)
    requires SENSOR_TYPE_QTT <= |slots| && SENSOR_TYPE_QTT <= |analyzers| && DrainsNonEmpty(drain)
    requires LookupSensor(slots, kind) == Some(h) && idx < SAMPLE_TYPE_QTT
    requires AnalysisDue(slots, analyzers, drain, kind, idx, st)
    ensures Analysis(kind, idx, st) in SampleEvents(h, kind, idx, analyzers, oled, drain)
  {
    assert WANTED_SAMPLES[idx] == idx;
  }

  /** One wanted sample's block holds at most one drain attempt and at most one analysis. */
  lemma SampleEventsOrdered(h: SensorHandle, kind: SensorType, idx: nat, analyzers: seq<Option<Analyzer>>,
                            oled: bool, drain: Drain)
    requires SENSOR_TYPE_QTT <= |analyzers| && DrainsNonEmpty(drain) && idx < SAMPLE_TYPE_QTT
    ensures Increasing(SampleEvents(h, kind, idx, analyzers, oled, drain), Attempts)
    ensures Increasing(SampleEvents(h, kind, idx, analyzers, oled, drain), Analyses)
  {
    var sample := WANTED_SAMPLES[idx];
    var t := SampleEvents(h, kind, idx, analyzers, oled, drain);
    var first := DrainAttempt(h, sample);
    match drain(h, sample) {
      case None =>
        assert t == [] + [first] + [];
        SingleSelected([], first, [], Attempts);
        NoneSelected(t, Analyses);
      case Some(d) =>
        var p1 := PrintIf(oled, idx + 1, SampleLine(kind, sample, d.values[0]));
        match LookupAnalyzer(analyzers, kind, sample) {
          case None =>
            assert t == [] + [first] + p1;
            SingleSelected([], first, p1, Attempts);
            NoneSelected(t, Analyses);
          case Some(a) =>
            var an := Analysis(kind, sample, Scan(a.config.thresholds, d.values));
            var p2 := PrintIf(oled, STATUS_LINE, StatusLine(an.status));
            assert t == [] + [first] + (p1 + [an] + p2);
            assert t == [first] + p1 + [an] + p2;
            SingleSelected([], first, p1 + [an] + p2, Attempts);
            SingleSelected([first] + p1, an, p2, Analyses);
        }
    }
  }

  /** One more wanted sample appends its block to the sensor's events. */
  lemma SamplesUpToSnoc(h: SensorHandle, kind: SensorType, n: nat, analyzers: seq<Option<Analyzer>>,
                        oled: bool, drain: Drain)
    requires n < SAMPLE_TYPE_QTT && SENSOR_TYPE_QTT <= |analyzers| && DrainsNonEmpty(drain)
    ensures SamplesUpTo(h, kind, n + 1, analyzers, oled, drain) ==
            SamplesUpTo(h, kind, n, analyzers, oled, drain) + SampleEvents(h, kind, n, analyzers, oled, drain)
  {
    var bs := SampleBlocks(h, kind, n, analyzers, oled, drain);
    var b := SampleEvents(h, kind, n, analyzers, oled, drain);
    assert SampleBlocks(h, kind, n + 1, analyzers, oled, drain) == bs + [b];
    ConcatSnoc(bs, b);
  }

  /** An event of wanted_samples[0..n) of one sensor is justified, and is no sensor update and no render. */
  lemma SamplesUpToSound(slots: seq<Option<SensorHandle>>, analyzers: seq<Option<Analyzer>>,
                         oled: bool, drain: Drain, h: SensorHandle, kind: SensorType, n: nat, e: Event)
    requires SENSOR_TYPE_QTT <= |slots| && SENSOR_TYPE_QTT <= |analyzers| && DrainsNonEmpty(drain)
    requires LookupSensor(slots, kind) == Some(h) && n <= SAMPLE_TYPE_QTT
    requires e in SamplesUpTo(h, kind, n, analyzers, oled, drain)
    ensures Justified(slots, analyzers, oled, drain, e) && !e.SensorUpdate? && !e.Render?
  {
    var i := ConcatLocate(SampleBlocks(h, kind, n, analyzers, oled, drain), e);
    SampleEventsSound(slots, analyzers, oled, drain, h, kind, i, e);
  }

  /** wanted_samples[0..n) of a sensor attempts the drain of every sample below n. */
  lemma SamplesUpToAttempted(h: SensorHandle, kind: SensorType, n: nat, analyzers: seq<Option<Analyzer>>,
                             oled: bool, drain: Drain, s: SampleType)
    requires SENSOR_TYPE_QTT <= |analyzers| && DrainsNonEmpty(drain) && s < n <= SAMPLE_TYPE_QTT
    ensures DrainAttempt(h, s) in SamplesUpTo(h, kind, n, analyzers, oled, drain)
  {
    SampleEventsAttempted(h, kind, s, analyzers, oled, drain);
    ConcatHas(SampleBlocks(h, kind, n, analyzers, oled, drain), s, DrainAttempt(h, s));
  }

  /** wanted_samples[0..n) of a sensor performs every due analysis of a sample below n. */
  lemma SamplesUpToAnalysed(slots: seq<Option<SensorHandle>>, analyzers: seq<Option<Analyzer>>,
                            oled: bool, drain: Drain, h: SensorHandle, kind: SensorType, n: nat,
                            s: SampleType, st: HealthStatus)
    requires SENSOR_TYPE_QTT <= |slots| && SENSOR_TYPE_QTT <= |analyzers| && DrainsNonEmpty(drain)
    requires LookupSensor(slots, kind) == Some(h) && s < n <= SAMPLE_TYPE_QTT
    requires AnalysisDue(slots, analyzers, drain, kind, s, st)
    ensures Analysis(kind, s, st) in SamplesUpTo(h, kind, n, analyzers, oled, drain)
  {
    SampleEventsAnalysed(slots, analyzers, oled, drain, h, kind, s, st);
    ConcatHas(SampleBlocks(h, kind, n, analyzers, oled, drain), s, Analysis(kind, s, st));
  }

  /** A sensor's drain attempts, and likewise its analyses, run in increasing sample order within the kind's keys. */
  lemma SamplesUpToOrdered(h: SensorHandle, kind: SensorType, n: nat, analyzers: seq<Option<Analyzer>>,
                           oled: bool, drain: Drain, sel: Selector)
    requires SENSOR_TYPE_QTT <= |analyzers| && DrainsNonEmpty(drain) && n <= SAMPLE_TYPE_QTT && h.kind == kind
    ensures Increasing(SamplesUpTo(h, kind, n, analyzers, oled, drain), sel)
    ensures KeysIn(SamplesUpTo(h, kind, n, analyzers, oled, drain), kind * SAMPLE_TYPE_QTT, kind * SAMPLE_TYPE_QTT + n)
  {
    var bs := SampleBlocks(h, kind, n, analyzers, oled, drain);
    var base := kind * SAMPLE_TYPE_QTT;
    var cuts := seq(n + 1, i => base + i);
    forall i | 0 <= i < n
      ensures Increasing(bs[i], sel) && KeysIn(bs[i], cuts[i], cuts[i + 1])
    {
      SampleEventsOrdered(h, kind, i, analyzers, oled, drain);
      forall e: Event | e in bs[i] && (e.DrainAttempt? || e.Analysis?)
        ensures cuts[i] <= EventKey(e) < cuts[i + 1]
      {
        SampleEventsKeys(h, kind, i, analyzers, oled, drain, e);
      }
    }
    ConcatIncreasing(bs, sel, cuts);
  }

  /** An event of one sensor kind's block is justified, and is no sensor update and no render. */
  lemma KindEventsSound(slots: seq<Option<SensorHandle>>, analyzers: seq<Option<Analyzer>>,
                        oled: bool, drain: Drain, kind: SensorType, e: Event)
    requires SENSOR_TYPE_QTT <= |slots| && SENSOR_TYPE_QTT <= |analyzers| && DrainsNonEmpty(drain)
    requires e in KindEvents(slots, kind, analyzers, oled, drain)
    ensures Justified(slots, analyzers, oled, drain, e) && !e.SensorUpdate? && !e.Render?
  {
    SamplesUpToSound(slots, analyzers, oled, drain, LookupSensor(slots, kind).value, kind, SAMPLE_TYPE_QTT, e);
  }

  /** One sensor kind's block attempts every wanted sample of the sensor GetSensor finds. */
  lemma KindEventsAttempted(slots: seq<Option<SensorHandle>>, analyzers: seq<Option<Analyzer>>,
                            oled: bool, drain: Drain, h: SensorHandle, s: SampleType)
    requires SENSOR_TYPE_QTT <= |slots| && SENSOR_TYPE_QTT <= |analyzers| && DrainsNonEmpty(drain)
    requires LookupSensor(slots, h.kind) == Some(h)
    ensures DrainAttempt(h, s) in KindEvents(slots, h.kind, analyzers, oled, drain)
  {
    SamplesUpToAttempted(h, h.kind, SAMPLE_TYPE_QTT, analyzers, oled, drain, s);
  }

  /** One sensor kind's block performs every due analysis of that kind. */
  lemma KindEventsAnalysed(slots: seq<Option<SensorHandle>>, analyzers: seq<Option<Analyzer>>,
                           oled: bool, drain: Drain, kind: SensorType, s: SampleType, st: HealthStatus)
    requires SENSOR_TYPE_QTT <= |slots| && SENSOR_TYPE_QTT <= |analyzers| && DrainsNonEmpty(drain)
    requires AnalysisDue(slots, analyzers, drain, kind, s, st)
    ensures Analysis(kind, s, st) in KindEvents(slots, kind, analyzers, oled, drain)
  {
    SamplesUpToAnalysed(slots, analyzers, oled, drain, LookupSensor(slots, kind).value, kind, SAMPLE_TYPE_QTT, s, st);
  }

  /** One sensor kind's drain attempts, and likewise its analyses, are increasing and keyed within the kind's range. */
  lemma KindEventsOrdered(slots: seq<Option<SensorHandle>>, analyzers: seq<Option<Analyzer>>,
                          oled: bool, drain: Drain, kind: SensorType, sel: Selector)
    requires SENSOR_TYPE_QTT <= |slots| && SENSOR_TYPE_QTT <= |analyzers| && DrainsNonEmpty(drain)
    ensures Increasing(KindEvents(slots, kind, analyzers, oled, drain), sel)
    ensures KeysIn(KindEvents(slots, kind, analyzers, oled, drain), kind * SAMPLE_TYPE_QTT, (kind + 1) * SAMPLE_TYPE_QTT)
  {
    if LookupSensor(slots, kind).Some? {
      SamplesUpToOrdered(LookupSensor(slots, kind).value, kind, SAMPLE_TYPE_QTT, analyzers, oled, drain, sel);
    } else {
      NoneSelected([], sel);
    }
  }

  /** One more sensor kind appends its block to the drain phase. */
  lemma DrainsUpToSnoc(slots: seq<Option<SensorHandle>>, n: nat, analyzers: seq<Option<Analyzer>>,
                       oled: bool, drain: Drain)
    requires n < SENSOR_TYPE_QTT <= |slots| && SENSOR_TYPE_QTT <= |analyzers| && DrainsNonEmpty(drain)
    ensures DrainsUpTo(slots, n + 1, analyzers, oled, drain) ==
            DrainsUpTo(slots, n, analyzers, oled, drain) + KindEvents(slots, n, analyzers, oled, drain)
  {
    var bs := KindBlocks(slots, n, analyzers, oled, drain);
    var b := KindEvents(slots, n, analyzers, oled, drain);
    assert KindBlocks(slots, n + 1, analyzers, oled, drain) == bs + [b];
    ConcatSnoc(bs, b);
  }

  /** An event of the drain phase over kinds 0..n-1 is justified, and is no sensor update and no render. */
  lemma DrainsUpToSound(slots: seq<Option<SensorHandle>>, analyzers: seq<Option<Analyzer>>,
                        oled: bool, drain: Drain, n: nat, e: Event)
    requires n <= SENSOR_TYPE_QTT <= |slots| && SENSOR_TYPE_QTT <= |analyzers| && DrainsNonEmpty(drain)
    requires e in DrainsUpTo(slots, n, analyzers, oled, drain)
    ensures Justified(slots, analyzers, oled, drain, e) && !e.SensorUpdate? && !e.Render?
  {
    var k := ConcatLocate(KindBlocks(slots, n, analyzers, oled, drain), e);
    KindEventsSound(slots, analyzers, oled, drain, k, e);
  }

  /** The drain phase over kinds 0..n-1 attempts every wanted sample of every sensor GetSensor finds there. */
  lemma DrainsUpToAttempted(slots: seq<Option<SensorHandle>>, analyzers: seq<Option<Analyzer>>,
                            oled: bool, drain: Drain, n: nat, h: SensorHandle, s: SampleType)
    requires n <= SENSOR_TYPE_QTT <= |slots| && SENSOR_TYPE_QTT <= |analyzers| && DrainsNonEmpty(drain)
    requires h.kind < n && LookupSensor(slots, h.kind) == Some(h)
    ensures DrainAttempt(h, s) in DrainsUpTo(slots, n, analyzers, oled, drain)
  {
    KindEventsAttempted(slots, analyzers, oled, drain, h, s);
    ConcatHas(KindBlocks(slots, n, analyzers, oled, drain), h.kind, DrainAttempt(h, s));
  }

  /** The drain phase over kinds 0..n-1 performs every due analysis of those kinds. */
  lemma DrainsUpToAnalysed(slots: seq<Option<SensorHandle>>, analyzers: seq<Option<Analyzer>>,
                           oled: bool, drain: Drain, n: nat, k: SensorType, s: SampleType, st: HealthStatus)
    requires n <= SENSOR_TYPE_QTT <= |slots| && SENSOR_TYPE_QTT <= |analyzers| && DrainsNonEmpty(drain)
    requires k < n && AnalysisDue(slots, analyzers, drain, k, s, st)
    ensures Analysis(k, s, st) in DrainsUpTo(slots, n, analyzers, oled, drain)
  {
    KindEventsAnalysed(slots, analyzers, oled, drain, k, s, st);
    ConcatHas(KindBlocks(slots, n, analyzers, oled, drain), k, Analysis(k, s, st));
  }

  /** Across kinds 0..n-1, drain attempts and analyses each run in increasing (kind, sample) order, keyed below 4n. */
  lemma DrainsUpToOrdered(slots: seq<Option<SensorHandle>>, analyzers: seq<Option<Analyzer>>,
                          oled: bool, drain: Drain, n: nat, sel: Selector)
    requires n <= SENSOR_TYPE_QTT <= |slots| && SENSOR_TYPE_QTT <= |analyzers| && DrainsNonEmpty(drain)
    ensures Increasing(DrainsUpTo(slots, n, analyzers, oled, drain), sel)
    ensures KeysIn(DrainsUpTo(slots, n, analyzers, oled, drain), 0, n * SAMPLE_TYPE_QTT)
  {
    var bs := KindBlocks(slots, n, analyzers, oled, drain);
    var cuts := seq(n + 1, k => k * SAMPLE_TYPE_QTT);
    forall k | 0 <= k < n
      ensures cuts[k] <= cuts[k + 1] && Increasing(bs[k], sel) && KeysIn(bs[k], cuts[k], cuts[k + 1])
    {
      KindEventsOrdered(slots, analyzers, oled, drain, k, sel);
    }
    ConcatIncreasing(bs, sel, cuts);
  }

  lemma {:induction false} UpdatesUpToFacts(slots: seq<Option<SensorHandle>>, n: nat)
    requires n <= |slots|
    ensures forall e :: e in UpdatesUpTo(slots, n) ==> e.SensorUpdate? && exists i :: 0 <= i < n && slots[i] == Some(e.sensor)
    ensures forall i :: 0 <= i < n && slots[i].Some? ==> SensorUpdate(slots[i].value) in UpdatesUpTo(slots, n)
  {
    if n > 0 {
      UpdatesUpToFacts(slots, n - 1);
    }
  }

  /**
   * Soundness of a tick: every event is justified. Updates go to registered
   * sensors; drains only to the sensor GetSensor finds for its kind; an
   * analysis only after a successful drain with a matching analyzer, and with
   * the status the analyzer computes; a sample line only after a successful
   * drain, on line sample + 1, showing the first drained value; a status only
   * on line 7, showing the status of an analysis that is due; no display call
   * at all without an OLED.
   */
  lemma TickSound(slots: seq<Option<SensorHandle>>, analyzers: seq<Option<Analyzer>>, oled: bool, drain: Drain)
    requires SENSOR_TYPE_QTT <= |slots| && SENSOR_TYPE_QTT <= |analyzers| && DrainsNonEmpty(drain)
    ensures forall e :: e in TickTrace(slots, analyzers, oled, drain) ==> Justified(slots, analyzers, oled, drain, e)
    ensures !oled ==> forall e :: e in TickTrace(slots, analyzers, oled, drain) ==> !e.Print? && !e.Render?
  {
    UpdatesUpToFacts(slots, SENSOR_TYPE_QTT);
    forall e | e in TickTrace(slots, analyzers, oled, drain)
      ensures Justified(slots, analyzers, oled, drain, e)
    {
      if e in UpdatesUpTo(slots, SENSOR_TYPE_QTT) {
        var i :| 0 <= i < SENSOR_TYPE_QTT && slots[i] == Some(e.sensor);
      } else if e in DrainsUpTo(slots, SENSOR_TYPE_QTT, analyzers, oled, drain) {
        DrainsUpToSound(slots, analyzers, oled, drain, SENSOR_TYPE_QTT, e);
      }
    }
  }

  /**
   * Completeness of a tick: every registered sensor is updated, every wanted
   * sample of every sensor GetSensor finds is drained, and every due analysis
   * happens.
   */
  lemma TickComplete(slots: seq<Option<SensorHandle>>, analyzers: seq<Option<Analyzer>>, oled: bool, drain: Drain)
    requires SENSOR_TYPE_QTT <= |slots| && SENSOR_TYPE_QTT <= |analyzers| && DrainsNonEmpty(drain)
    ensures forall i :: 0 <= i < SENSOR_TYPE_QTT && slots[i].Some? ==>
              SensorUpdate(slots[i].value) in TickTrace(slots, analyzers, oled, drain)
    ensures forall h: SensorHandle, s: SampleType :: LookupSensor(slots, h.kind) == Some(h) ==>
              DrainAttempt(h, s) in TickTrace(slots, analyzers, oled, drain)
    ensures forall k: SensorType, s: SampleType, st: HealthStatus :: AnalysisDue(slots, analyzers, drain, k, s, st) ==>
              Analysis(k, s, st) in TickTrace(slots, analyzers, oled, drain)
  {
    UpdatesUpToFacts(slots, SENSOR_TYPE_QTT);
    forall h: SensorHandle, s: SampleType | LookupSensor(slots, h.kind) == Some(h)
      ensures DrainAttempt(h, s) in TickTrace(slots, analyzers, oled, drain)
    {
      DrainsUpToAttempted(slots, analyzers, oled, drain, SENSOR_TYPE_QTT, h, s);
    }
    forall k: SensorType, s: SampleType, st: HealthStatus | AnalysisDue(slots, analyzers, drain, k, s, st)
      ensures Analysis(k, s, st) in TickTrace(slots, analyzers, oled, drain)
    {
      DrainsUpToAnalysed(slots, analyzers, oled, drain, SENSOR_TYPE_QTT, k, s, st);
    }
  }

  /** With an OLED, a successful drain of a sample from the sensor GetSensor finds shows its first value on line sample + 1. */
  lemma SampleShown(slots: seq<Option<SensorHandle>>, analyzers: seq<Option<Analyzer>>, drain: Drain,
                    h: SensorHandle, s: SampleType)
    requires SENSOR_TYPE_QTT <= |slots| && SENSOR_TYPE_QTT <= |analyzers| && DrainsNonEmpty(drain)
    requires LookupSensor(slots, h.kind) == Some(h) && drain(h, s).Some?
    ensures Print(s + 1, SampleLine(h.kind, s, drain(h, s).value.values[0])) in TickTrace(slots, analyzers, true, drain)
  {
    assert WANTED_SAMPLES[s] == s;
    var e := Print(s + 1, SampleLine(h.kind, s, drain(h, s).value.values[0]));
    assert e in SampleEvents(h, h.kind, s, analyzers, true, drain);
    ConcatHas(SampleBlocks(h, h.kind, SAMPLE_TYPE_QTT, analyzers, true, drain), s, e);
    assert e in KindEvents(slots, h.kind, analyzers, true, drain);
    ConcatHas(KindBlocks(slots, SENSOR_TYPE_QTT, analyzers, true, drain), h.kind, e);
  }

  /** With an OLED, every due analysis shows its status on line 7. */
  lemma StatusShown(slots: seq<Option<SensorHandle>>, analyzers: seq<Option<Analyzer>>, drain: Drain,
                    k: SensorType, s: SampleType, st: HealthStatus)
    requires SENSOR_TYPE_QTT <= |slots| && SENSOR_TYPE_QTT <= |analyzers| && DrainsNonEmpty(drain)
    requires AnalysisDue(slots, analyzers, drain, k, s, st)
    ensures Print(STATUS_LINE, StatusLine(st)) in TickTrace(slots, analyzers, true, drain)
  {
    assert WANTED_SAMPLES[s] == s;
    var h := LookupSensor(slots, k).value;
    var e := Print(STATUS_LINE, StatusLine(st));
    assert e in SampleEvents(h, k, s, analyzers, true, drain);
    ConcatHas(SampleBlocks(h, k, SAMPLE_TYPE_QTT, analyzers, true, drain), s, e);
    assert e in KindEvents(slots, k, analyzers, true, drain);
    ConcatHas(KindBlocks(slots, SENSOR_TYPE_QTT, analyzers, true, drain), k, e);
  }

  /**
   * The display half of completeness: with an OLED, every successful drain
   * shows its first value on line sample + 1, and every due analysis shows
   * its status on line 7.
   */
  lemma TickDisplaysResults(slots: seq<Option<SensorHandle>>, analyzers: seq<Option<Analyzer>>, drain: Drain)
    requires SENSOR_TYPE_QTT <= |slots| && SENSOR_TYPE_QTT <= |analyzers| && DrainsNonEmpty(drain)
    ensures forall h: SensorHandle, s: SampleType :: LookupSensor(slots, h.kind) == Some(h) && drain(h, s).Some? ==>
              Print(s + 1, SampleLine(h.kind, s, drain(h, s).value.values[0])) in TickTrace(slots, analyzers, true, drain)
    ensures forall k: SensorType, s: SampleType, st: HealthStatus :: AnalysisDue(slots, analyzers, drain, k, s, st) ==>
              Print(STATUS_LINE, StatusLine(st)) in TickTrace(slots, analyzers, true, drain)
  {
    forall h: SensorHandle, s: SampleType | LookupSensor(slots, h.kind) == Some(h) && drain(h, s).Some?
      ensures Print(s + 1, SampleLine(h.kind, s, drain(h, s).value.values[0])) in TickTrace(slots, analyzers, true, drain)
    {
      SampleShown(slots, analyzers, drain, h, s);
    }
    forall k: SensorType, s: SampleType, st: HealthStatus | AnalysisDue(slots, analyzers, drain, k, s, st)
      ensures Print(STATUS_LINE, StatusLine(st)) in TickTrace(slots, analyzers, true, drain)
    {
      StatusShown(slots, analyzers, drain, k, s, st);
    }
  }

  /** The update phase visits the slots in order: an occupied slot's update comes before any later occupied slot's. */
  lemma {:induction false} UpdatesInSlotOrder(slots: seq<Option<SensorHandle>>, n: nat, i: nat, j: nat)
    requires n <= |slots| && i < j < n && slots[i].Some? && slots[j].Some?
    ensures exists p, q :: 0 <= p < q < |UpdatesUpTo(slots, n)| &&
                           UpdatesUpTo(slots, n)[p] == SensorUpdate(slots[i].value) &&
                           UpdatesUpTo(slots, n)[q] == SensorUpdate(slots[j].value)
  {
    var u := UpdatesUpTo(slots, n);
    var front := UpdatesUpTo(slots, n - 1);
    if j == n - 1 {
      assert u == front + [SensorUpdate(slots[j].value)];
      UpdatesUpToFacts(slots, n - 1);
      assert SensorUpdate(slots[i].value) in front;
      var p :| 0 <= p < |front| && front[p] == SensorUpdate(slots[i].value);
      assert u[p] == front[p] && u[|front|] == SensorUpdate(slots[j].value);
    } else {
      assert |front| <= |u| && u[..|front|] == front;
      UpdatesInSlotOrder(slots, n - 1, i, j);
      var p, q :| 0 <= p < q < |front| && front[p] == SensorUpdate(slots[i].value) && front[q] == SensorUpdate(slots[j].value);
      assert u[p] == front[p] && u[q] == front[q];
      assert 0 <= p < q < |u| && u[p] == SensorUpdate(slots[i].value) && u[q] == SensorUpdate(slots[j].value);
    }
  }

  /**
   * Order within a tick: every sensor update precedes every drain attempt;
   * drain attempts and analyses each run in strictly increasing (kind,
   * sample) order, so no (kind, sample) pair is drained or analysed twice.
   */
  lemma UpdatesBeforeDrains(slots: seq<Option<SensorHandle>>, analyzers: seq<Option<Analyzer>>, oled: bool, drain: Drain)
    requires SENSOR_TYPE_QTT <= |slots| && SENSOR_TYPE_QTT <= |analyzers| && DrainsNonEmpty(drain)
    ensures var t := TickTrace(slots, analyzers, oled, drain);
      forall i, j :: 0 <= i < j < |t| && t[i].DrainAttempt? ==> !t[j].SensorUpdate?
  {
    var u := PrintIf(oled, 0, Collecting) + UpdatesUpTo(slots, SENSOR_TYPE_QTT);
    var d := DrainsUpTo(slots, SENSOR_TYPE_QTT, analyzers, oled, drain);
    var r: seq<Event> := if oled then [Render] else [];
    var t := TickTrace(slots, analyzers, oled, drain);
    assert t == u + d + r;
    UpdatesUpToFacts(slots, SENSOR_TYPE_QTT);
    forall i | 0 <= i < |u|
      ensures !t[i].DrainAttempt?
    {
      assert t[i] == u[i] && u[i] in u;
    }
    forall j | |u| <= j < |t|
      ensures !t[j].SensorUpdate?
    {
      if j < |u| + |d| {
        assert t[j] == d[j - |u|] && d[j - |u|] in d;
        DrainsUpToSound(slots, analyzers, oled, drain, SENSOR_TYPE_QTT, t[j]);
      } else {
        assert t[j] == r[j - |u| - |d|];
      }
    }
  }

  lemma TickOrdered(slots: seq<Option<SensorHandle>>, analyzers: seq<Option<Analyzer>>, oled: bool, drain: Drain,
                    sel: Selector)
    requires SENSOR_TYPE_QTT <= |slots| && SENSOR_TYPE_QTT <= |analyzers| && DrainsNonEmpty(drain)
    ensures Increasing(TickTrace(slots, analyzers, oled, drain), sel)
  {
    var u := PrintIf(oled, 0, Collecting) + UpdatesUpTo(slots, SENSOR_TYPE_QTT);
    var d := DrainsUpTo(slots, SENSOR_TYPE_QTT, analyzers, oled, drain);
    var r: seq<Event> := if oled then [Render] else [];
    var all := SENSOR_TYPE_QTT * SAMPLE_TYPE_QTT;
    UpdatesUpToFacts(slots, SENSOR_TYPE_QTT);
    DrainsUpToOrdered(slots, analyzers, oled, drain, SENSOR_TYPE_QTT, sel);
    NoneSelected(u, sel);
    NoneSelected(r, sel);
    IncreasingConcat(u, d, sel, 0, 0, all);
    IncreasingConcat(u + d, r, sel, 0, all, all);
  }

  /** With an OLED, a tick opens with the banner on line 0 and renders exactly once, as its last call. */
  lemma TickRendersOnceAtEnd(slots: seq<Option<SensorHandle>>, analyzers: seq<Option<Analyzer>>, drain: Drain)
    requires SENSOR_TYPE_QTT <= |slots| && SENSOR_TYPE_QTT <= |analyzers| && DrainsNonEmpty(drain)
    ensures var t := TickTrace(slots, analyzers, true, drain);
      |t| >= 2 && t[0] == Print(0, Collecting) && t[|t| - 1] == Render &&
      forall i :: 0 <= i < |t| - 1 ==> !t[i].Render?
  {
    var m := UpdatesUpTo(slots, SENSOR_TYPE_QTT) + DrainsUpTo(slots, SENSOR_TYPE_QTT, analyzers, true, drain);
    var t := TickTrace(slots, analyzers, true, drain);
    assert t == [Print(0, Collecting)] + m + [Render];
    UpdatesUpToFacts(slots, SENSOR_TYPE_QTT);
    forall i | 1 <= i < |t| - 1
      ensures !t[i].Render?
    {
      assert t[i] == m[i - 1] && t[i] in m;
      if t[i] in DrainsUpTo(slots, SENSOR_TYPE_QTT, analyzers, true, drain) {
        DrainsUpToSound(slots, analyzers, true, drain, SENSOR_TYPE_QTT, t[i]);
      }
    }
  }

  /** StateCollect: the registry, the optional OLED and the tick. */
  class StateCollect {
    const state: State
    /** oled != nullptr */
    var oledSet: bool

    constructor ()
      ensures fresh(state) && state.Valid() && !oledSet
      ensures forall i :: 0 <= i < SENSOR_TYPE_QTT ==> state.sensorArray[i].None?
      ensures forall i :: 0 <= i < SAMPLE_TYPE_QTT ==> state.analyzerArray[i].None?
    {
      state := new State();
      oledSet := false;
    }

    method SetOled(present: bool)
      modifies this`oledSet
      ensures oledSet == present
    {
      oledSet := present;
    }

    /** PrintOled: the null guard around the display call. */
    method PrintOled(line: nat, text: Text) returns (events: seq<Event>)
      ensures events == PrintIf(oledSet, line, text)
    {
      events := [];
      if oledSet {
        events := [Print(line, text)];
      }
    }

    /** The body of the wanted-samples loop for sensor h and wanted_samples[idx]. */
    method CollectSample(h: SensorHandle, kind: SensorType, idx: nat, drain: Drain) returns (events: seq<Event>)
      requires state.Valid() && DrainsNonEmpty(drain) && idx < SAMPLE_TYPE_QTT
      ensures events == SampleEvents(h, kind, idx, state.analyzerArray[..], oledSet, drain)
    {
      var sample := WANTED_SAMPLES[idx];
      var analyzer := state.GetAnalyzer(kind, sample);
      var data := drain(h, sample);
      var rest := [];
      if data.Some? {
        rest := PrintOled(idx + 1, SampleLine(kind, sample, data.value.values[0]));
        if analyzer.Some? {
          var status := analyzer.value.Analyze(data.value);
          var shown := PrintOled(STATUS_LINE, StatusLine(status));
          rest := rest + [Analysis(kind, sample, status)] + shown;
        }
      }
      assert rest == DrainedEvents(kind, idx, data, analyzer, oledSet);
      events := [DrainAttempt(h, sample)] + rest;
    }

    /** The drain phase for one sensor kind: nothing when GetSensor finds no sensor. */
    method CollectKind(kind: SensorType, drain: Drain) returns (events: seq<Event>)
      requires state.Valid() && DrainsNonEmpty(drain)
      ensures events == KindEvents(state.sensorArray[..], kind, state.analyzerArray[..], oledSet, drain)
    {
      events := [];
      var sensor := state.GetSensor(kind);
      if sensor.Some? {
        var h := sensor.value;
        for idx := 0 to SAMPLE_TYPE_QTT
          invariant events == SamplesUpTo(h, kind, idx, state.analyzerArray[..], oledSet, drain)
        {
          var block := CollectSample(h, kind, idx, drain);
          SamplesUpToSnoc(h, kind, idx, state.analyzerArray[..], oledSet, drain);
          events := events + block;
        }
      }
    }

    /** Update: one tick; it changes no registry state and returns the calls it makes. */
    method Update(drain: Drain) returns (trace: seq<Event>)
      requires state.Valid() && DrainsNonEmpty(drain)
      ensures trace == TickTrace(state.sensorArray[..], state.analyzerArray[..], oledSet, drain)
    {
      var banner := PrintOled(0, Collecting);
      var updates := [];
      for i := 0 to SENSOR_TYPE_QTT
        invariant updates == UpdatesUpTo(state.sensorArray[..], i)
      {
        var entry := state.sensorArray[i];
        if entry.Some? {
          updates := updates + [SensorUpdate(entry.value)];
        }
      }
      var drains := [];
      for k := 0 to SENSOR_TYPE_QTT
        invariant drains == DrainsUpTo(state.sensorArray[..], k, state.analyzerArray[..], oledSet, drain)
      {
        var block := CollectKind(k, drain);
        DrainsUpToSnoc(state.sensorArray[..], k, state.analyzerArray[..], oledSet, drain);
        drains := drains + block;
      }
      trace := banner + updates + drains;
      if oledSet {
        trace := trace + [Render];
      }
    }

    /** Pause and Resume are empty: they change nothing. */
    method Pause()
    {
    }

    method Resume()
    {
    }
  }
}

/**
 * The web tool's data view (web/script.js): the type filters over the
 * loaded readings, the health-status counts of the filtered readings, the
 * chart datasets (one per sensor/sample pair, in the order the pairs first
 * appear) and the colour palette the datasets cycle through.
 *
 * The filter drop-downs are read through the same parseInt the parsers use
 * (the parameter `dec`); charts and rendering are not modelled.
 */
module WebView {
  import opened WebText
  import opened WebConfig

  // ---------------------------------------------------------------------
  // getFilteredData

  /** A type filter: 'all', or the number parseInt makes of the selected option. */
  datatype Filter = All | Only(value: JsNumber)

  /** The filter a drop-down value stands for. */
  function FilterOf(selected: string, dec: Decoders): Filter
  {
    if selected == "all" then All else Only(dec.parseInt(selected))
  }

  /** The two fields the view filters on. */
  datatype Field = SensorTypeField | SampleTypeField

  function FieldOf(d: Reading, field: Field): JsNumber
  {
    match field
    case SensorTypeField => d.sensorType
    case SampleTypeField => d.sampleType
  }

  /** d passes f: f is 'all', or d's field is === to f's value. */
  predicate Passes(d: Reading, field: Field, f: Filter)
  {
    f.All? || StrictEquals(FieldOf(d, field), f.value)
  }

  /** Array.prototype.filter with d => d[field] === value: the readings that pass, in their order. */
  function FilterBy(data: seq<Reading>, field: Field, f: Filter): (r: seq<Reading>)
    ensures |r| <= |data|
    ensures forall d :: d in r <==> d in data && Passes(d, field, f)
  {
    if |data| == 0 then []
    else
      var front := FilterBy(data[..|data| - 1], field, f);
      var d := data[|data| - 1];
      assert forall e :: e in data <==> e in data[..|data| - 1] || e == d;
      if Passes(d, field, f) then front + [d] else front
  }

  /** getFilteredData: the sensor-type filter, then the sample-type filter. */
  function FilteredData(data: seq<Reading>, sensorFilter: Filter, sampleFilter: Filter): seq<Reading>
  {
    FilterBy(FilterBy(data, SensorTypeField, sensorFilter), SampleTypeField, sampleFilter)
  }

  /** Filtering keeps the order: the filter of two blocks is the filters one after the other. */
  lemma {:induction false} FilterByAppend(a: seq<Reading>, b: seq<Reading>, field: Field, f: Filter)
    ensures FilterBy(a + b, field, f) == FilterBy(a, field, f) + FilterBy(b, field, f)
  {
    if |b| > 0 {
      assert (a + b)[..|a + b| - 1] == a + b[..|b| - 1];
      FilterByAppend(a, b[..|b| - 1], field, f);
    } else {
      assert a + b == a;
    }
  }

  /** 'all' keeps every reading. */
  lemma {:induction false} FilterAllKeeps(data: seq<Reading>, field: Field)
    ensures FilterBy(data, field, All) == data
  {
    if |data| > 0 {
      FilterAllKeeps(data[..|data| - 1], field);
      FrontAndLast(data);
    }
  }

  /** A filter whose value is NaN (an option parseInt cannot read) keeps nothing. */
  lemma {:induction false} FilterNaNEmpty(data: seq<Reading>, field: Field)
    ensures FilterBy(data, field, Only(NaN)) == []
  {
    if |data| > 0 {
      FilterNaNEmpty(data[..|data| - 1], field);
    }
  }

  /** One more reading is kept at the end exactly when it passes. */
  lemma FilterBySnoc(s: seq<Reading>, d: Reading, field: Field, f: Filter)
    ensures FilterBy(s + [d], field, f) == FilterBy(s, field, f) + (if Passes(d, field, f) then [d] else [])
  {
    assert (s + [d])[..|s|] == s;
  }

  /** d passes both filters. */
  predicate Shown(d: Reading, f: Filter, g: Filter)
  {
    Passes(d, SensorTypeField, f) && Passes(d, SampleTypeField, g)
  }

  /** One pass keeping the readings that pass both filters. */
  function FilterBoth(data: seq<Reading>, f: Filter, g: Filter): seq<Reading>
  {
    if |data| == 0 then []
    else FilterBoth(data[..|data| - 1], f, g) + (if Shown(data[|data| - 1], f, g) then [data[|data| - 1]] else [])
  }

  /** Two successive filters on fields a and b are one pass testing both. */
  lemma {:induction false} TwoPassesAreOne(data: seq<Reading>, a: Field, fa: Filter, b: Field, fb: Filter)
    requires a != b
    ensures var f := if a == SensorTypeField then fa else fb;
            var g := if a == SensorTypeField then fb else fa;
            FilterBy(FilterBy(data, a, fa), b, fb) == FilterBoth(data, f, g)
  {
    var f := if a == SensorTypeField then fa else fb;
    var g := if a == SensorTypeField then fb else fa;
    if |data| > 0 {
      var front := data[..|data| - 1];
      var d := data[|data| - 1];
      TwoPassesAreOne(front, a, fa, b, fb);
      var first := FilterBy(front, a, fa);
      var kept: seq<Reading> := if Passes(d, a, fa) then [d] else [];
      assert FilterBy(data, a, fa) == first + kept;
      assert FilterBy(kept, b, fb) == if Shown(d, f, g) then [d] else [] by {
        if Passes(d, a, fa) {
          assert [d][..0] == [];
        }
      }
      FilterByAppend(first, kept, b, fb);
    }
  }

  /** Applying the two filters in either order gives the same readings in the same order. */
  lemma FiltersCommute(data: seq<Reading>, f: Filter, g: Filter)
    ensures FilteredData(data, f, g) == FilterBy(FilterBy(data, SampleTypeField, g), SensorTypeField, f)
    ensures FilteredData(data, f, g) == FilterBoth(data, f, g)
  {
    TwoPassesAreOne(data, SensorTypeField, f, SampleTypeField, g);
    TwoPassesAreOne(data, SampleTypeField, g, SensorTypeField, f);
  }

  /** A reading is shown exactly when it passes both filters. */
  lemma FilteredDataMembers(data: seq<Reading>, f: Filter, g: Filter)
    ensures forall d :: d in FilteredData(data, f, g) <==>
              d in data && Passes(d, SensorTypeField, f) && Passes(d, SampleTypeField, g)
  {
  }

  // ---------------------------------------------------------------------
  // Grouping by a key, in order of first appearance

  /** How many readings of s have key k. */
  function Occurrences<K(==,!new)>(s: seq<Reading>, key: Reading -> K, k: K): (r: nat)
    ensures r <= |s|
  {
    if |s| == 0 then 0
    else Occurrences(s[..|s| - 1], key, k) + (if key(s[|s| - 1]) == k then 1 else 0)
  }

  /** The readings of s with key k, in their order. */
  function Group<K(==,!new)>(s: seq<Reading>, key: Reading -> K, k: K): (r: seq<Reading>)
    ensures |r| == Occurrences(s, key, k)
    ensures forall d :: d in r <==> d in s && key(d) == k
  {
    if |s| == 0 then []
    else
      var front := Group(s[..|s| - 1], key, k);
      var d := s[|s| - 1];
      assert forall e :: e in s <==> e in s[..|s| - 1] || e == d;
      if key(d) == k then front + [d] else front
  }

  /** The distinct keys of s, each once, in the order they first appear (Object.keys of a map filled in data order). */
  function Keys<K(==,!new)>(s: seq<Reading>, key: Reading -> K): (r: seq<K>)
    ensures forall k :: k in r <==> Occurrences(s, key, k) > 0
    ensures forall i, j :: 0 <= i < j < |r| ==> r[i] != r[j]
  {
    if |s| == 0 then []
    else
      var front := Keys(s[..|s| - 1], key);
      var k := key(s[|s| - 1]);
      if k in front then front else front + [k]
  }

  /** The keys of a prefix are a prefix of the keys: no later reading reorders the keys seen so far. */
  lemma {:induction false} KeysPrefix<K(!new)>(s: seq<Reading>, n: nat, key: Reading -> K)
    requires n <= |s|
    ensures Keys(s[..n], key) <= Keys(s, key)
    decreases |s| - n
  {
    if n < |s| {
      KeysPrefix(s, n + 1, key);
      assert s[..n + 1][..n] == s[..n];
    } else {
      assert s[..n] == s;
    }
  }

  /** The sum of the occurrences of the keys ks. */
  function SumOccurrences<K(==,!new)>(s: seq<Reading>, key: Reading -> K, ks: seq<K>): nat
  {
    if |ks| == 0 then 0 else SumOccurrences(s, key, ks[..|ks| - 1]) + Occurrences(s, key, ks[|ks| - 1])
  }

  /** One more reading adds one to the sum exactly when its key is among the distinct keys ks. */
  lemma {:induction false} SumOccurrencesStep<K(!new)>(s: seq<Reading>, d: Reading, key: Reading -> K, ks: seq<K>)
    requires forall i, j :: 0 <= i < j < |ks| ==> ks[i] != ks[j]
    ensures SumOccurrences(s + [d], key, ks) == SumOccurrences(s, key, ks) + (if key(d) in ks then 1 else 0)
  {
    if |ks| > 0 {
      var front := ks[..|ks| - 1];
      var k := ks[|ks| - 1];
      SumOccurrencesStep(s, d, key, front);
      assert (s + [d])[..|s|] == s;
      assert key(d) in ks <==> key(d) in front || key(d) == k;
      assert k !in front by {
        forall i | 0 <= i < |front|
          ensures front[i] != k
        {
          assert ks[i] != ks[|ks| - 1];
        }
      }
    }
  }

  /** Every reading belongs to exactly one group: the group sizes over the distinct keys add up to |s|. */
  lemma {:induction false} KeysCoverAll<K(!new)>(s: seq<Reading>, key: Reading -> K)
    ensures SumOccurrences(s, key, Keys(s, key)) == |s|
  {
    if |s| > 0 {
      var front := s[..|s| - 1];
      var d := s[|s| - 1];
      var ks := Keys(front, key);
      KeysCoverAll(front, key);
      assert s == front + [d];
      SumOccurrencesStep(front, d, key, ks);
      if key(d) !in ks {
        assert Occurrences(front, key, key(d)) == 0;
        assert (ks + [key(d)])[..|ks|] == ks;
      }
    }
  }

  // ---------------------------------------------------------------------
  // getHealthStatusCounts

  function StatusKey(d: Reading): JsNumber
  {
    d.healthStatus
  }

  /**
   * The per-status counts: a key for every status that occurs and only
   * those, holding its number of readings. Object keys are the statuses'
   * String forms; distinct statuses print distinctly, so the map is keyed by
   * the numbers themselves.
   */
  method HealthStatusCounts(data: seq<Reading>) returns (counts: map<JsNumber, nat>)
    ensures forall k :: k in counts <==> Occurrences(data, StatusKey, k) > 0
    ensures forall k :: k in counts ==> counts[k] == Occurrences(data, StatusKey, k)
  {
    counts := map[];
    for i := 0 to |data|
      invariant forall k :: k in counts <==> Occurrences(data[..i], StatusKey, k) > 0
      invariant forall k :: k in counts ==> counts[k] == Occurrences(data[..i], StatusKey, k)
    {
      assert data[..i + 1][..i] == data[..i];
      var d := data[i];
      counts := counts[d.healthStatus := (if d.healthStatus in counts then counts[d.healthStatus] else 0) + 1];
    }
    assert data[..|data|] == data;
  }

  /** The counts add up to the number of readings counted. */
  lemma CountsAddUp(data: seq<Reading>)
    ensures SumOccurrences(data, StatusKey, Keys(data, StatusKey)) == |data|
    ensures forall k :: k in Keys(data, StatusKey) <==> Occurrences(data, StatusKey, k) > 0
  {
    KeysCoverAll(data, StatusKey);
  }

  // ---------------------------------------------------------------------
  // createDatasets

  /** The group key `${sensorType}-${sampleType}`, as the pair it prints. */
  function PairKey(d: Reading): (JsNumber, JsNumber)
  {
    (d.sensorType, d.sampleType)
  }

  /** A dataset of the main chart; tension and fill are the same constants for all and are left out. */
  datatype Dataset = Dataset(legend: string, values: seq<JsNumber>, borderColor: string, backgroundColor: string)

  /** The label of a pair: the sensor's and the sample's names. */
  function PairLabel(k: (JsNumber, JsNumber)): string
  {
    SensorName(k.0) + " - " + SampleName(k.1)
  }

  /** group.map(d => d.data) */
  function DataOf(group: seq<Reading>): (r: seq<JsNumber>)
    ensures |r| == |group| && forall i :: 0 <= i < |group| ==> r[i] == group[i].data
  {
    if |group| == 0 then [] else DataOf(group[..|group| - 1]) + [group[|group| - 1].data]
  }

  /** The dataset of the index-th pair k. */
  function DatasetOf(data: seq<Reading>, k: (JsNumber, JsNumber), index: nat): Dataset
  {
    Dataset(PairLabel(k), DataOf(Group(data, PairKey, k)), GetColor(index, "1"), GetColor(index, "0.1"))
  }

  /** The number of chart points over all datasets. */
  function PointCount(ds: seq<Dataset>): nat
  {
    if |ds| == 0 then 0 else PointCount(ds[..|ds| - 1]) + |ds[|ds| - 1].values|
  }

  /** The datasets of the pairs ks, the i-th labelled by ks[i] and coloured by its position i. */
  function ChartDatasets(data: seq<Reading>, ks: seq<(JsNumber, JsNumber)>): (r: seq<Dataset>)
    ensures |r| == |ks|
  {
    if |ks| == 0 then [] else ChartDatasets(data, ks[..|ks| - 1]) + [DatasetOf(data, ks[|ks| - 1], |ks| - 1)]
  }

  /** The i-th dataset belongs to the i-th pair and takes the i-th colour. */
  lemma {:induction false} ChartDatasetsAt(data: seq<Reading>, ks: seq<(JsNumber, JsNumber)>, i: nat)
    requires i < |ks|
    ensures ChartDatasets(data, ks)[i] == DatasetOf(data, ks[i], i)
  {
    if i < |ks| - 1 {
      ChartDatasetsAt(data, ks[..|ks| - 1], i);
    }
  }

  /**
   * createDatasets: one dataset per distinct sensor/sample pair, in order of
   * first appearance, holding that pair's readings' values in data order,
   * labelled with the pair's names and coloured by its position. Every
   * reading appears in exactly one dataset, so the datasets hold |data|
   * points in total.
   */
  method CreateDatasets(data: seq<Reading>) returns (datasets: seq<Dataset>)
    ensures datasets == ChartDatasets(data, Keys(data, PairKey))
    ensures PointCount(datasets) == |data|
  {
    var keys, groups := GroupByPair(data);
    datasets := [];
    for index := 0 to |keys|
      invariant datasets == ChartDatasets(data, keys[..index])
    {
      var key := keys[index];
      assert key in groups && |groups[key]| > 0 && DatasetFrom(groups[key], index) == DatasetOf(data, key, index) by {
        DatasetOfGroup(data, key, index);
      }
      var group := groups[key];
      var dataset := DatasetFrom(group, index);
      assert keys[..index + 1][..index] == keys[..index];
      datasets := datasets + [dataset];
    }
    assert keys[..|keys|] == keys;
    assert PointCount(datasets) == |data| by {
      KeysCoverAll(data, PairKey);
      PointCountOf(data, keys);
    }
  }

  /** The datasets of keys hold as many points as the keys' occurrences add up to. */
  lemma {:induction false} PointCountOf(data: seq<Reading>, keys: seq<(JsNumber, JsNumber)>)
    ensures PointCount(ChartDatasets(data, keys)) == SumOccurrences(data, PairKey, keys)
  {
    if |keys| > 0 {
      var ds := ChartDatasets(data, keys);
      PointCountOf(data, keys[..|keys| - 1]);
      assert ds[..|ds| - 1] == ChartDatasets(data, keys[..|keys| - 1]);
    }
  }

  /** The dataset literal of createDatasets, labelled through the group's first reading. */
  function DatasetFrom(group: seq<Reading>, index: nat): Dataset
    requires |group| > 0
  {
    Dataset(SensorName(group[0].sensorType) + " - " + SampleName(group[0].sampleType), DataOf(group),
            GetColor(index, "1"), GetColor(index, "0.1"))
  }

  /** A pair that occurs labels its dataset with the names of its first reading's types. */
  lemma DatasetOfGroup(data: seq<Reading>, k: (JsNumber, JsNumber), index: nat)
    requires Occurrences(data, PairKey, k) > 0
    ensures var group := Group(data, PairKey, k);
      |group| > 0 && DatasetOf(data, k, index) == DatasetFrom(group, index)
  {
    var group := Group(data, PairKey, k);
    assert group[0] in group;
  }

  /** The grouping pass of createDatasets: the keys in insertion order and each key's readings. */
  method GroupByPair(data: seq<Reading>) returns (keys: seq<(JsNumber, JsNumber)>, groups: map<(JsNumber, JsNumber), seq<Reading>>)
    ensures keys == Keys(data, PairKey)
    ensures forall k :: k in groups <==> k in keys
    ensures forall k :: k in groups ==> groups[k] == Group(data, PairKey, k)
  {
    groups := map[];
    keys := [];
    for i := 0 to |data|
      invariant keys == Keys(data[..i], PairKey)
      invariant forall k :: k in groups <==> k in keys
      invariant forall k :: k in groups ==> groups[k] == Group(data[..i], PairKey, k)
    {
      assert data[..i + 1][..i] == data[..i];
      var d := data[i];
      var key := (d.sensorType, d.sampleType);
      if key !in groups {
        groups := groups[key := []];
        keys := keys + [key];
      }
      groups := groups[key := groups[key] + [d]];
    }
    assert data[..|data|] == data;
  }

  /** Each dataset is non-empty, and all its points come from readings of its own pair. */
  lemma DatasetsNonEmpty(data: seq<Reading>, i: nat)
    requires i < |Keys(data, PairKey)|
    ensures var k := Keys(data, PairKey)[i];
      |DatasetOf(data, k, i).values| > 0 &&
      forall d :: d in Group(data, PairKey, k) <==> d in data && d.sensorType == k.0 && d.sampleType == k.1
  {
    var k := Keys(data, PairKey)[i];
    assert k in Keys(data, PairKey);
  }

  // ---------------------------------------------------------------------
  // getColor

  /** The six base colours, as the r, g, b triples inside rgba(...). */
  const PALETTE: seq<string> := [
    "102, 126, 234", "118, 75, 162", "56, 178, 172", "245, 101, 101", "237, 137, 54", "72, 187, 120"
  ]

  /** getColor(index, alpha): the palette colour at index modulo six, with the given alpha text. */
  function GetColor(index: nat, alpha: string): string
  {
    "rgba(" + PALETTE[index % |PALETTE|] + ", " + alpha + ")"
  }

  /** The colours repeat every six datasets. */
  lemma ColorPeriod(index: nat, alpha: string)
    ensures GetColor(index + 6, alpha) == GetColor(index, alpha)
  {
    assert (index + 6) % 6 == index % 6;
  }

  /** Six consecutive datasets get six different colours. */
  lemma ColorsDistinct(i: nat, j: nat, alpha: string)
    requires i % 6 != j % 6
    ensures GetColor(i, alpha) != GetColor(j, alpha)
  {
    var a := i % 6;
    var b := j % 6;
    assert GetColor(i, alpha)[5] == PALETTE[a][0] && GetColor(i, alpha)[6] == PALETTE[a][1];
    assert GetColor(j, alpha)[5] == PALETTE[b][0] && GetColor(j, alpha)[6] == PALETTE[b][1];
    assert PALETTE[a][..2] != PALETTE[b][..2] by {
      assert PALETTE[0][..2] == "10" && PALETTE[1][..2] == "11" && PALETTE[2][..2] == "56";
      assert PALETTE[3][..2] == "24" && PALETTE[4][..2] == "23" && PALETTE[5][..2] == "72";
    }
  }

  // ---------------------------------------------------------------------
  // The loaded readings

  /** The view's state: the global sensorData list. */
  class Dashboard {
    var sensorData: seq<Reading>

    constructor ()
      ensures sensorData == []
    {
      sensorData := [];
    }

    /** The data file upload handler: sensorData becomes the parse of the file. */
    method LoadSensorData(content: string, dec: Decoders)
      modifies this
      ensures sensorData == ParseReadingLines(Split(content, '\n'), dec)
    {
      sensorData := ParseSensorData(content, dec);
    }

    /** getFilteredData with the two drop-down values. */
    method GetFilteredData(sensorTypeFilter: string, sampleTypeFilter: string, dec: Decoders)
      returns (filtered: seq<Reading>)
      ensures filtered == FilteredData(sensorData, FilterOf(sensorTypeFilter, dec), FilterOf(sampleTypeFilter, dec))
    {
      filtered := sensorData;
      if sensorTypeFilter != "all" {
        filtered := FilterBy(filtered, SensorTypeField, Only(dec.parseInt(sensorTypeFilter)));
      } else {
        FilterAllKeeps(filtered, SensorTypeField);
      }
      if sampleTypeFilter != "all" {
        filtered := FilterBy(filtered, SampleTypeField, Only(dec.parseInt(sampleTypeFilter)));
      } else {
        FilterAllKeeps(filtered, SampleTypeField);
      }
    }

    /** getHealthStatusCounts: the status counts of the filtered readings. */
    method GetHealthStatusCounts(sensorTypeFilter: string, sampleTypeFilter: string, dec: Decoders)
      returns (counts: map<JsNumber, nat>)
      ensures var shown := FilteredData(sensorData, FilterOf(sensorTypeFilter, dec), FilterOf(sampleTypeFilter, dec));
        (forall k :: k in counts <==> Occurrences(shown, StatusKey, k) > 0) &&
        (forall k :: k in counts ==> counts[k] == Occurrences(shown, StatusKey, k))
    {
      var filtered := GetFilteredData(sensorTypeFilter, sampleTypeFilter, dec);
      counts := HealthStatusCounts(filtered);
    }
  }
}

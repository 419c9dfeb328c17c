/**
 * The web tool's file formats and configuration editor (web/script.js).
 *
 * A configuration file holds one analyzer per line as seven comma-separated
 * fields (sensorType, sampleType, threshold1..threshold5); blank lines and
 * '#' comments are skipped. A data file holds one reading per line as five
 * fields (sensorType, sampleType, timestamp, data, healthStatus). The editor
 * keeps the global configData list, appends default entries, removes one
 * by index, validates thresholds and writes the list back out as a file the
 * parser reads back.
 *
 * parseInt, parseFloat and the number-to-text conversion of template
 * literals are not modelled: they are the parameters `dec` and `show`.
 */
module WebConfig {
  import opened WebText

  /** A JavaScript number as the parsers produce it. */
  datatype JsNumber = NaN | Num(v: real) | Infinity(negative: bool)

  /** === on numbers: NaN equals nothing, not even itself. */
  predicate StrictEquals(a: JsNumber, b: JsNumber)
  {
    !a.NaN? && a == b
  }

  /** One analyzer configuration, as parseConfigFile builds it. */
  datatype Config = Config(sensorType: JsNumber, sampleType: JsNumber,
                           threshold1: JsNumber, threshold2: JsNumber, threshold3: JsNumber,
                           threshold4: JsNumber, threshold5: JsNumber)

  /** One sensor reading, as parseSensorData builds it. */
  datatype Reading = Reading(sensorType: JsNumber, sampleType: JsNumber, timestamp: JsNumber,
                             data: JsNumber, healthStatus: JsNumber)

  /** parseInt and parseFloat applied to one field. */
  datatype Decoders = Decoders(parseInt: string -> JsNumber, parseFloat: string -> JsNumber)

  /** The configuration addConfigItem appends: types 0/0 and all thresholds 0. */
  const DEFAULT_CONFIG: Config := Config(Num(0.0), Num(0.0), Num(0.0), Num(0.0), Num(0.0), Num(0.0), Num(0.0))

  function ConfigOf(parts: seq<string>, dec: Decoders): Config
    requires |parts| == 7
  {
    Config(dec.parseInt(parts[0]), dec.parseInt(parts[1]),
           dec.parseFloat(parts[2]), dec.parseFloat(parts[3]), dec.parseFloat(parts[4]),
           dec.parseFloat(parts[5]), dec.parseFloat(parts[6]))
  }

  function ReadingOf(parts: seq<string>, dec: Decoders): Reading
    requires |parts| == 5
  {
    Reading(dec.parseInt(parts[0]), dec.parseInt(parts[1]), dec.parseInt(parts[2]),
            dec.parseFloat(parts[3]), dec.parseInt(parts[4]))
  }

  // ---------------------------------------------------------------------
  // parseConfigFile

  /** A configuration line that is blank or a comment once trimmed. */
  predicate ConfigSkipped(line: string)
  {
    var t := Trim(line);
    |t| == 0 || t[0] == '#'
  }

  /** What one input line contributes to parseConfigFile's result. */
  function ConfigLine(line: string, dec: Decoders): seq<Config>
  {
    var t := Trim(line);
    if |t| == 0 || t[0] == '#' then []
    else
      var parts := Split(t, ',');
      if |parts| == 7 then [ConfigOf(parts, dec)] else []
  }

  /** parseConfigFile's result for the given lines. */
  function ParseConfigLines(lines: seq<string>, dec: Decoders): seq<Config>
  {
    if |lines| == 0 then []
    else ParseConfigLines(lines[..|lines| - 1], dec) + ConfigLine(lines[|lines| - 1], dec)
  }

  /** A line yields at most one configuration: exactly when it is kept and has seven fields. */
  lemma ConfigLineKeeps(line: string, dec: Decoders)
    ensures |ConfigLine(line, dec)| <= 1
    ensures |ConfigLine(line, dec)| == 1 <==> !ConfigSkipped(line) && |Split(Trim(line), ',')| == 7
  {
  }

  /** The result follows the input order: the parse of two blocks of lines is the parses one after the other. */
  lemma {:induction false} ParseConfigLinesAppend(a: seq<string>, b: seq<string>, dec: Decoders)
    ensures ParseConfigLines(a + b, dec) == ParseConfigLines(a, dec) + ParseConfigLines(b, dec)
  {
    if |b| > 0 {
      assert (a + b)[..|a + b| - 1] == a + b[..|b| - 1];
      ParseConfigLinesAppend(a, b[..|b| - 1], dec);
    } else {
      assert a + b == a;
    }
  }

  /** No more configurations than lines. */
  lemma {:induction false} ParseConfigLinesLength(lines: seq<string>, dec: Decoders)
    ensures |ParseConfigLines(lines, dec)| <= |lines|
  {
    if |lines| > 0 {
      ParseConfigLinesLength(lines[..|lines| - 1], dec);
      ConfigLineKeeps(lines[|lines| - 1], dec);
    }
  }

  /** Blank and comment lines contribute nothing. */
  lemma {:induction false} SkippedLinesIgnored(lines: seq<string>, dec: Decoders)
    requires forall l :: l in lines ==> ConfigSkipped(l)
    ensures ParseConfigLines(lines, dec) == []
  {
    if |lines| > 0 {
      assert lines[|lines| - 1] in lines;
      SkippedLinesIgnored(lines[..|lines| - 1], dec);
    }
  }

  /** parseConfigFile: split on '\n', trim, skip, split on ',', keep seven-field lines. */
  method ParseConfigFile(content: string, dec: Decoders) returns (configs: seq<Config>)
    ensures configs == ParseConfigLines(Split(content, '\n'), dec)
  {
    var lines := Split(content, '\n');
    configs := [];
    for i := 0 to |lines|
      invariant configs == ParseConfigLines(lines[..i], dec)
    {
      assert lines[..i + 1][..i] == lines[..i];
      var line := Trim(lines[i]);
      if |line| == 0 || line[0] == '#' {
        continue;
      }
      var parts := Split(line, ',');
      if |parts| == 7 {
        configs := configs + [ConfigOf(parts, dec)];
      }
    }
    assert lines[..|lines|] == lines;
  }

  // ---------------------------------------------------------------------
  // parseSensorData

  /** What one input line contributes to parseSensorData's result; '#' lines are not skipped. */
  function ReadingLine(line: string, dec: Decoders): seq<Reading>
  {
    var t := Trim(line);
    if |t| == 0 then []
    else
      var parts := Split(t, ',');
      if |parts| == 5 then [ReadingOf(parts, dec)] else []
  }

  function ParseReadingLines(lines: seq<string>, dec: Decoders): seq<Reading>
  {
    if |lines| == 0 then []
    else ParseReadingLines(lines[..|lines| - 1], dec) + ReadingLine(lines[|lines| - 1], dec)
  }

  /** A data line is kept exactly when it is not blank and has five fields. */
  lemma ReadingLineKeeps(line: string, dec: Decoders)
    ensures |ReadingLine(line, dec)| <= 1
    ensures |ReadingLine(line, dec)| == 1 <==> |Trim(line)| > 0 && |Split(Trim(line), ',')| == 5
  {
  }

  lemma {:induction false} ParseReadingLinesAppend(a: seq<string>, b: seq<string>, dec: Decoders)
    ensures ParseReadingLines(a + b, dec) == ParseReadingLines(a, dec) + ParseReadingLines(b, dec)
  {
    if |b| > 0 {
      assert (a + b)[..|a + b| - 1] == a + b[..|b| - 1];
      ParseReadingLinesAppend(a, b[..|b| - 1], dec);
    } else {
      assert a + b == a;
    }
  }

  lemma {:induction false} ParseReadingLinesLength(lines: seq<string>, dec: Decoders)
    ensures |ParseReadingLines(lines, dec)| <= |lines|
  {
    if |lines| > 0 {
      ParseReadingLinesLength(lines[..|lines| - 1], dec);
      ReadingLineKeeps(lines[|lines| - 1], dec);
    }
  }

  /**
   * The two parsers differ on comments: a '#' line is never a
   * configuration, but with five fields it is a reading (its first field is
   * whatever parseInt makes of a text that starts with '#').
   */
  lemma CommentsKeptOnlyInData(line: string, dec: Decoders)
    requires |Trim(line)| > 0 && Trim(line)[0] == '#'
    ensures ConfigLine(line, dec) == []
    ensures |Split(Trim(line), ',')| == 5 ==> ReadingLine(line, dec) == [ReadingOf(Split(Trim(line), ','), dec)]
  {
  }

  /** A join of visible pieces with a visible separator is visible throughout. */
  lemma {:induction false} JoinPlain(parts: seq<string>, sep: char)
    requires !IsSpace(sep) && forall p :: p in parts ==> forall i :: 0 <= i < |p| ==> !IsSpace(p[i])
    ensures forall i :: 0 <= i < |Join(parts, sep)| ==> !IsSpace(Join(parts, sep)[i])
  {
    if |parts| > 1 {
      assert parts[0] in parts;
      JoinPlain(parts[1..], sep);
      var rest := Join(parts[1..], sep);
      assert Join(parts, sep) == parts[0] + [sep] + rest;
    } else if |parts| == 1 {
      assert parts[0] in parts;
    }
  }

  /** parseSensorData: as parseConfigFile, but only blank lines are skipped and five fields are wanted. */
  method ParseSensorData(content: string, dec: Decoders) returns (data: seq<Reading>)
    ensures data == ParseReadingLines(Split(content, '\n'), dec)
  {
    var lines := Split(content, '\n');
    data := [];
    for i := 0 to |lines|
      invariant data == ParseReadingLines(lines[..i], dec)
    {
      assert lines[..i + 1][..i] == lines[..i];
      var line := Trim(lines[i]);
      if |line| == 0 {
        continue;
      }
      var parts := Split(line, ',');
      if |parts| == 5 {
        data := data + [ReadingOf(parts, dec)];
      }
    }
    assert lines[..|lines|] == lines;
  }

  // ---------------------------------------------------------------------
  // downloadConfig

  /**
   * The header downloadConfig writes, line by line: four comment lines, then a
   * blank separator line. Each line is spelled as a concatenation of short
   * literals, because the verifier reasons about the characters of a short
   * literal directly but not about those of a long one.
   */
  const HEADER_LINES: seq<string> := [
    "# " + "Configurações dos Analyzers",
    "# " + "Formato: " + "sensorType,sampleType," + "threshold1,threshold2," + "threshold3,threshold4," + "threshold5",
    "# " + "sensorType: " + "0=OXIMETER, " + "1=ACCELEROMETER, " + "2=GPS",
    "# " + "sampleType: " + "0=SPO2, 1=HEART_RATE, " + "2=TEMPERATURE, " + "3=LATITUDE, 4=LONGITUDE, " +
      "5=ALTITUDE, 6=SATELLITES, " + "7=SPEED_KPH, 8=ACCEL",
    ""
  ]

  /** SENSOR_TYPES[x]: a missing key reads as undefined. */
  function SensorName(x: JsNumber): string
  {
    if x == Num(0.0) then "OXIMETER"
    else if x == Num(1.0) then "ACCELEROMETER"
    else if x == Num(2.0) then "GPS"
    else "undefined"
  }

  /** SAMPLE_TYPES[x]: a missing key reads as undefined. */
  function SampleName(x: JsNumber): string
  {
    if x == Num(0.0) then "SPO2"
    else if x == Num(1.0) then "HEART_RATE"
    else if x == Num(2.0) then "TEMPERATURE"
    else if x == Num(3.0) then "LATITUDE"
    else if x == Num(4.0) then "LONGITUDE"
    else if x == Num(5.0) then "ALTITUDE"
    else if x == Num(6.0) then "SATELLITES"
    else if x == Num(7.0) then "SPEED_KPH"
    else if x == Num(8.0) then "ACCEL"
    else "undefined"
  }

  /** The seven fields of a configuration as downloadConfig prints them. */
  function Fields(c: Config, show: JsNumber -> string): seq<string>
  {
    [show(c.sensorType), show(c.sampleType), show(c.threshold1), show(c.threshold2),
     show(c.threshold3), show(c.threshold4), show(c.threshold5)]
  }

  /** The three lines downloadConfig writes per configuration: a named comment, the data line, a blank line. */
  function EntryLines(c: Config, show: JsNumber -> string): seq<string>
  {
    [Comment(c), Join(Fields(c, show), ','), ""]
  }

  /** The comment line naming a configuration's sensor and sample. */
  function Comment(c: Config): string
  {
    "# " + SensorName(c.sensorType) + " - " + SampleName(c.sampleType)
  }

  function AllEntryLines(cs: seq<Config>, show: JsNumber -> string): seq<string>
  {
    if |cs| == 0 then [] else AllEntryLines(cs[..|cs| - 1], show) + EntryLines(cs[|cs| - 1], show)
  }

  /** The file downloadConfig produces. */
  function ConfigText(cs: seq<Config>, show: JsNumber -> string): string
  {
    Terminated(HEADER_LINES + AllEntryLines(cs, show), '\n')
  }

  /** A printed number is one field: no white space, no comma, no '#'. */
  predicate PlainField(s: string)
  {
    forall i :: 0 <= i < |s| ==> !IsSpace(s[i]) && s[i] != ',' && s[i] != '#'
  }

  /** Reading a printed field back gives the number that was printed. */
  predicate DecodesBack(c: Config, dec: Decoders, show: JsNumber -> string)
  {
    dec.parseInt(show(c.sensorType)) == c.sensorType && dec.parseInt(show(c.sampleType)) == c.sampleType &&
    dec.parseFloat(show(c.threshold1)) == c.threshold1 && dec.parseFloat(show(c.threshold2)) == c.threshold2 &&
    dec.parseFloat(show(c.threshold3)) == c.threshold3 && dec.parseFloat(show(c.threshold4)) == c.threshold4 &&
    dec.parseFloat(show(c.threshold5)) == c.threshold5
  }

  /** Blank lines and lines that start with '#' contribute nothing. */
  lemma {:induction false} CommentsIgnored(lines: seq<string>, dec: Decoders)
    requires forall i :: 0 <= i < |lines| ==> lines[i] == "" || lines[i][0] == '#'
    ensures ParseConfigLines(lines, dec) == []
  {
    forall l | l in lines
      ensures ConfigSkipped(l)
    {
      var i :| 0 <= i < |lines| && lines[i] == l;
      if l != "" {
        TrimFirst(l);
      }
    }
    SkippedLinesIgnored(lines, dec);
  }

  /** No character of s is a line break. */
  predicate SingleLine(s: string)
  {
    forall i :: 0 <= i < |s| ==> s[i] != '\n'
  }

  lemma HeaderIgnored(dec: Decoders)
    ensures ParseConfigLines(HEADER_LINES, dec) == []
    ensures forall l :: l in HEADER_LINES ==> '\n' !in l
  {
    assert HEADER_LINES[0][0] == '#';
    assert HEADER_LINES[1][0] == '#';
    assert HEADER_LINES[2][0] == '#';
    assert HEADER_LINES[3][0] == '#';
    assert HEADER_LINES[4] == "";
    CommentsIgnored(HEADER_LINES, dec);
    HeaderSingleLine();
  }

  lemma HeaderSingleLine()
    ensures forall l :: l in HEADER_LINES ==> '\n' !in l
  {
    HeaderLine0Single();
    HeaderLine1Single();
    HeaderLine2Single();
    HeaderLine3Single();
  }
  lemma HeaderLine0Single()
    ensures SingleLine(HEADER_LINES[0])
  {
    var s := "# ";
    assert SingleLine(s);
    assert SingleLine("Configurações dos Analyzers");
    SingleLineAppend(s, "Configurações dos Analyzers");
    s := s + "Configurações dos Analyzers";
  }

  lemma HeaderLine1Single()
    ensures SingleLine(HEADER_LINES[1])
  {
    var s := "# ";
    assert SingleLine(s);
    assert SingleLine("Formato: ");
    SingleLineAppend(s, "Formato: ");
    s := s + "Formato: ";
    assert SingleLine("sensorType,sampleType,");
    SingleLineAppend(s, "sensorType,sampleType,");
    s := s + "sensorType,sampleType,";
    assert SingleLine("threshold1,threshold2,");
    SingleLineAppend(s, "threshold1,threshold2,");
    s := s + "threshold1,threshold2,";
    assert SingleLine("threshold3,threshold4,");
    SingleLineAppend(s, "threshold3,threshold4,");
    s := s + "threshold3,threshold4,";
    assert SingleLine("threshold5");
    SingleLineAppend(s, "threshold5");
    s := s + "threshold5";
  }

  lemma HeaderLine2Single()
    ensures SingleLine(HEADER_LINES[2])
  {
    var s := "# ";
    assert SingleLine(s);
    assert SingleLine("sensorType: ");
    SingleLineAppend(s, "sensorType: ");
    s := s + "sensorType: ";
    assert SingleLine("0=OXIMETER, ");
    SingleLineAppend(s, "0=OXIMETER, ");
    s := s + "0=OXIMETER, ";
    assert SingleLine("1=ACCELEROMETER, ");
    SingleLineAppend(s, "1=ACCELEROMETER, ");
    s := s + "1=ACCELEROMETER, ";
    assert SingleLine("2=GPS");
    SingleLineAppend(s, "2=GPS");
    s := s + "2=GPS";
  }

  lemma HeaderLine3Single()
    ensures SingleLine(HEADER_LINES[3])
  {
    var s := "# ";
    assert SingleLine(s);
    assert SingleLine("sampleType: ");
    SingleLineAppend(s, "sampleType: ");
    s := s + "sampleType: ";
    assert SingleLine("0=SPO2, 1=HEART_RATE, ");
    SingleLineAppend(s, "0=SPO2, 1=HEART_RATE, ");
    s := s + "0=SPO2, 1=HEART_RATE, ";
    assert SingleLine("2=TEMPERATURE, ");
    SingleLineAppend(s, "2=TEMPERATURE, ");
    s := s + "2=TEMPERATURE, ";
    assert SingleLine("3=LATITUDE, 4=LONGITUDE, ");
    SingleLineAppend(s, "3=LATITUDE, 4=LONGITUDE, ");
    s := s + "3=LATITUDE, 4=LONGITUDE, ";
    assert SingleLine("5=ALTITUDE, 6=SATELLITES, ");
    SingleLineAppend(s, "5=ALTITUDE, 6=SATELLITES, ");
    s := s + "5=ALTITUDE, 6=SATELLITES, ";
    assert SingleLine("7=SPEED_KPH, 8=ACCEL");
    SingleLineAppend(s, "7=SPEED_KPH, 8=ACCEL");
    s := s + "7=SPEED_KPH, 8=ACCEL";
  }

  /** Two pieces without a line break make a string without one. */
  lemma SingleLineAppend(a: string, b: string)
    requires SingleLine(a) && SingleLine(b)
    ensures SingleLine(a + b)
  {
  }

  /** Seven plain fields joined by commas make a data line that yields exactly their configuration. */
  lemma DataLineParses(parts: seq<string>, dec: Decoders)
    requires |parts| == 7 && forall p :: p in parts ==> PlainField(p)
    ensures ConfigLine(Join(parts, ','), dec) == [ConfigOf(parts, dec)]
  {
    var line := Join(parts, ',');
    forall p | p in parts
      ensures ',' !in p && '#' !in p && forall i :: 0 <= i < |p| ==> !IsSpace(p[i])
    {
      assert PlainField(p);
    }
    JoinPlain(parts, ',');
    JoinBounds(parts, ',');
    TrimKeeps(line);
    SplitJoin(parts, ',');
  }

  lemma ParseOne(l: string, dec: Decoders)
    ensures ParseConfigLines([l], dec) == ConfigLine(l, dec)
  {
    assert [l][..0] == [];
  }

  lemma ParseThree(a: string, b: string, c: string, dec: Decoders)
    ensures ParseConfigLines([a, b, c], dec) == ConfigLine(a, dec) + ConfigLine(b, dec) + ConfigLine(c, dec)
  {
    assert [a, b, c] == [a] + [b] + [c];
    ParseConfigLinesAppend([a] + [b], [c], dec);
    ParseConfigLinesAppend([a], [b], dec);
    ParseOne(a, dec);
    ParseOne(b, dec);
    ParseOne(c, dec);
  }

  /** One configuration's three lines parse back to that configuration. */
  lemma EntryRoundTrip(c: Config, dec: Decoders, show: JsNumber -> string)
    requires forall x :: PlainField(show(x))
    requires DecodesBack(c, dec, show)
    ensures ParseConfigLines(EntryLines(c, show), dec) == [c]
  {
    FieldsParse(c, dec, show);
    CommentSkipped(c, dec);
    CommentDataBlank(Comment(c), Join(Fields(c, show), ','), c, dec);
  }

  lemma CommentSkipped(c: Config, dec: Decoders)
    ensures ConfigLine(Comment(c), dec) == []
  {
    TrimFirst(Comment(c));
  }

  /** A skipped line, a line yielding c and a blank line yield c. */
  lemma CommentDataBlank(comment: string, data: string, c: Config, dec: Decoders)
    requires ConfigLine(comment, dec) == [] && ConfigLine(data, dec) == [c]
    ensures ParseConfigLines([comment, data, ""], dec) == [c]
  {
    assert ConfigLine("", dec) == [];
    ParseThree(comment, data, "", dec);
  }

  /** A configuration's data line parses back to it. */
  lemma FieldsParse(c: Config, dec: Decoders, show: JsNumber -> string)
    requires forall x :: PlainField(show(x))
    requires DecodesBack(c, dec, show)
    ensures ConfigLine(Join(Fields(c, show), ','), dec) == [c]
  {
    var f := Fields(c, show);
    assert forall p :: p in f ==> PlainField(p);
    DataLineParses(f, dec);
  }

  lemma NamesSingleLine(c: Config)
    ensures '\n' !in SensorName(c.sensorType) && '\n' !in SampleName(c.sampleType)
  {
    SensorNameSingle(c.sensorType);
    SampleNameSingle(c.sampleType);
  }

  lemma SensorNameSingle(x: JsNumber)
    ensures SingleLine(SensorName(x))
  {
    if x == Num(0.0) {
      assert SingleLine("OXIMETER");
    } else if x == Num(1.0) {
      assert SingleLine("ACCELEROMETER");
    } else if x == Num(2.0) {
      assert SingleLine("GPS");
    } else {
      assert SingleLine("undefined");
    }
  }

  lemma SampleNameSingle(x: JsNumber)
    ensures SingleLine(SampleName(x))
  {
    if x == Num(0.0) {
      assert SingleLine("SPO2");
    } else if x == Num(1.0) {
      assert SingleLine("HEART_RATE");
    } else if x == Num(2.0) {
      assert SingleLine("TEMPERATURE");
    } else if x == Num(3.0) {
      assert SingleLine("LATITUDE");
    } else if x == Num(4.0) {
      assert SingleLine("LONGITUDE");
    } else if x == Num(5.0) {
      assert SingleLine("ALTITUDE");
    } else if x == Num(6.0) {
      assert SingleLine("SATELLITES");
    } else if x == Num(7.0) {
      assert SingleLine("SPEED_KPH");
    } else if x == Num(8.0) {
      assert SingleLine("ACCEL");
    } else {
      assert SingleLine("undefined");
    }
  }

  /** None of an entry's lines contains a line break. */
  lemma EntryLinesSingle(c: Config, show: JsNumber -> string)
    requires forall x :: PlainField(show(x))
    ensures forall l :: l in EntryLines(c, show) ==> '\n' !in l
  {
    var f := Fields(c, show);
    assert forall p :: p in f ==> PlainField(p);
    JoinPlain(f, ',');
    assert IsSpace('\n');
    NamesSingleLine(c);
  }

  /** A join of pieces free of '#' starts with the first piece's first character or the separator, and has no '#'. */
  lemma {:induction false} JoinBounds(parts: seq<string>, sep: char)
    requires |parts| >= 2 && sep != '#' && forall p :: p in parts ==> '#' !in p
    ensures |Join(parts, sep)| > 0 && Join(parts, sep)[0] != '#'
  {
    var rest := Join(parts[1..], sep);
    assert Join(parts, sep) == parts[0] + [sep] + rest;
    assert parts[0] in parts;
  }

  lemma {:induction false} AllEntriesRoundTrip(cs: seq<Config>, dec: Decoders, show: JsNumber -> string)
    requires forall x :: PlainField(show(x))
    requires forall c :: c in cs ==> DecodesBack(c, dec, show)
    ensures ParseConfigLines(AllEntryLines(cs, show), dec) == cs
  {
    if |cs| > 0 {
      var front := cs[..|cs| - 1];
      var last := cs[|cs| - 1];
      assert ParseConfigLines(AllEntryLines(front, show), dec) == front by {
        assert forall c :: c in front ==> c in cs;
        AllEntriesRoundTrip(front, dec, show);
      }
      assert ParseConfigLines(EntryLines(last, show), dec) == [last] by {
        assert last in cs;
        EntryRoundTrip(last, dec, show);
      }
      EntryAppendedParses(cs, dec, show);
    }
  }

  /** Appending one entry whose lines parse back appends its configuration. */
  lemma EntryAppendedParses(cs: seq<Config>, dec: Decoders, show: JsNumber -> string)
    requires |cs| > 0
    requires ParseConfigLines(AllEntryLines(cs[..|cs| - 1], show), dec) == cs[..|cs| - 1]
    requires ParseConfigLines(EntryLines(cs[|cs| - 1], show), dec) == [cs[|cs| - 1]]
    ensures ParseConfigLines(AllEntryLines(cs, show), dec) == cs
  {
    var front := cs[..|cs| - 1];
    var last := cs[|cs| - 1];
    assert AllEntryLines(cs, show) == AllEntryLines(front, show) + EntryLines(last, show);
    ParseConfigLinesAppend(AllEntryLines(front, show), EntryLines(last, show), dec);
    FrontAndLast(cs);
  }

  lemma {:induction false} AllEntriesSingleLine(cs: seq<Config>, show: JsNumber -> string)
    requires forall x :: PlainField(show(x))
    ensures forall l :: l in AllEntryLines(cs, show) ==> '\n' !in l
  {
    if |cs| > 0 {
      AllEntriesSingleLine(cs[..|cs| - 1], show);
      EntryLinesSingle(cs[|cs| - 1], show);
    }
  }

  /**
   * downloadConfig's file parses back to the list it was written from: the
   * header, the name comments and the blank lines are all skipped, and each
   * data line yields its configuration again, in order. This holds when
   * printed numbers are plain fields and the decoders read them back.
   */
  lemma DownloadRoundTrip(cs: seq<Config>, dec: Decoders, show: JsNumber -> string)
    requires forall x :: PlainField(show(x))
    requires forall c :: c in cs ==> DecodesBack(c, dec, show)
    ensures ParseConfigLines(Split(ConfigText(cs, show), '\n'), dec) == cs
  {
    HeaderIgnored(dec);
    AllEntriesRoundTrip(cs, dec, show);
    AllEntriesSingleLine(cs, show);
    TextRoundTrip(HEADER_LINES, AllEntryLines(cs, show), cs, dec);
  }

  /** Terminated text made of ignored lines followed by lines that parse to cs parses to cs. */
  lemma TextRoundTrip(header: seq<string>, entries: seq<string>, cs: seq<Config>, dec: Decoders)
    requires ParseConfigLines(header, dec) == [] && ParseConfigLines(entries, dec) == cs
    requires forall l :: l in header ==> '\n' !in l
    requires forall l :: l in entries ==> '\n' !in l
    ensures ParseConfigLines(Split(Terminated(header + entries, '\n'), '\n'), dec) == cs
  {
    var lines := header + entries;
    assert Split(Terminated(lines, '\n'), '\n') == lines + [""] by {
      assert forall l :: l in lines ==> '\n' !in l;
      SplitTerminated(lines, '\n');
    }
    assert ParseConfigLines(lines, dec) == cs by {
      ParseConfigLinesAppend(header, entries, dec);
    }
    assert ParseConfigLines([""], dec) == [] by {
      assert ConfigLine("", dec) == [];
    }
    ParseConfigLinesAppend(lines, [""], dec);
  }

  // ---------------------------------------------------------------------
  // removeConfigItem

  /** Array.prototype.splice(index, 1): a negative index counts from the end; an index past the end removes nothing. */
  function Spliced<T>(s: seq<T>, index: int): (r: seq<T>)
  {
    var start := if index < 0 then (if |s| + index < 0 then 0 else |s| + index)
                 else (if index > |s| then |s| else index);
    if start < |s| then s[..start] + s[start + 1..] else s
  }

  /**
   * splice(i, 1) for 0 <= i < |s| removes exactly entry i and keeps the
   * others in order; an index at or past the end changes nothing; a negative
   * index -k removes entry |s| - k, and below -|s| it removes the first.
   */
  lemma SplicedFacts<T>(s: seq<T>, index: int)
    ensures 0 <= index < |s| ==>
      var r := Spliced(s, index);
      |r| == |s| - 1 && (forall j :: 0 <= j < index ==> r[j] == s[j]) &&
      (forall j :: index <= j < |r| ==> r[j] == s[j + 1])
    ensures index >= |s| ==> Spliced(s, index) == s
    ensures -|s| <= index < 0 ==> Spliced(s, index) == Spliced(s, |s| + index)
    ensures index < -|s| ==> Spliced(s, index) == Spliced(s, 0)
  {
  }

  /** Removing the entry just added undoes addConfigItem. */
  lemma RemoveUndoesAdd<T>(s: seq<T>, x: T)
    ensures Spliced(s + [x], |s|) == s
    ensures Spliced(s + [x], -1) == s
  {
    assert (s + [x])[..|s|] == s;
  }

  // ---------------------------------------------------------------------
  // saveConfig

  /** A configuration with a threshold that isNaN rejects. */
  predicate HasNaNThreshold(c: Config)
  {
    c.threshold1.NaN? || c.threshold2.NaN? || c.threshold3.NaN? || c.threshold4.NaN? || c.threshold5.NaN?
  }

  /** The notification saveConfig shows. */
  datatype Notice = Success | Error

  /** The editor's state: the global configData list. */
  class ConfigEditor {
    var configData: seq<Config>

    constructor ()
      ensures configData == []
    {
      configData := [];
    }

    /** The config file upload handler: configData becomes the parse of the file. */
    method LoadConfigFile(content: string, dec: Decoders)
      modifies this
      ensures configData == ParseConfigLines(Split(content, '\n'), dec)
    {
      configData := ParseConfigFile(content, dec);
    }

    /** addConfigItem: one default configuration appended at the end. */
    method AddConfigItem()
      modifies this
      ensures configData == old(configData) + [DEFAULT_CONFIG]
    {
      configData := configData + [DEFAULT_CONFIG];
    }

    /** removeConfigItem: configData.splice(index, 1). */
    method RemoveConfigItem(index: int)
      modifies this
      ensures configData == Spliced(old(configData), index)
    {
      configData := Spliced(configData, index);
    }

    /** saveConfig: an error as soon as some configuration has a NaN threshold, success otherwise. */
    method SaveConfig() returns (notice: Notice)
      ensures notice == Error <==> exists i :: 0 <= i < |configData| && HasNaNThreshold(configData[i])
    {
      for i := 0 to |configData|
        invariant forall j :: 0 <= j < i ==> !HasNaNThreshold(configData[j])
      {
        var config := configData[i];
        if config.threshold1.NaN? || config.threshold2.NaN? || config.threshold3.NaN? ||
           config.threshold4.NaN? || config.threshold5.NaN? {
          return Error;
        }
      }
      return Success;
    }

    /** downloadConfig: the header, then a comment line, a data line and a blank line per configuration. */
    method DownloadConfig(show: JsNumber -> string) returns (content: string)
      ensures content == ConfigText(configData, show)
    {
      content := Terminated(HEADER_LINES, '\n');
      ghost var header := content;
      for i := 0 to |configData|
        invariant content == header + Terminated(AllEntryLines(configData[..i], show), '\n')
      {
        var config := configData[i];
        var sensorName := SensorName(config.sensorType);
        var sampleName := SampleName(config.sampleType);
        var csv := show(config.sensorType) + "," + show(config.sampleType) + "," + show(config.threshold1) + "," +
                   show(config.threshold2) + "," + show(config.threshold3) + "," + show(config.threshold4) + "," +
                   show(config.threshold5);
        var entry := "# " + sensorName + " - " + sampleName + "\n" + csv + "\n\n";
        EntryTextIs(config, show);
        EntryAppended(configData, i, show);
        content := content + entry;
        AppendAssoc(header, Terminated(AllEntryLines(configData[..i], show), '\n'), entry);
      }
      assert configData[..|configData|] == configData;
      TerminatedAppend(HEADER_LINES, AllEntryLines(configData, show), '\n');
    }
  }

  lemma AppendAssoc(a: string, b: string, c: string)
    ensures a + b + c == a + (b + c)
  {
  }

  /** The text of one configuration's three lines. */
  function EntryText(c: Config, show: JsNumber -> string): string
  {
    Terminated(EntryLines(c, show), '\n')
  }

  /** The text downloadConfig's template literals build for one configuration. */
  lemma EntryTextIs(c: Config, show: JsNumber -> string)
    ensures EntryText(c, show) ==
            "# " + SensorName(c.sensorType) + " - " + SampleName(c.sampleType) + "\n" +
            (show(c.sensorType) + "," + show(c.sampleType) + "," + show(c.threshold1) + "," +
             show(c.threshold2) + "," + show(c.threshold3) + "," + show(c.threshold4) + "," +
             show(c.threshold5)) + "\n\n"
  {
    CsvIsJoin(c, show);
    TerminatedThree(Comment(c), Join(Fields(c, show), ','), "", '\n');
  }

  /** One more configuration adds its text to the text of those before it. */
  lemma EntryAppended(cs: seq<Config>, i: nat, show: JsNumber -> string)
    requires i < |cs|
    ensures Terminated(AllEntryLines(cs[..i + 1], show), '\n') ==
            Terminated(AllEntryLines(cs[..i], show), '\n') + EntryText(cs[i], show)
  {
    assert cs[..i + 1][..i] == cs[..i];
    TerminatedAppend(AllEntryLines(cs[..i], show), EntryLines(cs[i], show), '\n');
  }

  lemma TerminatedThree(a: string, b: string, c: string, sep: char)
    ensures Terminated([a, b, c], sep) == a + [sep] + b + [sep] + c + [sep]
  {
    assert [a, b, c][1..] == [b, c];
    assert [b, c][1..] == [c];
    assert [c][1..] == [];
    assert Terminated([c], sep) == c + [sep];
    assert Terminated([b, c], sep) == b + [sep] + c + [sep];
  }

  /** The template literal of a data line is the seven fields joined by commas. */
  lemma CsvIsJoin(c: Config, show: JsNumber -> string)
    ensures Join(Fields(c, show), ',') ==
            show(c.sensorType) + "," + show(c.sampleType) + "," + show(c.threshold1) + "," +
            show(c.threshold2) + "," + show(c.threshold3) + "," + show(c.threshold4) + "," + show(c.threshold5)
  {
    var f := Fields(c, show);
    assert Join(f[6..], ',') == f[6];
    assert Join(f[5..], ',') == f[5] + "," + f[6];
    assert Join(f[4..], ',') == f[4] + "," + Join(f[5..], ',');
    assert Join(f[3..], ',') == f[3] + "," + Join(f[4..], ',');
    assert Join(f[2..], ',') == f[2] + "," + Join(f[3..], ',');
    assert Join(f[1..], ',') == f[1] + "," + Join(f[2..], ',');
    assert Join(f, ',') == f[0] + "," + Join(f[1..], ',');
  }
}

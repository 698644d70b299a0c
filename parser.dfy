/**
 * Beatmap.parse: the .osu text is split into lines, comment and storyboard
 * lines are dropped, the rest trimmed and empty ones dropped; the first line
 * left must be the format header, and every later line either opens a
 * `[Section]` or goes to that section's handler. The handlers set key:value
 * fields, append timing points, or append hit objects and bump a counter.
 *
 * The pure functions below say what one line does to the beatmap (LineStep) and
 * what the whole file gives (ParseOf); the method Parse does it in place on
 * a Beatmap and is proved to agree with them.
 */
module Parser {
  import opened Wrappers
  import opened Text
  import opened Beatmaps
  import Seqs

  /** `parseFloat` and `parseInt(·, 10)`, taken as given. */
  datatype Readers = Readers(parseFloat: string -> real, parseInt: string -> int)

  datatype ParseError =
    | InvalidHeader   // SyntaxError('Invalid .osu file!')

  // ---------------------------------------------------------- line filtering

  /** Drop comment lines, trim the rest and drop the empty ones. */
  function Prepare(raw: seq<string>): (lines: seq<string>)
    ensures |lines| <= |raw|
    ensures forall i :: 0 <= i < |lines| ==> TrimmedLine(lines[i])
  {
    if raw == [] then []
    else
      var rest := Prepare(raw[1..]);
      var line := Trim(raw[0]);
      if IsCommentLine(raw[0]) || line == [] then rest
      else
        TrimEnds(raw[0]);
        [line] + rest
  }

  /** A non-empty line with no whitespace at either end. */
  predicate TrimmedLine(line: string)
  {
    line != [] && !IsWhitespace(line[0]) && !IsWhitespace(line[|line| - 1])
  }

  /** Filtering and trimming works line by line: it distributes over concatenation. */
  lemma {:induction false} PrepareAppend(a: seq<string>, b: seq<string>)
    ensures Prepare(a + b) == Prepare(a) + Prepare(b)
  {
    if a != [] {
      assert (a + b)[1..] == a[1..] + b;
      PrepareAppend(a[1..], b);
    } else {
      assert a + b == b;
    }
  }

  /** A kept line is the trimmed text of a line that is not a comment. */
  lemma PrepareOne(raw: string)
    ensures !IsCommentLine(raw) && Trim(raw) != [] ==> Prepare([raw]) == [Trim(raw)]
    ensures IsCommentLine(raw) || Trim(raw) == [] ==> Prepare([raw]) == []
  {
    assert [raw][1..] == [];
  }

  function PreparedLines(file: string): seq<string>
  {
    Prepare(Split(file, '\n'))
  }

  // ------------------------------------------------------------ line handlers

  /**
   * The text of field `i`, or "undefined" when the line has fewer fields:
   * that is the text `parseFloat` and `parseInt` read from a missing element.
   */
  function Field(fields: seq<string>, i: nat): string
  {
    if i < |fields| then fields[i] else "undefined"
  }

  /** The properties `metaToPropMap` names. */
  datatype MetaProp = Title | TitleUnicode | Artist | ArtistUnicode | Creator | Version | ModeProp

  /** metaToPropMap: the metadata key a property is read from. */
  function MetaPropOf(key: string): Option<MetaProp>
  {
    if key == "Title" then Some(Title)
    else if key == "TitleUnicode" then Some(TitleUnicode)
    else if key == "Artist" then Some(Artist)
    else if key == "ArtistUnicode" then Some(ArtistUnicode)
    else if key == "Creator" then Some(Creator)
    else if key == "Version" then Some(Version)
    else if key == "Mode" then Some(ModeProp)
    else None
  }

  /** Property `prop` of `m` holds `value` (the mode holds it as text). */
  predicate MetaIs(m: MapValue, prop: MetaProp, value: string)
  {
    match prop
    case Title => m.title == value
    case TitleUnicode => m.titleUnicode == value
    case Artist => m.artist == value
    case ArtistUnicode => m.artistUnicode == value
    case Creator => m.creator == value
    case Version => m.version == value
    case ModeProp => m.mode == ModeText(value)
  }

  /** `a` and `b` agree on property `prop`. */
  predicate SameMeta(a: MapValue, b: MapValue, prop: MetaProp)
  {
    match prop
    case Title => a.title == b.title
    case TitleUnicode => a.titleUnicode == b.titleUnicode
    case Artist => a.artist == b.artist
    case ArtistUnicode => a.artistUnicode == b.artistUnicode
    case Creator => a.creator == b.creator
    case Version => a.version == b.version
    case ModeProp => a.mode == b.mode
  }

  /** The fields that are not metadata properties are those of `m`. */
  predicate MetaFrame(r: MapValue, m: MapValue)
  {
    r.(title := m.title, titleUnicode := m.titleUnicode, artist := m.artist,
       artistUnicode := m.artistUnicode, creator := m.creator, version := m.version,
       mode := m.mode) == m
  }

  /** `map[prop] = value`: that property takes the value, every other field stays. */
  function SetMeta(m: MapValue, prop: MetaProp, value: string): (r: MapValue)
    ensures MetaIs(r, prop, value)
    ensures forall q :: q != prop ==> SameMeta(r, m, q)
    ensures MetaFrame(r, m)
  {
    match prop
    case Title => m.(title := value)
    case TitleUnicode => m.(titleUnicode := value)
    case Artist => m.(artist := value)
    case ArtistUnicode => m.(artistUnicode := value)
    case Creator => m.(creator := value)
    case Version => m.(version := value)
    case ModeProp => m.(mode := ModeText(value))
  }

  /**
   * A Metadata or General line: a `Key: value` line whose key names a
   * property sets that property to the value; any other line changes nothing.
   */
  function MetadataLine(m: MapValue, line: string): (r: MapValue)
    ensures KeyValue(line).Some? && MetaPropOf(KeyValue(line).value.0).Some? ==>
      && MetaIs(r, MetaPropOf(KeyValue(line).value.0).value, KeyValue(line).value.1)
      && forall q :: q != MetaPropOf(KeyValue(line).value.0).value ==> SameMeta(r, m, q)
    ensures KeyValue(line).None? || MetaPropOf(KeyValue(line).value.0).None? ==> r == m
    ensures MetaFrame(r, m)
  {
    match KeyValue(line)
    case None => m
    case Some((key, value)) =>
      match MetaPropOf(key)
      case None => m
      case Some(prop) => SetMeta(m, prop, value)
  }

  /** The properties `diffToPropMap` names. */
  datatype DiffProp = CircleSize | OverallDifficulty | ApproachRate | HPDrainRate | SliderMultiplier | SliderTickRate

  /** diffToPropMap: the difficulty key a property is read from. */
  function DiffPropOf(key: string): Option<DiffProp>
  {
    if key == "CircleSize" then Some(CircleSize)
    else if key == "OverallDifficulty" then Some(OverallDifficulty)
    else if key == "ApproachRate" then Some(ApproachRate)
    else if key == "HPDrainRate" then Some(HPDrainRate)
    else if key == "SliderMultiplier" then Some(SliderMultiplier)
    else if key == "SliderTickRate" then Some(SliderTickRate)
    else None
  }

  /** Property `prop` of `m` holds `x`. */
  predicate DiffIs(m: MapValue, prop: DiffProp, x: real)
  {
    match prop
    case CircleSize => m.cs == x
    case OverallDifficulty => m.od == x
    case ApproachRate => m.ar == x
    case HPDrainRate => m.hp == x
    case SliderMultiplier => m.sv == x
    case SliderTickRate => m.tickRate == x
  }

  /** `a` and `b` agree on property `prop`. */
  predicate SameDiff(a: MapValue, b: MapValue, prop: DiffProp)
  {
    match prop
    case CircleSize => a.cs == b.cs
    case OverallDifficulty => a.od == b.od
    case ApproachRate => a.ar == b.ar
    case HPDrainRate => a.hp == b.hp
    case SliderMultiplier => a.sv == b.sv
    case SliderTickRate => a.tickRate == b.tickRate
  }

  /** The fields that are not difficulty properties are those of `m`. */
  predicate DiffFrame(r: MapValue, m: MapValue)
  {
    r.(cs := m.cs, od := m.od, ar := m.ar, hp := m.hp, sv := m.sv, tickRate := m.tickRate) == m
  }

  /** `map[prop] = x`: that property takes the number, every other field stays. */
  function SetDiff(m: MapValue, prop: DiffProp, x: real): (r: MapValue)
    ensures DiffIs(r, prop, x)
    ensures forall q :: q != prop ==> SameDiff(r, m, q)
    ensures DiffFrame(r, m)
  {
    match prop
    case CircleSize => m.(cs := x)
    case OverallDifficulty => m.(od := x)
    case ApproachRate => m.(ar := x)
    case HPDrainRate => m.(hp := x)
    case SliderMultiplier => m.(sv := x)
    case SliderTickRate => m.(tickRate := x)
  }

  /**
   * A Difficulty line: a `Key: value` line whose key names a property sets
   * that property to parseFloat of the value; any other line changes nothing.
   */
  function DifficultyLine(rd: Readers, m: MapValue, line: string): (r: MapValue)
    ensures KeyValue(line).Some? && DiffPropOf(KeyValue(line).value.0).Some? ==>
      && DiffIs(r, DiffPropOf(KeyValue(line).value.0).value, rd.parseFloat(KeyValue(line).value.1))
      && forall q :: q != DiffPropOf(KeyValue(line).value.0).value ==> SameDiff(r, m, q)
    ensures KeyValue(line).None? || DiffPropOf(KeyValue(line).value.0).None? ==> r == m
    ensures DiffFrame(r, m)
  {
    match KeyValue(line)
    case None => m
    case Some((key, value)) =>
      match DiffPropOf(key)
      case None => m
      case Some(prop) => SetDiff(m, prop, rd.parseFloat(value))
  }

  /** `fields.map(v => v.trim())`. */
  function TrimAll(fields: seq<string>): (r: seq<string>)
    ensures |r| == |fields| && forall i :: 0 <= i < |r| ==> r[i] == Trim(fields[i])
  {
    seq(|fields|, i requires 0 <= i < |fields| => Trim(fields[i]))
  }

  /** A TimingPoints line: time, msPerBeat, and `change` from the seventh field. */
  function TimingLine(rd: Readers, line: string): Timing
  {
    var f := TrimAll(Split(line, ','));
    var change := if |f| >= 7 then f[6] != "0" else true;
    Timing(rd.parseFloat(Field(f, 0)), rd.parseFloat(Field(f, 1)), change)
  }

  function AddTiming(m: MapValue, timing: Timing): MapValue
  {
    m.(timingPoints := m.timingPoints + [timing])
  }

  function TimingPointLine(rd: Readers, m: MapValue, line: string): MapValue
  {
    AddTiming(m, TimingLine(rd, line))
  }

  /**
   * A HitObjects line: time and type, and data by the first type bit found
   * among circle, spinner and slider (spinners carry none). A slider's
   * repetitions and distance are read from fields `reps` and `dist`.
   */
  function HitObjectAt(rd: Readers, line: string, reps: nat, dist: nat): HitObject
  {
    var f := Split(line, ',');
    var objectType := rd.parseInt(Field(f, 3));
    var pos := Vec(rd.parseFloat(Field(f, 0)), rd.parseFloat(Field(f, 1)));
    var data :=
      if HasBit(objectType, CIRCLE) then CirclePayload(pos)
      else if HasBit(objectType, SPINNER) then NoPayload
      else if HasBit(objectType, SLIDER) then
        SliderPayload(pos, rd.parseFloat(Field(f, dist)), rd.parseInt(Field(f, reps)))
      else NoPayload;
    HitObject(rd.parseFloat(Field(f, 2)), objectType, data)
  }

  /**
   * The hit object of a line, with a slider's slide count (field 6) as its
   * repetitions and its pixel length (field 7) as its distance, as the .osu
   * format lays them out.
   */
  function HitObjectOf(rd: Readers, line: string): HitObject
  {
    HitObjectAt(rd, line, 6, 7)
  }

  /** Which counter an object type bumps: the first of circle, spinner, slider among its bits. */
  datatype Kind = CircleKind | SpinnerKind | SliderKind | OtherKind

  function KindOf(objectType: int): Kind
  {
    if HasBit(objectType, CIRCLE) then CircleKind
    else if HasBit(objectType, SPINNER) then SpinnerKind
    else if HasBit(objectType, SLIDER) then SliderKind
    else OtherKind
  }

  function Indicator(b: bool): int
  {
    if b then 1 else 0
  }

  /** Append an object and bump the counter of its kind. */
  function AddHitObject(m: MapValue, obj: HitObject): MapValue
  {
    var kind := KindOf(obj.objectType);
    m.(objects := m.objects + [obj],
       circleCount := m.circleCount + Indicator(kind == CircleKind),
       spinnerCount := m.spinnerCount + Indicator(kind == SpinnerKind),
       sliderCount := m.sliderCount + Indicator(kind == SliderKind))
  }

  function HitObjectLine(rd: Readers, m: MapValue, line: string): MapValue
  {
    AddHitObject(m, HitObjectOf(rd, line))
  }

  /** The sections with a handler. */
  predicate Handled(section: Option<string>)
  {
    section == Some("Metadata") || section == Some("General") || section == Some("Difficulty")
    || section == Some("TimingPoints") || section == Some("HitObjects")
  }

  /** What a non-section line does in the current section. */
  function Handle(rd: Readers, section: Option<string>, m: MapValue, line: string): MapValue
  {
    if section == Some("Metadata") || section == Some("General") then MetadataLine(m, line)
    else if section == Some("Difficulty") then DifficultyLine(rd, m, line)
    else if section == Some("TimingPoints") then TimingPointLine(rd, m, line)
    else if section == Some("HitObjects") then HitObjectLine(rd, m, line)
    else m
  }

  /** The parser's state between lines: the beatmap and the current section (none at first). */
  datatype ParseState = ParseState(beatmap: MapValue, section: Option<string>)

  /** One line after the header. */
  function LineStep(rd: Readers, st: ParseState, line: string): ParseState
  {
    match SectionName(line)
    case Some(name) => st.(section := Some(name))
    case None => st.(beatmap := Handle(rd, st.section, st.beatmap, line))
  }

  /** The lines after the header, in order. */
  function Run(rd: Readers, st: ParseState, lines: seq<string>): ParseState
  {
    if lines == [] then st
    else LineStep(rd, Run(rd, st, lines[..|lines| - 1]), lines[|lines| - 1])
  }

  /** The beatmap Beatmap.parse returns, or the error it throws. */
  function ParseOf(rd: Readers, file: string): Result<MapValue, ParseError>
  {
    var lines := PreparedLines(file);
    if lines == [] then Success(DefaultMap)
    else
      match HeaderDigits(lines[0])
      case None => Failure(InvalidHeader)
      case Some(digits) =>
        var start := ParseState(DefaultMap.(formatVersion := DecimalValue(digits)), None);
        Success(Run(rd, start, lines[1..]).beatmap)
  }

  // ------------------------------------------------------------------ parse

  method SetMetaField(beatmap: Beatmap, prop: MetaProp, value: string)
    modifies beatmap
    ensures beatmap.Value() == SetMeta(old(beatmap.Value()), prop, value)
  {
    match prop
    case Title => beatmap.title := value;
    case TitleUnicode => beatmap.titleUnicode := value;
    case Artist => beatmap.artist := value;
    case ArtistUnicode => beatmap.artistUnicode := value;
    case Creator => beatmap.creator := value;
    case Version => beatmap.version := value;
    case ModeProp => beatmap.mode := ModeText(value);
  }

  method ParseMetadata(beatmap: Beatmap, line: string)
    modifies beatmap
    ensures beatmap.Value() == MetadataLine(old(beatmap.Value()), line)
  {
    var kv := KeyValue(line);
    if kv.Some? {
      var (key, value) := kv.value;
      var prop := MetaPropOf(key);
      if prop.Some? {
        SetMetaField(beatmap, prop.value, value);
      }
    }
  }

  method SetDiffField(beatmap: Beatmap, prop: DiffProp, x: real)
    modifies beatmap
    ensures beatmap.Value() == SetDiff(old(beatmap.Value()), prop, x)
  {
    match prop
    case CircleSize => beatmap.cs := x;
    case OverallDifficulty => beatmap.od := x;
    case ApproachRate => beatmap.ar := x;
    case HPDrainRate => beatmap.hp := x;
    case SliderMultiplier => beatmap.sv := x;
    case SliderTickRate => beatmap.tickRate := x;
  }

  method ParseDifficulty(beatmap: Beatmap, rd: Readers, line: string)
    modifies beatmap
    ensures beatmap.Value() == DifficultyLine(rd, old(beatmap.Value()), line)
  {
    var kv := KeyValue(line);
    if kv.Some? {
      var (key, value) := kv.value;
      var prop := DiffPropOf(key);
      if prop.Some? {
        SetDiffField(beatmap, prop.value, rd.parseFloat(value));
      }
    }
  }

  /** The Timing a TimingPoints line describes: `change` is set only from a seventh field. */
  method ReadTiming(rd: Readers, line: string) returns (timing: Timing)
    ensures timing == TimingLine(rd, line)
  {
    var f := TrimAll(Split(line, ','));
    timing := Timing(rd.parseFloat(Field(f, 0)), rd.parseFloat(Field(f, 1)), true);
    if |f| >= 7 {
      timing := timing.(change := f[6] != "0");
    }
  }

  method ParseTimingPoint(beatmap: Beatmap, rd: Readers, line: string)
    modifies beatmap
    ensures beatmap.Value() == TimingPointLine(rd, old(beatmap.Value()), line)
  {
    var timing := ReadTiming(rd, line);
    PushTiming(beatmap, timing);
  }

  method PushTiming(beatmap: Beatmap, timing: Timing)
    modifies beatmap
    ensures beatmap.Value() == AddTiming(old(beatmap.Value()), timing)
  {
    beatmap.timingPoints := beatmap.timingPoints + [timing];
  }

  /** The HitObject a HitObjects line describes. */
  method ReadHitObject(rd: Readers, line: string) returns (obj: HitObject)
    ensures obj == HitObjectOf(rd, line)
  {
    var f := Split(line, ',');
    obj := HitObject(rd.parseFloat(Field(f, 2)), rd.parseInt(Field(f, 3)), NoPayload);
    var pos := Vec(rd.parseFloat(Field(f, 0)), rd.parseFloat(Field(f, 1)));
    if HasBit(obj.objectType, CIRCLE) {
      obj := obj.(data := CirclePayload(pos));
    } else if HasBit(obj.objectType, SPINNER) {
    } else if HasBit(obj.objectType, SLIDER) {
      obj := obj.(data := SliderPayload(pos, rd.parseFloat(Field(f, 7)), rd.parseInt(Field(f, 6))));
    }
  }

  /** A HitObjects line: one counter is bumped by the type's first bit, and the object appended. */
  method ParseHitObject(beatmap: Beatmap, rd: Readers, line: string)
    modifies beatmap
    ensures beatmap.Value() == HitObjectLine(rd, old(beatmap.Value()), line)
  {
    var obj := ReadHitObject(rd, line);
    PushHitObject(beatmap, obj);
  }

  method PushHitObject(beatmap: Beatmap, obj: HitObject)
    modifies beatmap
    ensures beatmap.Value() == AddHitObject(old(beatmap.Value()), obj)
  {
    if HasBit(obj.objectType, CIRCLE) {
      beatmap.circleCount := beatmap.circleCount + 1;
    } else if HasBit(obj.objectType, SPINNER) {
      beatmap.spinnerCount := beatmap.spinnerCount + 1;
    } else if HasBit(obj.objectType, SLIDER) {
      beatmap.sliderCount := beatmap.sliderCount + 1;
    }
    beatmap.objects := beatmap.objects + [obj];
  }

  /** One line after the header: a `[Section]` line switches section, any other goes to its handler. */
  method ParseLine(beatmap: Beatmap, rd: Readers, currentSection: Option<string>, line: string)
    returns (section: Option<string>)
    modifies beatmap
    ensures ParseState(beatmap.Value(), section)
            == LineStep(rd, ParseState(old(beatmap.Value()), currentSection), line)
  {
    section := currentSection;
    var sectionMatch := SectionName(line);
    if sectionMatch.Some? {
      section := sectionMatch;
    } else if currentSection == Some("Metadata") || currentSection == Some("General") {
      ParseMetadata(beatmap, line);
    } else if currentSection == Some("Difficulty") {
      ParseDifficulty(beatmap, rd, line);
    } else if currentSection == Some("TimingPoints") {
      ParseTimingPoint(beatmap, rd, line);
    } else if currentSection == Some("HitObjects") {
      ParseHitObject(beatmap, rd, line);
    }
  }

  /** Beatmap.parse, with the comment filter and the header check as intended. */
  method Parse(file: string, rd: Readers) returns (r: Result<Beatmap, ParseError>)
    ensures r.Success? <==> ParseOf(rd, file).Success?
    ensures r.Success? ==> fresh(r.value) && r.value.Value() == ParseOf(rd, file).value
    ensures r.Failure? ==> r.error == ParseOf(rd, file).error
  {
    var lines := PreparedLines(file);
    var beatmap := new Beatmap();
    var currentSection: Option<string> := None;
    if lines == [] {
      return Success(beatmap);
    }
    var digits := HeaderDigits(lines[0]);
    if digits.None? {
      return Failure(InvalidHeader);
    }
    beatmap.formatVersion := DecimalValue(digits.value);
    ghost var start := ParseState(beatmap.Value(), None);
    var body := lines[1..];
    var index := 0;
    while index < |body|
      invariant 0 <= index <= |body|
      invariant ParseState(beatmap.Value(), currentSection) == Run(rd, start, body[..index])
    {
      var line := body[index];
      Seqs.SliceExtend(body, 0, index);
      currentSection := ParseLine(beatmap, rd, currentSection, line);
      index := index + 1;
    }
    assert body[..index] == body;
    return Success(beatmap);
  }

  // ------------------------------------------------------------- properties

  /** A `[Name]` line changes the current section and nothing else. */
  lemma SectionLineOnlySwitches(rd: Readers, st: ParseState, line: string, name: string)
    requires line == ['['] + name + [']'] && name != [] && ']' !in name
    ensures LineStep(rd, st, line) == ParseState(st.beatmap, Some(name))
  {
    SectionNameExact(line, name);
  }

  /**
   * A `Key: value` line in a Metadata or General section, with a key of the
   * table, sets that property to the value; the other properties stay.
   */
  lemma MetadataLineOfPair(m: MapValue, key: string, w: string, value: string)
    requires MetaPropOf(key).Some?
    requires AllWhitespace(w)
    requires value != [] && !IsWhitespace(value[0]) && NoLineTerminator(value)
    ensures var r := MetadataLine(m, key + [':'] + w + value);
      && MetaIs(r, MetaPropOf(key).value, value)
      && (forall q :: q != MetaPropOf(key).value ==> SameMeta(r, m, q))
      && MetaFrame(r, m)
  {
    KeyValueOfPair(key, w, value);
  }

  /**
   * A `Key: value` line in the Difficulty section, with a key of the table,
   * sets that property to parseFloat of the value; the other properties stay.
   */
  lemma DifficultyLineOfPair(rd: Readers, m: MapValue, key: string, w: string, value: string)
    requires DiffPropOf(key).Some?
    requires AllWhitespace(w)
    requires value != [] && !IsWhitespace(value[0]) && NoLineTerminator(value)
    ensures var r := DifficultyLine(rd, m, key + [':'] + w + value);
      && DiffIs(r, DiffPropOf(key).value, rd.parseFloat(value))
      && (forall q :: q != DiffPropOf(key).value ==> SameDiff(r, m, q))
      && DiffFrame(r, m)
  {
    KeyValueOfPair(key, w, value);
  }

  /** Lines in a section without a handler (or before any section) change nothing. */
  lemma UnhandledSectionIgnored(rd: Readers, st: ParseState, line: string)
    requires !Handled(st.section) && SectionName(line).None?
    ensures LineStep(rd, st, line) == st
  {
  }

  /**
   * A HitObjects line appends exactly one object and bumps at most one
   * counter: circle first, then spinner, then slider; nothing else changes.
   */
  lemma HitObjectLineAppendsOne(rd: Readers, m: MapValue, line: string)
    ensures var r := HitObjectLine(rd, m, line);
      var t := HitObjectOf(rd, line).objectType;
      && r.objects == m.objects + [HitObjectOf(rd, line)]
      && (r.circleCount == m.circleCount + 1 <==> HasBit(t, CIRCLE))
      && (r.spinnerCount == m.spinnerCount + 1 <==> !HasBit(t, CIRCLE) && HasBit(t, SPINNER))
      && (r.sliderCount == m.sliderCount + 1
          <==> !HasBit(t, CIRCLE) && !HasBit(t, SPINNER) && HasBit(t, SLIDER))
      && (r.circleCount - m.circleCount) + (r.spinnerCount - m.spinnerCount) + (r.sliderCount - m.sliderCount)
         == Indicator(HasBit(t, CIRCLE) || HasBit(t, SPINNER) || HasBit(t, SLIDER))
      && r.(objects := m.objects, circleCount := m.circleCount, spinnerCount := m.spinnerCount,
            sliderCount := m.sliderCount) == m
  {
  }

  /** Only an object counted as a slider gets slider data; only a circle gets a position alone. */
  lemma OnlySlidersGetSliderData(rd: Readers, line: string)
    ensures var obj := HitObjectOf(rd, line);
      && (obj.data.SliderPayload? <==> KindOf(obj.objectType) == SliderKind)
      && (obj.data.CirclePayload? <==> KindOf(obj.objectType) == CircleKind)
      && (obj.data.SliderPayload? ==> obj.data.repetitions == rd.parseInt(Field(Split(line, ','), 6)))
      && (obj.data.SliderPayload? ==> obj.data.distance == rd.parseFloat(Field(Split(line, ','), 7)))
  {
  }

  /** A timing point's `change` is false exactly when a seventh field exists and trims to "0". */
  lemma TimingChangeFlag(rd: Readers, line: string)
    ensures var f := Split(line, ',');
      !TimingLine(rd, line).change <==> |f| >= 7 && Trim(f[6]) == "0"
  {
  }

  /** The number of objects of one kind. */
  function Tally(objects: seq<HitObject>, kind: Kind): nat
  {
    if objects == [] then 0
    else Tally(objects[..|objects| - 1], kind) + Indicator(KindOf(objects[|objects| - 1].objectType) == kind)
  }

  /** The three counters count the objects of their kind. */
  predicate Tallied(m: MapValue)
  {
    && m.circleCount == Tally(m.objects, CircleKind)
    && m.spinnerCount == Tally(m.objects, SpinnerKind)
    && m.sliderCount == Tally(m.objects, SliderKind)
  }

  /** One line keeps the format version and the counters in step with the objects, and only appends objects. */
  lemma LineStepInvariant(rd: Readers, st: ParseState, line: string)
    ensures var r := LineStep(rd, st, line).beatmap;
      && r.formatVersion == st.beatmap.formatVersion
      && (Tallied(st.beatmap) ==> Tallied(r))
      && st.beatmap.objects <= r.objects
  {
    var r := LineStep(rd, st, line).beatmap;
    if SectionName(line).None? && st.section == Some("HitObjects") {
      assert r.objects[..|r.objects| - 1] == st.beatmap.objects;
    }
  }

  /**
   * Over a whole file: the format version set from the header stays, the
   * counters match the objects, and objects are only ever appended, so every
   * earlier state's objects are a prefix of the final ones.
   */
  lemma {:induction false} RunInvariant(rd: Readers, st: ParseState, lines: seq<string>, k: nat)
    requires k <= |lines|
    ensures var r := Run(rd, st, lines).beatmap;
      && r.formatVersion == st.beatmap.formatVersion
      && (Tallied(st.beatmap) ==> Tallied(r))
      && Run(rd, st, lines[..k]).beatmap.objects <= r.objects
  {
    if lines != [] {
      var init := lines[..|lines| - 1];
      var prev := Run(rd, st, init);
      LineStepInvariant(rd, prev, lines[|lines| - 1]);
      if k < |lines| {
        assert lines[..k] == init[..k];
        RunInvariant(rd, st, init, k);
      } else {
        assert lines[..k] == lines;
        RunInvariant(rd, st, init, 0);
      }
    } else {
      assert lines[..k] == lines;
    }
  }

  /**
   * Beatmap.parse fails exactly when the first kept line is not a header;
   * otherwise the version is the header's number (1 for a file with no kept
   * line) and the counters count the objects.
   */
  lemma ParseOfOutcome(rd: Readers, file: string)
    ensures var lines := PreparedLines(file);
      && (ParseOf(rd, file).Failure? <==> lines != [] && HeaderDigits(lines[0]).None?)
      && (lines == [] ==> ParseOf(rd, file) == Success(DefaultMap))
      && (lines != [] && HeaderDigits(lines[0]).Some? ==>
            ParseOf(rd, file).value.formatVersion == DecimalValue(HeaderDigits(lines[0]).value))
      && (ParseOf(rd, file).Success? ==> Tallied(ParseOf(rd, file).value))
  {
    var lines := PreparedLines(file);
    if lines != [] && HeaderDigits(lines[0]).Some? {
      var start := ParseState(DefaultMap.(formatVersion := DecimalValue(HeaderDigits(lines[0]).value)), None);
      RunInvariant(rd, start, lines[1..], 0);
    }
  }

  // ---------------------------------------------- the filter and header as written

  /**
   * The line filter as written: `.filter(commentFilter)` keeps the lines the
   * comment pattern matches, where dropping them was meant.
   */
  function PrepareAsWritten(raw: seq<string>): (lines: seq<string>)
    ensures forall i :: 0 <= i < |lines| ==> lines[i] != []
  {
    if raw == [] then []
    else
      var rest := PrepareAsWritten(raw[1..]);
      var line := Trim(raw[0]);
      if !IsCommentLine(raw[0]) || line == [] then rest else [line] + rest
  }

  datatype AsWrittenError =
    | HeaderMatched      // SyntaxError thrown when the first line IS a header
    | NullDestructured   // TypeError from `[, map.formatVersion] = null`

  /**
   * Beatmap.parse as written: the first kept line either matches the header
   * pattern and throws, or does not and the destructuring of `null` throws;
   * with no kept line the fresh map is returned.
   */
  function ParseAsWrittenOf(file: string): Result<MapValue, AsWrittenError>
  {
    var lines := PrepareAsWritten(Split(file, '\n'));
    if lines == [] then Success(DefaultMap)
    else if HeaderDigits(lines[0]).Some? then Failure(HeaderMatched)
    else Failure(NullDestructured)
  }

  /** A line both filters see as it is: no whitespace at its ends, not a comment, no line break. */
  predicate CleanLine(line: string)
  {
    TrimmedLine(line) && !IsCommentLine(line) && '\n' !in line
  }

  /** A line without whitespace at its ends trims to itself. */
  lemma TrimmedAlready(line: string)
    requires TrimmedLine(line)
    ensures Trim(line) == line
  {
    TrimUnique([], line, []);
    assert [] + line + [] == line;
  }

  /** Clean lines all pass the intended filter and none passes the written one. */
  lemma {:induction false} PrepareClean(lines: seq<string>)
    requires forall i :: 0 <= i < |lines| ==> CleanLine(lines[i])
    ensures Prepare(lines) == lines
    ensures PrepareAsWritten(lines) == []
  {
    if lines != [] {
      TrimmedAlready(lines[0]);
      PrepareClean(lines[1..]);
      assert [lines[0]] + lines[1..] == lines;
    }
  }

  /** A file made of clean lines is read back line for line. */
  lemma PreparedJoin(lines: seq<string>)
    requires |lines| >= 1 && forall i :: 0 <= i < |lines| ==> CleanLine(lines[i])
    ensures PreparedLines(Join(lines, '\n')) == lines
    ensures PrepareAsWritten(Split(Join(lines, '\n'), '\n')) == []
  {
    SplitJoin(lines, '\n');
    PrepareClean(lines);
  }

  lemma HeaderLineClean(n: nat)
    ensures CleanLine(MAGIC + DecimalText(n))
    ensures HeaderDigits(MAGIC + DecimalText(n)) == Some(DecimalText(n))
  {
    var line := MAGIC + DecimalText(n);
    var d := DecimalText(n);
    assert line[0] == 'o';
    assert line[|line| - 1] == d[|d| - 1];
    assert '\n' !in line by {
      assert forall i :: 0 <= i < |d| ==> line[|MAGIC| + i] == d[i];
    }
    assert line[..|MAGIC|] == MAGIC;
    assert line[|MAGIC|..] == d;
  }

  lemma HitObjectsSectionName()
    ensures SectionName("[HitObjects]") == Some("HitObjects")
  {
    assert "[HitObjects]" == ['['] + "HitObjects" + [']'];
    assert ']' !in "HitObjects";
    SectionNameExact("[HitObjects]", "HitObjects");
  }

  /** A `[HitObjects]` line opens that section and leaves the map alone. */
  lemma HitObjectsSectionLine(rd: Readers, start: ParseState)
    ensures Run(rd, start, ["[HitObjects]"]) == ParseState(start.beatmap, Some("HitObjects"))
  {
    var one := ["[HitObjects]"];
    assert one[..|one| - 1] == [];
    HitObjectsSectionName();
  }

  /** After a `[HitObjects]` line, an object line appends its object and bumps its counter. */
  lemma HitObjectsRun(rd: Readers, start: ParseState, line: string)
    requires SectionName(line).None?
    ensures Run(rd, start, ["[HitObjects]", line])
            == ParseState(AddHitObject(start.beatmap, HitObjectOf(rd, line)), Some("HitObjects"))
  {
    var body := ["[HitObjects]", line];
    assert body[..1] == ["[HitObjects]"];
    HitObjectsSectionLine(rd, start);
  }

  /**
   * As written, a file holding a header, `[HitObjects]` and one object line
   * parses to the empty default map; the intended parser reads the version
   * and the object.
   */
  lemma AsWrittenIgnoresValidFile(rd: Readers, version: nat, line: string)
    requires CleanLine(line) && SectionName(line).None?
    ensures var file := Join([MAGIC + DecimalText(version), "[HitObjects]", line], '\n');
      && ParseAsWrittenOf(file) == Success(DefaultMap)
      && ParseOf(rd, file)
         == Success(AddHitObject(DefaultMap.(formatVersion := version), HitObjectOf(rd, line)))
  {
    var header := MAGIC + DecimalText(version);
    var lines := [header, "[HitObjects]", line];
    HeaderLineClean(version);
    assert CleanLine("[HitObjects]");
    PreparedJoin(lines);
    DecimalRoundTrip(version);
    assert lines[1..] == ["[HitObjects]", line];
    HitObjectsRun(rd, ParseState(DefaultMap.(formatVersion := version), None), line);
  }

  // -------------------------------------------- the slider fields as written

  /**
   * The hit object as ojsama.js destructures the line: a slider's
   * repetitions from field 7 (the pixel length in the .osu format) and its
   * distance from field 8 (the edge sounds).
   */
  function HitObjectAsWrittenOf(rd: Readers, line: string): HitObject
  {
    HitObjectAt(rd, line, 7, 8)
  }

  /**
   * On a slider line `x,y,time,type,hitSound,curve,slides,length,...`, the
   * written destructuring takes the length for the repetition count and the
   * field after it (or "undefined" when the line ends there) for the
   * distance, where the slide count and the length were meant.
   */
  lemma SliderFieldsAsWritten(rd: Readers, fields: seq<string>)
    requires |fields| >= 8 && forall i :: 0 <= i < |fields| ==> ',' !in fields[i]
    requires KindOf(rd.parseInt(fields[3])) == SliderKind
    ensures var line := Join(fields, ',');
      var pos := Vec(rd.parseFloat(fields[0]), rd.parseFloat(fields[1]));
      && HitObjectAsWrittenOf(rd, line).data
         == SliderPayload(pos, rd.parseFloat(Field(fields, 8)), rd.parseInt(fields[7]))
      && HitObjectOf(rd, line).data == SliderPayload(pos, rd.parseFloat(fields[7]), rd.parseInt(fields[6]))
  {
    SplitJoin(fields, ',');
  }
}

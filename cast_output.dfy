/** The files `TerminalRecorder` writes from its state (scripts/terminal_demo.py):
    the asciicast v2 recording (a header object on the first line, then one
    `[time, code, data]` array per event) and the narration cues as SubRip
    (SRT) and WebVTT subtitles. `json.dumps` is a parameter; times are whole
    milliseconds. */
module CastOutput {
  import opened Wrappers
  import opened Text
  import opened Json
  import opened DemoScript
  import opened RecorderSpec

  // ---------------------------------------------------------------------
  // to_cast

  datatype Cast = Cast(header: Json, events: seq<Json>)

  function EventCode(t: EventType): string
  {
    match t
    case Output => "o"
    case Input => "i"
  }

  function EventJson(e: CastEvent): Json
  {
    JArr([JMillis(e.time), JStr(EventCode(e.eventType)), JStr(e.data)])
  }

  function Marker(s: Section): Json
  {
    JObj([("time", JMillis(s.time)), ("label", JStr(s.name))])
  }

  /** The header's "metadata" object exists when one of these five is
      non-empty; the recording time alone does not create it. */
  predicate AnyMetadata(m: Metadata)
  {
    Truthy(m.name) || Truthy(m.version) || Truthy(m.description) || Truthy(m.author)
    || Truthy(m.sourceChecksum)
  }

  function OptionalField(key: string, value: Option<string>): seq<(string, Json)>
  {
    if Truthy(value) then [(key, JStr(value.value))] else []
  }

  function MetadataFields(m: Metadata): seq<(string, Json)>
  {
    OptionalField("name", m.name) + OptionalField("version", m.version)
    + OptionalField("description", m.description) + OptionalField("author", m.author)
    + OptionalField("source_checksum", m.sourceChecksum) + OptionalField("recorded_at", m.recordedAt)
  }

  /** The metadata value stored under each header key, by name. */
  function MetadataByKey(m: Metadata, key: string): Option<string>
  {
    if key == "name" then m.name
    else if key == "version" then m.version
    else if key == "description" then m.description
    else if key == "author" then m.author
    else if key == "source_checksum" then m.sourceChecksum
    else if key == "recorded_at" then m.recordedAt
    else None
  }

  const HEADER_KEYS: seq<string> := ["version", "width", "height", "timestamp", "env"]

  /** The keys every header has; `timestamp` is the wall-clock time in
      whole seconds when the cast is generated. */
  function HeaderBase(settings: Settings, timestamp: int): seq<(string, Json)>
  {
    [("version", JInt(CAST_VERSION)), ("width", JInt(settings.cols)), ("height", JInt(settings.rows)),
     ("timestamp", JInt(timestamp)),
     ("env", JObj([("SHELL", JStr(settings.shell)), ("TERM", JStr(DEFAULT_TERM))]))]
  }

  function Markers(sections: seq<Section>): (r: seq<Json>)
    ensures |r| == |sections|
    ensures forall i :: 0 <= i < |sections| ==>
              r[i] == JObj([("time", JMillis(sections[i].time)), ("label", JStr(sections[i].name))])
  {
    seq(|sections|, i requires 0 <= i < |sections| => Marker(sections[i]))
  }

  function MarkersField(sections: seq<Section>): seq<(string, Json)>
  {
    if sections != [] then [("markers", JArr(Markers(sections)))] else []
  }

  function MetadataField(m: Metadata): seq<(string, Json)>
  {
    if AnyMetadata(m) then [("metadata", JObj(MetadataFields(m)))] else []
  }

  /** `to_cast`'s header. */
  function CastHeader(settings: Settings, m: Metadata, sections: seq<Section>, timestamp: int): Json
  {
    JObj(HeaderBase(settings, timestamp) + OptionalField("title", settings.title)
         + MarkersField(sections) + MetadataField(m))
  }

  function ToCast(st: Rec, settings: Settings, m: Metadata, timestamp: int): Cast
  {
    Cast(CastHeader(settings, m, st.sections, timestamp),
         seq(|st.events|, i requires 0 <= i < |st.events| => EventJson(st.events[i])))
  }

  lemma OptionalFieldGet(key: string, value: Option<string>, k: string)
    ensures Get(OptionalField(key, value), k) == if k == key && Truthy(value) then Some(JStr(value.value)) else None
  {
  }

  /** The "metadata" object holds exactly the non-empty fields, each under
      its own key. */
  lemma MetadataFieldsExact(m: Metadata, key: string)
    ensures Get(MetadataFields(m), key) ==
              if Truthy(MetadataByKey(m, key)) then Some(JStr(MetadataByKey(m, key).value)) else None
  {
    var f1 := OptionalField("name", m.name);
    var f2 := OptionalField("version", m.version);
    var f3 := OptionalField("description", m.description);
    var f4 := OptionalField("author", m.author);
    var f5 := OptionalField("source_checksum", m.sourceChecksum);
    var f6 := OptionalField("recorded_at", m.recordedAt);
    GetAppend(f1, f2, key);
    GetAppend(f1 + f2, f3, key);
    GetAppend(f1 + f2 + f3, f4, key);
    GetAppend(f1 + f2 + f3 + f4, f5, key);
    GetAppend(f1 + f2 + f3 + f4 + f5, f6, key);
    OptionalFieldGet("name", m.name, key);
    OptionalFieldGet("version", m.version, key);
    OptionalFieldGet("description", m.description, key);
    OptionalFieldGet("author", m.author, key);
    OptionalFieldGet("source_checksum", m.sourceChecksum, key);
    OptionalFieldGet("recorded_at", m.recordedAt, key);
  }

  /** Looking up a key in four field lists written one after the other. */
  lemma GetAppend4(a: seq<(string, Json)>, b: seq<(string, Json)>, c: seq<(string, Json)>,
                   d: seq<(string, Json)>, key: string)
    ensures Get(a + b + c + d, key) ==
      if key in Keys(a) then Get(a, key) else if key in Keys(b) then Get(b, key)
      else if key in Keys(c) then Get(c, key) else Get(d, key)
  {
    GetAppend(a, b, key);
    GetAppend(a + b, c, key);
    GetAppend(a + b + c, d, key);
    assert key in Keys(a + b) <==> key in Keys(a) || key in Keys(b);
    assert key in Keys(a + b + c) <==> key in Keys(a + b) || key in Keys(c);
  }

  lemma BaseLookup(base: seq<(string, Json)>, rest: seq<(string, Json)>, k: nat)
    requires |base| == 5 && Keys(base) == HEADER_KEYS && k < 5
    ensures Get(base + rest, HEADER_KEYS[k]) == Some(base[k].1)
  {
    assert forall j :: 0 <= j < 5 ==> base[j].0 == HEADER_KEYS[j];
    GetFirst(base, k);
    GetAppend(base, rest, HEADER_KEYS[k]);
  }

  /** Every header starts with the version (2), the terminal size, the
      time stamp and the shell and terminal type, in that order. */
  lemma CastHeaderBase(settings: Settings, m: Metadata, sections: seq<Section>, timestamp: int)
    ensures var h := CastHeader(settings, m, sections, timestamp);
      && h.JObj? && |h.fields| >= 5 && Keys(h.fields)[..5] == HEADER_KEYS
      && Get(h.fields, "version") == Some(JInt(2))
      && Get(h.fields, "width") == Some(JInt(settings.cols))
      && Get(h.fields, "height") == Some(JInt(settings.rows))
      && Get(h.fields, "timestamp") == Some(JInt(timestamp))
      && Get(h.fields, "env") == Some(JObj([("SHELL", JStr(settings.shell)), ("TERM", JStr(DEFAULT_TERM))]))
  {
    var base := HeaderBase(settings, timestamp);
    var rest := OptionalField("title", settings.title) + MarkersField(sections) + MetadataField(m);
    var h := CastHeader(settings, m, sections, timestamp);
    assert h.fields == base + rest;
    assert Keys(base) == HEADER_KEYS;
    assert Keys(h.fields)[..5] == Keys(base);
    BaseLookup(base, rest, 0);
    BaseLookup(base, rest, 1);
    BaseLookup(base, rest, 2);
    BaseLookup(base, rest, 3);
    BaseLookup(base, rest, 4);
  }

  /** "title" appears only when a title is set. */
  lemma HeaderTitle(settings: Settings, m: Metadata, sections: seq<Section>, timestamp: int)
    ensures Get(CastHeader(settings, m, sections, timestamp).fields, "title") ==
              if Truthy(settings.title) then Some(JStr(settings.title.value)) else None
  {
    var base := HeaderBase(settings, timestamp);
    assert Keys(base) == HEADER_KEYS;
    assert "title" !in HEADER_KEYS;
    GetAppend4(base, OptionalField("title", settings.title), MarkersField(sections), MetadataField(m), "title");
    OptionalFieldGet("title", settings.title, "title");
  }

  /** "markers" appears only when there are sections: one marker per
      section, in order. */
  lemma HeaderMarkers(settings: Settings, m: Metadata, sections: seq<Section>, timestamp: int)
    ensures Get(CastHeader(settings, m, sections, timestamp).fields, "markers") ==
              if sections != [] then Some(JArr(Markers(sections))) else None
  {
    var base := HeaderBase(settings, timestamp);
    assert Keys(base) == HEADER_KEYS;
    assert "markers" !in HEADER_KEYS;
    GetAppend4(base, OptionalField("title", settings.title), MarkersField(sections), MetadataField(m), "markers");
    OptionalFieldGet("title", settings.title, "markers");
  }

  /** "metadata" appears only when one of the five descriptive fields is
      non-empty. */
  lemma HeaderMetadata(settings: Settings, m: Metadata, sections: seq<Section>, timestamp: int)
    ensures Get(CastHeader(settings, m, sections, timestamp).fields, "metadata") ==
              if AnyMetadata(m) then Some(JObj(MetadataFields(m))) else None
  {
    var base := HeaderBase(settings, timestamp);
    assert Keys(base) == HEADER_KEYS;
    assert "metadata" !in HEADER_KEYS;
    GetAppend4(base, OptionalField("title", settings.title), MarkersField(sections), MetadataField(m), "metadata");
    OptionalFieldGet("title", settings.title, "metadata");
  }

  /** A checksum-less, nameless script recorded at a known time gets no
      "metadata" object: `recorded_at` alone does not count. */
  lemma RecordedAtAloneNoMetadata(settings: Settings, sections: seq<Section>, timestamp: int, at: string)
    requires at != ""
    ensures Get(CastHeader(settings, Metadata(None, None, None, None, None, Some(at)), sections, timestamp).fields,
                "metadata").None?
  {
    var m := Metadata(None, None, None, None, None, Some(at));
    HeaderMetadata(settings, m, sections, timestamp);
  }

  // ---------------------------------------------------------------------
  // write_cast

  /** `json.dumps` of each value, in order. */
  function DumpAll(js: seq<Json>, dumps: Json -> string): (r: seq<string>)
    ensures |r| == |js| && forall i :: 0 <= i < |js| ==> r[i] == dumps(js[i])
  {
    seq(|js|, i requires 0 <= i < |js| => dumps(js[i]))
  }

  /** The text of the cast file: the header, then each event, one per line. */
  function CastFile(c: Cast, dumps: Json -> string): string
  {
    ConcatLines([dumps(c.header)] + DumpAll(c.events, dumps))
  }

  /** `json.dumps` never writes a raw newline, so the file reads back as
      one header line, one line per event in order, and nothing after the
      final newline. */
  lemma CastFileLines(c: Cast, dumps: Json -> string)
    requires forall j: Json :: '\n' !in dumps(j)
    ensures var ls := Split(CastFile(c, dumps), '\n');
      && |ls| == |c.events| + 2
      && ls[0] == dumps(c.header)
      && (forall i :: 0 <= i < |c.events| ==> ls[i + 1] == dumps(c.events[i]))
      && ls[|ls| - 1] == ""
  {
    var lines := [dumps(c.header)] + DumpAll(c.events, dumps);
    forall i | 0 <= i < |lines|
      ensures '\n' !in lines[i]
    {
      if i > 0 {
        assert lines[i] == dumps(c.events[i - 1]);
      }
    }
    SplitConcatLines(lines);
  }

  // ---------------------------------------------------------------------
  // Subtitle time stamps

  const MS_PER_HOUR: nat := 3600000
  const MS_PER_MINUTE: nat := 60000
  const MS_PER_SECOND: nat := 1000

  /** `_format_srt_time` (sep ',') and `_format_vtt_time` (sep '.'):
      hours, minutes, seconds, milliseconds, zero-padded. */
  function FormatTime(ms: nat, sep: char): string
  {
    PadZero(ms / MS_PER_HOUR, 2) + ":" + PadZero(ms % MS_PER_HOUR / MS_PER_MINUTE, 2) + ":"
    + PadZero(ms / MS_PER_SECOND % 60, 2) + [sep] + PadZero(ms % MS_PER_SECOND, 3)
  }

  /** "HH:MM:SS" + sep + "mmm" */
  predicate TimeShape(t: string, sep: char)
  {
    |t| == 12 && t[2] == ':' && t[5] == ':' && t[8] == sep
    && AllDigits(t[..2]) && AllDigits(t[3..5]) && AllDigits(t[6..8]) && AllDigits(t[9..])
  }

  /** Reads a time stamp back into milliseconds. */
  function ParseTime(t: string, sep: char): Option<nat>
  {
    if TimeShape(t, sep) then
      Some(DigitsValue(t[..2]) * MS_PER_HOUR + DigitsValue(t[3..5]) * MS_PER_MINUTE
           + DigitsValue(t[6..8]) * MS_PER_SECOND + DigitsValue(t[9..]))
    else None
  }

  /** Hours, minutes, seconds and milliseconds add back up to the time. */
  lemma TimeDecompose(ms: nat)
    ensures ms / MS_PER_HOUR * MS_PER_HOUR + ms % MS_PER_HOUR / MS_PER_MINUTE * MS_PER_MINUTE
            + ms / MS_PER_SECOND % 60 * MS_PER_SECOND + ms % MS_PER_SECOND == ms
    ensures ms % MS_PER_HOUR / MS_PER_MINUTE < 60 && ms / MS_PER_SECOND % 60 < 60
  {
    var x := ms / 1000;
    var y := x / 60;
    assert ms == 1000 * x + ms % 1000;
    assert x == 60 * y + x % 60;
    assert y == 60 * (y / 60) + y % 60;
    assert y == ms / 60000;
    assert y / 60 == ms / 3600000;
    assert ms % 3600000 == ms - 3600000 * (y / 60);
    assert ms % 3600000 == 60000 * (y % 60) + 1000 * (x % 60) + ms % 1000;
    assert ms % 3600000 / 60000 == y % 60;
  }

  lemma TimeFields(p: string, q: string, r: string, u: string, sep: char)
    requires |p| == 2 && |q| == 2 && |r| == 2 && |u| == 3
    requires AllDigits(p) && AllDigits(q) && AllDigits(r) && AllDigits(u)
    ensures var t := p + ":" + q + ":" + r + [sep] + u;
      TimeShape(t, sep) && t[..2] == p && t[3..5] == q && t[6..8] == r && t[9..] == u
  {
    var t := p + ":" + q + ":" + r + [sep] + u;
    assert t[..2] == p;
    assert t[3..5] == q;
    assert t[6..8] == r;
    assert t[9..] == u;
  }

  /** Below 100 hours a time stamp has the fixed shape, its minutes and
      seconds fields are below 60, and it reads back to the same time. */
  lemma FormatTimeRoundTrip(ms: nat, sep: char)
    requires ms < 100 * MS_PER_HOUR
    ensures var t := FormatTime(ms, sep);
      && TimeShape(t, sep)
      && DigitsValue(t[3..5]) < 60 && DigitsValue(t[6..8]) < 60 && DigitsValue(t[9..]) < 1000
      && ParseTime(t, sep) == Some(ms)
  {
    var h, m, s, milli := ms / MS_PER_HOUR, ms % MS_PER_HOUR / MS_PER_MINUTE, ms / MS_PER_SECOND % 60, ms % MS_PER_SECOND;
    TimeDecompose(ms);
    assert Pow10(2) == 100 && Pow10(3) == 1000;
    PadZeroLength(h, 2);
    PadZeroLength(m, 2);
    PadZeroLength(s, 2);
    PadZeroLength(milli, 3);
    PadZeroValue(h, 2);
    PadZeroValue(m, 2);
    PadZeroValue(s, 2);
    PadZeroValue(milli, 3);
    TimeFields(PadZero(h, 2), PadZero(m, 2), PadZero(s, 2), PadZero(milli, 3), sep);
  }

  // ---------------------------------------------------------------------
  // write_narration_srt / write_narration_vtt

  /** One cue as the three writes emit it: its number, its time range,
      its text and a blank line. */
  function Cue(e: NarrationEntry, number: nat, sep: char): string
  {
    NatToString(number) + "\n" + (FormatTime(e.startTime, sep) + " --> " + FormatTime(e.endTime, sep)) + "\n"
    + e.text + "\n\n"
  }

  /** The cues of `ns` in order, the k-th numbered `first + k`. */
  function CueList(ns: seq<NarrationEntry>, sep: char, first: nat): (r: seq<string>)
    ensures |r| == |ns| && forall k :: 0 <= k < |ns| ==> r[k] == Cue(ns[k], first + k, sep)
  {
    seq(|ns|, k requires 0 <= k < |ns| => Cue(ns[k], first + k, sep))
  }

  function SrtText(ns: seq<NarrationEntry>): string
  {
    Concat(CueList(ns, ',', 1))
  }

  function VttText(ns: seq<NarrationEntry>): string
  {
    "WEBVTT\n\n" + Concat(CueList(ns, '.', 1))
  }

  /** One more narration entry adds one cue, numbered after the others. */
  lemma CueListAppend(ns: seq<NarrationEntry>, e: NarrationEntry, sep: char, first: nat)
    ensures Concat(CueList(ns + [e], sep, first)) == Concat(CueList(ns, sep, first)) + Cue(e, first + |ns|, sep)
  {
    CueListSnoc(ns, e, sep, first);
    ConcatAppend(CueList(ns, sep, first), Cue(e, first + |ns|, sep));
  }

  /** No entries, no cues. */
  lemma NoCues(ns: seq<NarrationEntry>, sep: char)
    ensures Concat(CueList(ns[..0], sep, 1)) == ""
  {
    assert CueList(ns[..0], sep, 1) == [];
  }

  /** The cue loop: writing the `i`-th entry's lines extends the cues of
      the entries before it. */
  lemma CueStep(ns: seq<NarrationEntry>, i: nat, sep: char, content: string)
    requires i < |ns| && content == Concat(CueList(ns[..i], sep, 1))
    ensures content + Cue(ns[i], i + 1, sep) == Concat(CueList(ns[..i + 1], sep, 1))
  {
    TakeOneMore(ns, i);
    CueListAppend(ns[..i], ns[i], sep, 1);
  }

  lemma TakeOneMore(ns: seq<NarrationEntry>, i: nat)
    requires i < |ns|
    ensures ns[..i + 1] == ns[..i] + [ns[i]]
  {
  }

  /** The loop ends with every entry's cue. */
  lemma CuesDone(ns: seq<NarrationEntry>, sep: char, content: string)
    requires content == Concat(CueList(ns[..|ns|], sep, 1))
    ensures content == Concat(CueList(ns, sep, 1))
  {
    assert ns[..|ns|] == ns;
  }

  lemma CueListSnoc(ns: seq<NarrationEntry>, e: NarrationEntry, sep: char, first: nat)
    ensures CueList(ns + [e], sep, first) == CueList(ns, sep, first) + [Cue(e, first + |ns|, sep)]
  {
    var before, after := CueList(ns, sep, first), CueList(ns + [e], sep, first);
    forall k | 0 <= k < |ns|
      ensures after[k] == before[k]
    {
      assert (ns + [e])[k] == ns[k];
    }
    assert after[|ns|] == Cue(e, first + |ns|, sep);
    ExtendedBy(before, after, Cue(e, first + |ns|, sep));
  }

  lemma ExtendedBy(before: seq<string>, after: seq<string>, last: string)
    requires |after| == |before| + 1 && after[|before|] == last
    requires forall k :: 0 <= k < |before| ==> after[k] == before[k]
    ensures after == before + [last]
  {
  }

  lemma JoinCueLines(a: string, b: string, c: string)
    ensures Join([a, b, c, "", ""], '\n') == a + "\n" + b + "\n" + c + "\n\n"
  {
    assert [a, b, c, "", ""][1..] == [b, c, "", ""];
    assert [b, c, "", ""][1..] == [c, "", ""];
    assert [c, "", ""][1..] == ["", ""];
    assert ["", ""][1..] == [""];
    assert Join([""], '\n') == "";
    assert Join(["", ""], '\n') == "\n";
    assert Join([c, "", ""], '\n') == c + "\n\n";
    assert Join([b, c, "", ""], '\n') == b + "\n" + c + "\n\n";
  }

  lemma DigitsNoNewline(s: string)
    requires AllDigits(s)
    ensures '\n' !in s
  {
    forall i | 0 <= i < |s|
      ensures s[i] != '\n'
    {
      assert IsDigit(s[i]);
    }
  }

  lemma FormatTimeNoNewline(ms: nat, sep: char)
    requires sep != '\n'
    ensures '\n' !in FormatTime(ms, sep)
  {
    var a, b, c, d := PadZero(ms / MS_PER_HOUR, 2), PadZero(ms % MS_PER_HOUR / MS_PER_MINUTE, 2),
                      PadZero(ms / MS_PER_SECOND % 60, 2), PadZero(ms % MS_PER_SECOND, 3);
    DigitsNoNewline(a);
    DigitsNoNewline(b);
    DigitsNoNewline(c);
    DigitsNoNewline(d);
  }

  /** A cue whose text is one line reads as: its number, "start --> end",
      the text, then a blank line. */
  lemma CueLines(e: NarrationEntry, number: nat, sep: char)
    requires sep != '\n' && '\n' !in e.text
    ensures Split(Cue(e, number, sep), '\n') ==
      [NatToString(number), FormatTime(e.startTime, sep) + " --> " + FormatTime(e.endTime, sep), e.text, "", ""]
  {
    var parts := [NatToString(number), FormatTime(e.startTime, sep) + " --> " + FormatTime(e.endTime, sep), e.text, "", ""];
    DigitsNoNewline(NatToString(number));
    FormatTimeNoNewline(e.startTime, sep);
    FormatTimeNoNewline(e.endTime, sep);
    JoinCueLines(parts[0], parts[1], parts[2]);
    SplitJoin(parts, '\n');
  }
}

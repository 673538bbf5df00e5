/** Short narration previews (utils/audio_preview.py): the text is cut
    to about 300 characters at a sentence or word boundary, the
    credentials are checked first, and a preview of a narration script
    takes whole segments while they fit. Speech synthesis is an oracle
    that returns the clip's duration in milliseconds, or an error. */
module AudioPreview {
  import opened Wrappers
  import opened Text

  const MAX_PREVIEW_CHARS := 300

  // ---------------------------------------------------------------------
  // Truncation

  /** `_truncate_for_preview` */
  function TruncateForPreview(text: string): string
  {
    if |text| <= MAX_PREVIEW_CHARS then text
    else
      var truncated := text[..MAX_PREVIEW_CHARS];
      var dot := RFind(truncated, ". ");
      if dot > |truncated| / 2 then truncated[..dot + 1]
      else
        var bang := RFind(truncated, "! ");
        if bang > |truncated| / 2 then truncated[..bang + 1]
        else
          var question := RFind(truncated, "? ");
          if question > |truncated| / 2 then truncated[..question + 1]
          else
            var space := RFind(truncated, " ");
            if space > 0 then truncated[..space] + "..." else truncated + "..."
  }

  /** The mark `mark` followed by a space starts at `i`, inside the first
      300 characters. */
  predicate SentenceEndAt(text: string, i: int, mark: char)
  {
    0 <= i && i + 2 <= MAX_PREVIEW_CHARS && i + 2 <= |text| && text[i] == mark && text[i + 1] == ' '
  }

  /** A sentence end of that kind past the middle of the window. */
  ghost predicate LateSentenceEnd(text: string, mark: char)
  {
    exists i :: MAX_PREVIEW_CHARS / 2 < i && SentenceEndAt(text, i, mark)
  }

  /** A space inside the window past its first character. */
  predicate SpaceAt(text: string, i: int)
  {
    0 < i < MAX_PREVIEW_CHARS && i < |text| && text[i] == ' '
  }

  /** The result cuts just after the last `mark` that ends a sentence in
      the window. */
  ghost predicate CutAfterLast(text: string, r: string, mark: char)
  {
    exists i :: MAX_PREVIEW_CHARS / 2 < i && SentenceEndAt(text, i, mark) && r == text[..i + 1]
      && forall j :: i < j ==> !SentenceEndAt(text, j, mark)
  }

  lemma RFindSentenceEnd(text: string, mark: char)
    requires |text| > MAX_PREVIEW_CHARS
    ensures var t := text[..MAX_PREVIEW_CHARS];
      var k := RFind(t, [mark, ' ']);
      && (k >= 0 ==> SentenceEndAt(text, k, mark))
      && (forall j :: k < j ==> !SentenceEndAt(text, j, mark))
  {
    var t := text[..MAX_PREVIEW_CHARS];
    var n := [mark, ' '];
    var k := RFind(t, n);
    if k >= 0 {
      assert t[k..][..2] == n;
      assert t[k] == mark && t[k + 1] == ' ';
    }
    forall j | k < j
      ensures !SentenceEndAt(text, j, mark)
    {
      SentenceEndStarts(text, j, mark);
    }
  }

  /** A sentence end in the window is an occurrence of the mark and a
      space in its first 300 characters. */
  lemma SentenceEndStarts(text: string, j: int, mark: char)
    requires |text| > MAX_PREVIEW_CHARS
    ensures SentenceEndAt(text, j, mark) ==>
      j <= MAX_PREVIEW_CHARS - 2 && StartsWith(text[..MAX_PREVIEW_CHARS][j..], [mark, ' '])
  {
    if SentenceEndAt(text, j, mark) {
      var t := text[..MAX_PREVIEW_CHARS];
      assert t[j..][..2] == [mark, ' '];
    }
  }

  lemma RFindSpace(text: string)
    requires |text| > MAX_PREVIEW_CHARS
    ensures var t := text[..MAX_PREVIEW_CHARS];
      var k := RFind(t, " ");
      && (k >= 0 ==> k < MAX_PREVIEW_CHARS && text[k] == ' ')
      && (forall j :: k < j ==> !SpaceAt(text, j))
  {
    var t := text[..MAX_PREVIEW_CHARS];
    var k := RFind(t, " ");
    if k >= 0 {
      assert t[k..][..1] == " ";
      assert text[k] == t[k] == ' ';
    }
    forall j | k < j
      ensures !SpaceAt(text, j)
    {
      if j < |t| {
        assert t[j..][..1] == [t[j]];
      }
    }
  }

  /** Short text is kept whole. Longer text is cut just after the last
      ". " of its first 300 characters when that lies past the middle,
      else at the last "! ", else at the last "? "; failing all three,
      at the last space with "..." added, or after 300 characters with
      "..." when there is no space. The result is never longer than 303. */
  lemma TruncateSpec(text: string)
    ensures var r := TruncateForPreview(text);
      && |r| <= MAX_PREVIEW_CHARS + 3
      && (|text| <= MAX_PREVIEW_CHARS ==> r == text)
      && (|text| > MAX_PREVIEW_CHARS ==>
            && (LateSentenceEnd(text, '.') ==> CutAfterLast(text, r, '.'))
            && (!LateSentenceEnd(text, '.') && LateSentenceEnd(text, '!') ==> CutAfterLast(text, r, '!'))
            && (!LateSentenceEnd(text, '.') && !LateSentenceEnd(text, '!') && LateSentenceEnd(text, '?') ==>
                  CutAfterLast(text, r, '?'))
            && (!LateSentenceEnd(text, '.') && !LateSentenceEnd(text, '!') && !LateSentenceEnd(text, '?') ==>
                  && ((exists i :: SpaceAt(text, i)) ==>
                        exists i :: SpaceAt(text, i) && r == text[..i] + "..."
                          && forall j :: i < j ==> !SpaceAt(text, j))
                  && ((forall i :: !SpaceAt(text, i)) ==> r == text[..MAX_PREVIEW_CHARS] + "...")))
  {
    if |text| > MAX_PREVIEW_CHARS {
      var t := text[..MAX_PREVIEW_CHARS];
      RFindSentenceEnd(text, '.');
      RFindSentenceEnd(text, '!');
      RFindSentenceEnd(text, '?');
      RFindSpace(text);
      var dot := RFind(t, ". ");
      var bang := RFind(t, "! ");
      var question := RFind(t, "? ");
      var space := RFind(t, " ");
      assert [('.' as char), ' '] == ". " && [('!' as char), ' '] == "! " && [('?' as char), ' '] == "? ";
      if dot > 150 {
        assert t[..dot + 1] == text[..dot + 1];
      } else if bang > 150 {
        assert t[..bang + 1] == text[..bang + 1];
      } else if question > 150 {
        assert t[..question + 1] == text[..question + 1];
      } else if space > 0 {
        assert SpaceAt(text, space);
        assert t[..space] == text[..space];
      }
    }
  }

  // ---------------------------------------------------------------------
  // Generating a preview

  datatype AudioPreviewResult = AudioPreviewResult(
    status: string,
    audioPath: Option<string>,
    durationMillis: Option<int>,
    voiceName: Option<string>,
    error: Option<string>)

  function Failed(error: string): AudioPreviewResult
  {
    AudioPreviewResult("failed", None, None, None, Some(error))
  }

  /** `x or os.getenv(NAME)` */
  function OrEnv(given: Option<string>, env: Option<string>): Option<string>
  {
    if Truthy(given) then given else env
  }

  /** The synthesiser: called with the text and the output path, it
      returns the clip's duration, if reported, or an error message. */
  type Synthesize = (string, string) -> Result<Option<int>, string>

  /** `generate_preview`: `outputPath` is the path given or the temporary
      file chosen for it. */
  function GeneratePreview(apiKey: Option<string>, voiceId: Option<string>, text: string,
                           outputPath: string, synthesize: Synthesize): (r: AudioPreviewResult)
  {
    if !Truthy(apiKey) then Failed("ElevenLabs API key not configured")
    else if !Truthy(voiceId) then Failed("Voice ID not configured")
    else
      match synthesize(TruncateForPreview(text), outputPath)
      case Success(duration) => AudioPreviewResult("success", Some(outputPath), duration, None, None)
      case Failure(message) => Failed(message)
  }

  /** The generator's key and voice come from its arguments, or from
      ELEVENLABS_API_KEY and ELEVENLABS_VOICE_ID when an argument is unset
      or empty: the key error arises when neither source gives a key, and
      synthesis is reached whenever each has a source. */
  lemma ConfiguredFromEnvironment(apiKey: Option<string>, envKey: Option<string>,
                                  voiceId: Option<string>, envVoice: Option<string>,
                                  text: string, outputPath: string, synthesize: Synthesize)
    ensures Truthy(OrEnv(apiKey, envKey)) <==> Truthy(apiKey) || Truthy(envKey)
    ensures Truthy(apiKey) ==> OrEnv(apiKey, envKey) == apiKey
    ensures var r := GeneratePreview(OrEnv(apiKey, envKey), OrEnv(voiceId, envVoice), text, outputPath, synthesize);
      && (!Truthy(apiKey) && !Truthy(envKey) ==> r.error == Some("ElevenLabs API key not configured"))
      && ((Truthy(apiKey) || Truthy(envKey)) && (Truthy(voiceId) || Truthy(envVoice)) ==>
            (r.status == "success" <==> synthesize(TruncateForPreview(text), outputPath).Success?))
  {
    GeneratePreviewChecks(OrEnv(apiKey, envKey), OrEnv(voiceId, envVoice), text, outputPath, synthesize);
  }

  /** The API key is checked before the voice, and synthesis is reached
      only with both; it then speaks the truncated text. */
  lemma GeneratePreviewChecks(apiKey: Option<string>, voiceId: Option<string>, text: string,
                              outputPath: string, synthesize: Synthesize)
    ensures var r := GeneratePreview(apiKey, voiceId, text, outputPath, synthesize);
      && (!Truthy(apiKey) ==> r.status == "failed" && r.error == Some("ElevenLabs API key not configured"))
      && (Truthy(apiKey) && !Truthy(voiceId) ==> r.status == "failed" && r.error == Some("Voice ID not configured"))
      && (r.status == "success" <==>
            Truthy(apiKey) && Truthy(voiceId) && synthesize(TruncateForPreview(text), outputPath).Success?)
      && (r.status == "success" ==> r.audioPath == Some(outputPath) && r.error == None)
  {
  }

  // ---------------------------------------------------------------------
  // Previews of narration scripts

  /** The text `segments[..n]` contributes: each one followed by a space. */
  function Spaced(segments: seq<string>, n: nat): string
    requires n <= |segments|
  {
    if n == 0 then "" else Spaced(segments, n - 1) + segments[n - 1] + " "
  }

  /** How many leading segments the accumulation takes: it stops at the
      first that does not fit under 300 characters. */
  function TakenSegments(segments: seq<string>, n: nat): (m: nat)
    requires n <= |segments|
    ensures n <= m <= |segments|
    decreases |segments| - n
  {
    if n == |segments| then n
    else if |Spaced(segments, n)| + |segments[n]| < MAX_PREVIEW_CHARS then TakenSegments(segments, n + 1)
    else n
  }

  /** The segments' texts: a segment without one counts as "". */
  function SegmentTexts(segments: seq<Option<string>>): (r: seq<string>)
    ensures |r| == |segments|
  {
    seq(|segments|, i requires 0 <= i < |segments| => segments[i].GetOr(""))
  }

  /** The accumulation from segment `n` on, with `acc` gathered so far:
      each segment that fits is added with a space; the first that does
      not ends it. */
  function Accumulate(texts: seq<string>, n: nat, acc: string): string
    requires n <= |texts|
    decreases |texts| - n
  {
    if n == |texts| then acc
    else if |acc| + |texts[n]| < MAX_PREVIEW_CHARS then Accumulate(texts, n + 1, acc + texts[n] + " ")
    else acc
  }

  /** The accumulation loop of `generate_preview_from_narration`. */
  method AccumulatePreview(segments: seq<Option<string>>) returns (preview: string)
    ensures preview == Strip(Accumulate(SegmentTexts(segments), 0, ""))
  {
    ghost var texts := SegmentTexts(segments);
    var acc := "";
    var i := 0;
    while i < |segments|
      invariant 0 <= i <= |segments|
      invariant Accumulate(texts, 0, "") == Accumulate(texts, i, acc)
    {
      var segmentText := segments[i].GetOr("");
      assert segmentText == texts[i];
      if |acc| + |segmentText| < MAX_PREVIEW_CHARS {
        acc := acc + segmentText + " ";
      } else {
        break;
      }
      i := i + 1;
    }
    preview := Strip(acc);
  }

  /** The accumulation is the first `TakenSegments` segments, spaced. */
  lemma {:induction false} AccumulateIsSpaced(texts: seq<string>, n: nat)
    requires n <= |texts|
    ensures Accumulate(texts, n, Spaced(texts, n)) == Spaced(texts, TakenSegments(texts, n))
    decreases |texts| - n
  {
    if n < |texts| && |Spaced(texts, n)| + |texts[n]| < MAX_PREVIEW_CHARS {
      AccumulateIsSpaced(texts, n + 1);
    }
  }

  /** Taking whole segments keeps the preview within 300 characters, and
      the first segment left out would not have fit. */
  lemma {:induction false} TakenSegmentsFit(segments: seq<string>, n: nat)
    requires n <= |segments| && |Spaced(segments, n)| <= MAX_PREVIEW_CHARS
    ensures var m := TakenSegments(segments, n);
      && |Spaced(segments, m)| <= MAX_PREVIEW_CHARS
      && (m < |segments| ==> |Spaced(segments, m)| + |segments[m]| >= MAX_PREVIEW_CHARS)
    decreases |segments| - n
  {
    if n < |segments| && |Spaced(segments, n)| + |segments[n]| < MAX_PREVIEW_CHARS {
      TakenSegmentsFit(segments, n + 1);
    }
  }

  lemma StripShorter(s: string)
    ensures |Strip(s)| <= |s|
  {
    StripLeftSpec(s);
    StripRightSpec(StripLeft(s));
  }

  /** The preview of a script is its leading segments, each followed by a
      space, up to the first one that would not fit, stripped; so it never
      exceeds 300 characters. */
  lemma AccumulatedPreviewSpec(segments: seq<Option<string>>)
    ensures var texts := SegmentTexts(segments);
      var m := TakenSegments(texts, 0);
      && Accumulate(texts, 0, "") == Spaced(texts, m)
      && |Strip(Accumulate(texts, 0, ""))| <= MAX_PREVIEW_CHARS
      && (m < |texts| ==> |Spaced(texts, m)| + |texts[m]| >= MAX_PREVIEW_CHARS)
  {
    var texts := SegmentTexts(segments);
    AccumulateIsSpaced(texts, 0);
    TakenSegmentsFit(texts, 0);
    StripShorter(Spaced(texts, TakenSegments(texts, 0)));
  }

  /** A narration script: a JSON file's `segments` (each with its text,
      if any), or a plain text file's content. */
  datatype NarrationFile = JsonScript(segments: seq<Option<string>>) | TextScript(content: string)

  /** `generate_preview_from_narration`: `outputPath` is
      `output_dir / "preview_audio.mp3"`. */
  method GeneratePreviewFromNarration(apiKey: Option<string>, voiceId: Option<string>, file: NarrationFile,
                                     outputPath: string, synthesize: Synthesize)
    returns (r: AudioPreviewResult)
    ensures file.JsonScript? && file.segments == [] ==> r == Failed("No segments found in narration file")
    ensures file.JsonScript? && file.segments != [] ==>
      r == GeneratePreview(apiKey, voiceId, Strip(Accumulate(SegmentTexts(file.segments), 0, "")), outputPath, synthesize)
    ensures file.TextScript? ==>
      r == GeneratePreview(apiKey, voiceId, TruncateForPreview(file.content), outputPath, synthesize)
  {
    var previewText;
    match file {
      case JsonScript(segments) =>
        if segments == [] {
          return Failed("No segments found in narration file");
        }
        previewText := AccumulatePreview(segments);
      case TextScript(content) =>
        previewText := TruncateForPreview(content);
    }
    r := GeneratePreview(apiKey, voiceId, previewText, outputPath, synthesize);
  }

  /** Text that already fits is passed to synthesis whole, so a script's
      preview is spoken as accumulated. */
  lemma ShortTextUntouched(text: string)
    requires |text| <= MAX_PREVIEW_CHARS
    ensures TruncateForPreview(text) == text
  {
  }
}

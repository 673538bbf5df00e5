/** The demo script's data model (scripts/terminal_demo.py): settings, the
    error-detection configuration, steps and metadata, and the parsers that
    build them from an already-loaded YAML document. A YAML mapping is given
    as a record with one optional field per key the parser reads; a key that
    is absent is `None`, and so is a key given as null (the source keeps
    such a key's None instead). */
module DemoScript {
  import opened Wrappers

  const CAST_VERSION: int := 2
  const DEFAULT_TERM: string := "xterm-256color"
  const DEFAULT_COLS: int := 120
  const DEFAULT_ROWS: int := 30
  const DEFAULT_TYPING_SPEED: int := 50
  const DEFAULT_POST_EXECUTE_PAUSE: int := 500

  datatype ErrorDetectionConfig = ErrorDetectionConfig(
    mode: string,
    patterns: seq<string>,
    safeContexts: seq<string>,
    ignorePatterns: seq<string>)

  function DefaultPatterns(): seq<string>
  {
    [ "(?i)^error:", "(?i)^fatal:", "(?i)^exception:",
      "(?i)traceback \\(most recent call last\\)", "(?i)^failed:",
      "(?i)command not found", "(?i)no such file or directory",
      "(?i)permission denied" ]
  }

  function DefaultSafeContexts(): seq<string>
  {
    [ "PASSED", "test_\\w*error", "test_\\w*fail", "^\\s*#",
      "error_handler", "ErrorHandler", "on_error", "handle_error" ]
  }

  function DefaultErrorDetection(): ErrorDetectionConfig
  {
    ErrorDetectionConfig("smart", DefaultPatterns(), DefaultSafeContexts(), [])
  }

  datatype Settings = Settings(
    shell: string,
    cwd: Option<string>,
    env: map<string, string>,
    typingSpeed: int,
    postExecutePause: int,
    cols: int,
    rows: int,
    title: Option<string>,
    errorDetection: ErrorDetectionConfig)

  /** DEFAULT_SHELL: `$SHELL` when the module is loaded, else /bin/bash. */
  function DefaultShell(environ: map<string, string>): string
  {
    if "SHELL" in environ then environ["SHELL"] else "/bin/bash"
  }

  function DefaultSettings(environ: map<string, string>): Settings
  {
    Settings(DefaultShell(environ), None, map[], DEFAULT_TYPING_SPEED,
             DEFAULT_POST_EXECUTE_PAUSE, DEFAULT_COLS, DEFAULT_ROWS, None,
             DefaultErrorDetection())
  }

  /** A step mapping as loaded from YAML. */
  datatype RawStep = RawStep(
    action: Option<string>,
    content: Option<string>,
    duration: Option<int>,
    cwd: Option<string>,
    typingSpeed: Option<int>,
    ignoreErrorPatterns: Option<seq<string>>,
    expectError: Option<bool>,
    narration: Option<map<string, string>>,
    name: Option<string>,
    items: Option<seq<string>>,
    template: Template)

  /** The optional `template` key of a `foreach` step. (A dedicated type
      rather than `Option` so that Dafny can see a template is smaller than
      the step holding it.) */
  datatype Template = Absent | Given(steps: seq<RawStep>)
  {
    function StepsOrEmpty(): seq<RawStep>
    {
      if Given? then steps else []
    }
  }

  datatype Step = Step(
    action: string,
    content: Option<string>,
    duration: Option<int>,
    cwd: Option<string>,
    typingSpeed: Option<int>,
    ignoreErrorPatterns: seq<string>,
    expectError: bool,
    narration: Option<map<string, string>>,
    name: Option<string>,
    items: Option<seq<string>>,
    template: Template)

  /** `parse_step`: `action` defaults to "", `ignore_error_patterns` to [],
      `expect_error` to False; the other keys stay optional. */
  function ParseStep(raw: RawStep): Step
  {
    Step(raw.action.GetOr(""), raw.content, raw.duration, raw.cwd, raw.typingSpeed,
         raw.ignoreErrorPatterns.GetOr([]), raw.expectError.GetOr(false),
         raw.narration, raw.name, raw.items, raw.template)
  }

  /** The mapping that spells out every field of a step. */
  function StepToRaw(step: Step): RawStep
  {
    RawStep(Some(step.action), step.content, step.duration, step.cwd, step.typingSpeed,
            Some(step.ignoreErrorPatterns), Some(step.expectError), step.narration,
            step.name, step.items, step.template)
  }

  function EmptyRawStep(): RawStep
  {
    RawStep(None, None, None, None, None, None, None, None, None, None, Absent)
  }

  /** Parsing a step written out in full gives the same step back. */
  lemma ParseStepRoundTrip(step: Step)
    ensures ParseStep(StepToRaw(step)) == step
  {
  }

  /** An empty mapping parses to the defaults. */
  lemma ParseStepDefaults()
    ensures ParseStep(EmptyRawStep()) == Step("", None, None, None, None, [], false, None, None, None, Absent)
  {
  }

  /** Size of a step tree: one per mapping, plus its `template` steps. It
      bounds the depth of `foreach` nesting. */
  function RawSize(r: RawStep): (n: nat)
    ensures n >= 1
    decreases r
  {
    match r.template
    case Absent => 1
    case Given(ts) => 1 + TemplateSize(ts)
  }

  function TemplateSize(ts: seq<RawStep>): nat
    decreases ts
  {
    if ts == [] then 0 else RawSize(ts[0]) + TemplateSize(ts[1..])
  }

  lemma TemplateSizeCons(ts: seq<RawStep>)
    requires ts != []
    ensures TemplateSize(ts) == RawSize(ts[0]) + TemplateSize(ts[1..])
  {
  }

  /** The size of the templates a parsed step can run. */
  function StepSize(step: Step): nat
  {
    TemplateSize(step.template.StepsOrEmpty())
  }

  /** A template step, once parsed, runs strictly smaller templates than
      the template it belongs to. */
  lemma {:induction false} TemplateStepSmaller(ts: seq<RawStep>, j: nat)
    requires j < |ts|
    ensures StepSize(ParseStep(ts[j])) < TemplateSize(ts)
  {
    if j > 0 {
      TemplateStepSmaller(ts[1..], j - 1);
      assert ts[1..][j - 1] == ts[j];
    }
  }

  datatype RawErrorDetection = RawErrorDetection(
    mode: Option<string>,
    patterns: Option<seq<string>>,
    safeContexts: Option<seq<string>>,
    ignorePatterns: Option<seq<string>>)

  /** `parse_error_detection`: every key present replaces the default. */
  function ParseErrorDetection(raw: RawErrorDetection): ErrorDetectionConfig
  {
    var d := DefaultErrorDetection();
    ErrorDetectionConfig(raw.mode.GetOr(d.mode), raw.patterns.GetOr(d.patterns),
                         raw.safeContexts.GetOr(d.safeContexts), raw.ignorePatterns.GetOr(d.ignorePatterns))
  }

  datatype RawSettings = RawSettings(
    shell: Option<string>,
    cwd: Option<string>,
    env: Option<map<string, string>>,
    typingSpeed: Option<int>,
    postExecutePause: Option<int>,
    cols: Option<int>,
    rows: Option<int>,
    title: Option<string>,
    errorDetection: Option<RawErrorDetection>)

  /** `parse_settings`: every key present replaces the default. */
  function ParseSettings(raw: RawSettings, environ: map<string, string>): Settings
  {
    var d := DefaultSettings(environ);
    Settings(raw.shell.GetOr(d.shell),
             if raw.cwd.Some? then raw.cwd else d.cwd,
             raw.env.GetOr(d.env),
             raw.typingSpeed.GetOr(d.typingSpeed),
             raw.postExecutePause.GetOr(d.postExecutePause),
             raw.cols.GetOr(d.cols),
             raw.rows.GetOr(d.rows),
             if raw.title.Some? then raw.title else d.title,
             if raw.errorDetection.Some? then ParseErrorDetection(raw.errorDetection.value) else d.errorDetection)
  }

  function SettingsToRaw(s: Settings): RawSettings
  {
    var e := s.errorDetection;
    RawSettings(Some(s.shell), s.cwd, Some(s.env), Some(s.typingSpeed), Some(s.postExecutePause),
                Some(s.cols), Some(s.rows), s.title,
                Some(RawErrorDetection(Some(e.mode), Some(e.patterns), Some(e.safeContexts), Some(e.ignorePatterns))))
  }

  function EmptyRawSettings(): RawSettings
  {
    RawSettings(None, None, None, None, None, None, None, None, None)
  }

  /** Settings written out in full parse back unchanged, whatever the
      environment. */
  lemma ParseSettingsRoundTrip(s: Settings, environ: map<string, string>)
    ensures ParseSettings(SettingsToRaw(s), environ) == s
  {
  }

  /** An empty `settings` mapping gives the documented defaults: smart error
      detection, 120x30, 50 ms per character, 500 ms after each command. */
  lemma ParseSettingsDefaults(environ: map<string, string>)
    ensures var s := ParseSettings(EmptyRawSettings(), environ);
            && s.cols == 120 && s.rows == 30 && s.typingSpeed == 50 && s.postExecutePause == 500
            && s.errorDetection.mode == "smart"
            && s.errorDetection.patterns == DefaultPatterns() && |s.errorDetection.patterns| == 8
            && s.errorDetection.safeContexts == DefaultSafeContexts() && |s.errorDetection.safeContexts| == 8
            && s.errorDetection.ignorePatterns == []
            && s.shell == (if "SHELL" in environ then environ["SHELL"] else "/bin/bash")
  {
  }

  datatype Metadata = Metadata(
    name: Option<string>,
    version: Option<string>,
    description: Option<string>,
    author: Option<string>,
    sourceChecksum: Option<string>,
    recordedAt: Option<string>)

  datatype RawMetadata = RawMetadata(
    name: Option<string>,
    version: Option<string>,
    description: Option<string>,
    author: Option<string>)

  /** `parse_metadata`: the four descriptive keys; the checksum and the
      recording time are filled in by the loader, never by the parser. */
  function ParseMetadata(raw: RawMetadata): (m: Metadata)
    ensures m.sourceChecksum.None? && m.recordedAt.None?
    ensures m.name == raw.name && m.version == raw.version
    ensures m.description == raw.description && m.author == raw.author
  {
    Metadata(raw.name, raw.version, raw.description, raw.author, None, None)
  }

  /** `compute_checksum`: the first 16 hex digits of the file's SHA-256
      digest (the digest itself is a parameter). */
  function ComputeChecksum(content: seq<int>, sha256Hex: seq<int> -> string): (r: string)
    ensures |r| <= 16 && |r| <= |sha256Hex(content)| && r == sha256Hex(content)[..|r|]
    ensures |sha256Hex(content)| >= 16 ==> |r| == 16
  {
    if |sha256Hex(content)| <= 16 then sha256Hex(content) else sha256Hex(content)[..16]
  }

  /** A whole script document; each top-level key may be missing. */
  datatype RawScript = RawScript(
    settings: Option<RawSettings>,
    variables: Option<map<string, string>>,
    steps: Option<seq<RawStep>>,
    metadata: Option<RawMetadata>)

  datatype Script = Script(
    settings: Settings,
    variables: map<string, string>,
    steps: seq<Step>,
    metadata: Metadata)

  /** `load_demo_script`, after YAML parsing: each section is parsed with
      its own parser (an absent section as an empty mapping), and the
      metadata gains the file checksum and the load time. */
  function LoadDemoScript(raw: RawScript, environ: map<string, string>,
                          checksum: string, now: string): (r: Script)
    ensures r.settings == ParseSettings(raw.settings.GetOr(EmptyRawSettings()), environ)
    ensures r.variables == raw.variables.GetOr(map[])
    ensures |r.steps| == |raw.steps.GetOr([])|
    ensures forall i :: 0 <= i < |r.steps| ==> r.steps[i] == ParseStep(raw.steps.GetOr([])[i])
    ensures raw.metadata.Some? ==>
      var m := raw.metadata.value;
      r.metadata == Metadata(m.name, m.version, m.description, m.author, Some(checksum), Some(now))
    ensures raw.metadata.None? ==> r.metadata == Metadata(None, None, None, None, Some(checksum), Some(now))
  {
    var rawSteps := raw.steps.GetOr([]);
    var m := ParseMetadata(raw.metadata.GetOr(RawMetadata(None, None, None, None)));
    Script(ParseSettings(raw.settings.GetOr(EmptyRawSettings()), environ),
           raw.variables.GetOr(map[]),
           seq(|rawSteps|, i requires 0 <= i < |rawSteps| => ParseStep(rawSteps[i])),
           m.(sourceChecksum := Some(checksum), recordedAt := Some(now)))
  }
}

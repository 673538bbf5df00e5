/** Structured errors with actionable suggestions (utils/errors.py): the
    first-match classification of an exception against the pattern table,
    and the display and dictionary forms of the result. An exception is
    its message (`str(error)`) and its type name. */
module Errors {
  import opened Wrappers
  import opened Text
  import opened Json

  datatype ErrorCategory =
    | Configuration | Network | Authentication | Selector | Timeout
    | FileSystem | Api | Recording | Compositing | Unknown

  /** The category's `.value`. */
  function CategoryValue(c: ErrorCategory): string
  {
    match c
    case Configuration => "configuration"
    case Network => "network"
    case Authentication => "authentication"
    case Selector => "selector"
    case Timeout => "timeout"
    case FileSystem => "file_system"
    case Api => "api"
    case Recording => "recording"
    case Compositing => "compositing"
    case Unknown => "unknown"
  }

  /** Different categories have different values. */
  lemma CategoryValueInjective(a: ErrorCategory, b: ErrorCategory)
    requires CategoryValue(a) == CategoryValue(b)
    ensures a == b
  {
    assert CategoryValue(a)[0] == CategoryValue(b)[0];
    assert |CategoryValue(a)| == |CategoryValue(b)|;
    if CategoryValue(a)[0] == 'c' {
      assert CategoryValue(a)[2] == CategoryValue(b)[2];
    }
  }

  datatype Suggestion = Suggestion(
    description: string,
    command: Option<string>,
    code: Option<string>,
    link: Option<string>)

  function Describe(description: string): Suggestion
  {
    Suggestion(description, None, None, None)
  }

  function Run(description: string, command: string): Suggestion
  {
    Suggestion(description, Some(command), None, None)
  }

  function Try(description: string, code: string): Suggestion
  {
    Suggestion(description, None, Some(code), None)
  }

  function Read(description: string, link: string): Suggestion
  {
    Suggestion(description, None, None, Some(link))
  }

  datatype DemoError = DemoError(
    category: ErrorCategory,
    message: string,
    details: Option<string>,
    stage: Option<string>,
    suggestions: seq<Suggestion>,
    context: map<string, Json>,
    recoverable: bool)

  /** A `DemoError` built with the defaults: no details, stage,
      suggestions or context, and recoverable. */
  function NewDemoError(category: ErrorCategory, message: string): (e: DemoError)
    ensures e.recoverable && e.suggestions == [] && e.context == map[]
    ensures e.details == None && e.stage == None
  {
    DemoError(category, message, None, None, [], map[], true)
  }

  // ---------------------------------------------------------------------
  // The pattern table

  datatype ErrorPattern = ErrorPattern(
    pattern: string,
    category: ErrorCategory,
    message: string,
    suggestions: seq<Suggestion>)

  /** `_build_error_patterns`, in the dictionary's order. */
  const ERROR_PATTERNS: seq<ErrorPattern> := [
    ErrorPattern("ELEVENLABS_API_KEY", Configuration, "ElevenLabs API key not configured", [
      Run("Set the ElevenLabs API key environment variable", "export ELEVENLABS_API_KEY='your_api_key_here'"),
      Run("Add to your shell profile for persistence", "echo 'export ELEVENLABS_API_KEY=\"your_key\"' >> ~/.zshrc"),
      Read("Get an API key from ElevenLabs", "https://elevenlabs.io/api")]),
    ErrorPattern("HEYGEN_API_KEY", Configuration, "HeyGen API key not configured", [
      Run("Set the HeyGen API key environment variable", "export HEYGEN_API_KEY='your_api_key_here'"),
      Read("Get an API key from HeyGen", "https://heygen.com")]),
    ErrorPattern("ELEVENLABS_VOICE_ID", Configuration, "Voice ID not configured", [
      Run("Set the voice ID environment variable", "export ELEVENLABS_VOICE_ID='your_voice_id'"),
      Run("List available voices", "python list_voices.py")]),
    ErrorPattern("ElementNotFound", Selector, "Element not found on page", [
      Try("Re-run selector discovery to find updated selectors", "await discover_selectors(page)"),
      Try("Add a wait before the action", "await page.wait_for_selector('.my-element', timeout=10000)"),
      Describe("Check if the element is inside an iframe")]),
    ErrorPattern("selector", Selector, "Selector failed", [
      Try("Try using a data-testid selector instead", "page.click('[data-testid=\"my-button\"]')"),
      Try("Use text-based selector as fallback", "page.click('button:has-text(\"Submit\")')")]),
    ErrorPattern("TimeoutError", Timeout, "Operation timed out", [
      Try("Increase the timeout value", "page.set_default_timeout(60000)  # 60 seconds"),
      Describe("Check if the page is loading slowly"),
      Run("Verify the application is running", "curl -I http://localhost:3000")]),
    ErrorPattern("timeout", Timeout, "Request timed out", [
      Describe("Check your internet connection"),
      Describe("Retry the operation")]),
    ErrorPattern("ConnectionError", Network, "Connection failed", [
      Run("Check if the application is running", "lsof -i :3000"),
      Run("Start the development server", "npm run dev")]),
    ErrorPattern("ECONNREFUSED", Network, "Connection refused", [
      Run("Verify the app is running on the expected port", "lsof -i :3000"),
      Run("Check for port conflicts", "netstat -an | grep 3000")]),
    ErrorPattern("rate limit", Api, "API rate limit exceeded", [
      Describe("Wait a few minutes before retrying"),
      Try("Use caching to reduce API calls", "cache.get_audio(text) or generate_and_cache(text)")]),
    ErrorPattern("401", Authentication, "Authentication failed", [
      Describe("Verify your API key is correct"),
      Describe("Check if your API key has expired")]),
    ErrorPattern("403", Authentication, "Access forbidden", [
      Describe("Check if your API key has the required permissions")]),
    ErrorPattern("video", Recording, "Video recording failed", [
      Run("Ensure Playwright is installed correctly", "npx playwright install chromium"),
      Run("Check available disk space", "df -h")]),
    ErrorPattern("FileNotFoundError", FileSystem, "File not found", [
      Describe("Check the file path is correct"),
      Run("Verify the file exists", "ls -la /path/to/file")]),
    ErrorPattern("PermissionError", FileSystem, "Permission denied", [
      Run("Check file permissions", "ls -la /path/to/file"),
      Describe("Try running with appropriate permissions")])
  ]

  /** A pattern matches when its lower-case form occurs in the lower-case
      message, or when it is the exception's type name. */
  predicate Matches(p: ErrorPattern, errorStr: string, errorType: string)
  {
    Contains(Lower(errorStr), Lower(p.pattern)) || p.pattern == errorType
  }

  /** The index of the first matching pattern at or after `i`. */
  function FirstMatch(table: seq<ErrorPattern>, errorStr: string, errorType: string, i: nat): (r: Option<nat>)
    requires i <= |table|
    ensures r.Some? ==> i <= r.value < |table| && Matches(table[r.value], errorStr, errorType)
    ensures r.Some? ==> forall j :: i <= j < r.value ==> !Matches(table[j], errorStr, errorType)
    ensures r.None? ==> forall j :: i <= j < |table| ==> !Matches(table[j], errorStr, errorType)
    decreases |table| - i
  {
    if i == |table| then None
    else if Matches(table[i], errorStr, errorType) then Some(i)
    else FirstMatch(table, errorStr, errorType, i + 1)
  }

  /** `analyze` over a pattern table. */
  function AnalyzeWith(table: seq<ErrorPattern>, errorStr: string, errorType: string,
                       stage: Option<string>, context: Option<map<string, Json>>): DemoError
  {
    var ctx := if context.Some? then context.value else map[];
    match FirstMatch(table, errorStr, errorType, 0)
    case Some(k) =>
      DemoError(table[k].category, table[k].message, Some(errorStr), stage, table[k].suggestions, ctx, true)
    case None =>
      DemoError(Unknown, "An error occurred: " + errorType, Some(errorStr), stage,
                [Describe("Check the error details above"), Describe("Try running the operation again")],
                ctx, true)
  }

  /** `ErrorHandler().analyze` */
  function Analyze(errorStr: string, errorType: string, stage: Option<string>,
                   context: Option<map<string, Json>>): DemoError
  {
    AnalyzeWith(ERROR_PATTERNS, errorStr, errorType, stage, context)
  }

  /** The classification is the first matching entry of the table; with
      none, the error is UNKNOWN, names the type and carries two
      suggestions. The stage and the message are passed through, and the
      context defaults to empty. */
  lemma AnalyzeSpec(table: seq<ErrorPattern>, errorStr: string, errorType: string,
                    stage: Option<string>, context: Option<map<string, Json>>)
    ensures var e := AnalyzeWith(table, errorStr, errorType, stage, context);
      && e.stage == stage && e.details == Some(errorStr) && e.recoverable
      && e.context == (if context.Some? then context.value else map[])
      && ((exists k :: 0 <= k < |table| && Matches(table[k], errorStr, errorType)) ==>
            exists k :: 0 <= k < |table| && Matches(table[k], errorStr, errorType)
              && (forall j :: 0 <= j < k ==> !Matches(table[j], errorStr, errorType))
              && e.category == table[k].category && e.message == table[k].message
              && e.suggestions == table[k].suggestions)
      && ((forall k :: 0 <= k < |table| ==> !Matches(table[k], errorStr, errorType)) ==>
            e.category == Unknown && e.message == "An error occurred: " + errorType
            && |e.suggestions| == 2)
  {
    var m := FirstMatch(table, errorStr, errorType, 0);
    if m.Some? {
      var k := m.value;
      assert Matches(table[k], errorStr, errorType);
    }
  }

  /** An exception whose type name is a pattern of the table is never
      UNKNOWN, whatever its message. */
  lemma TypeNameIsClassified(errorStr: string, errorType: string, stage: Option<string>,
                             context: Option<map<string, Json>>)
    requires exists k :: 0 <= k < |ERROR_PATTERNS| && ERROR_PATTERNS[k].pattern == errorType
    ensures Analyze(errorStr, errorType, stage, context).category != Unknown
  {
    var table := ERROR_PATTERNS;
    var k :| 0 <= k < |table| && table[k].pattern == errorType;
    assert Matches(table[k], errorStr, errorType);
    PatternsAreClassified();
    KnownCategory(table, errorStr, errorType, stage, context);
  }

  /** No entry of the table is UNKNOWN. */
  lemma PatternsAreClassified()
    ensures forall j :: 0 <= j < |ERROR_PATTERNS| ==> ERROR_PATTERNS[j].category != Unknown
  {
  }

  lemma KnownCategory(table: seq<ErrorPattern>, errorStr: string, errorType: string,
                      stage: Option<string>, context: Option<map<string, Json>>)
    requires forall j :: 0 <= j < |table| ==> table[j].category != Unknown
    requires exists k :: 0 <= k < |table| && Matches(table[k], errorStr, errorType)
    ensures AnalyzeWith(table, errorStr, errorType, stage, context).category != Unknown
  {
    var k :| 0 <= k < |table| && Matches(table[k], errorStr, errorType);
    assert FirstMatch(table, errorStr, errorType, 0).Some?;
  }

  // ---------------------------------------------------------------------
  // Display

  /** The heading line: `❌ <CATEGORY> ERROR: <message>`. */
  function Heading(e: DemoError): string
  {
    "\U{274C} " + Upper(CategoryValue(e.category)) + " ERROR: " + e.message
  }

  /** The lines of the `number`-th suggestion (numbered from 1): its
      description, then its command and link when set. The code snippet
      is not shown. */
  function SuggestionLines(number: nat, s: Suggestion): (r: seq<string>)
    ensures 1 <= |r| <= 3
    ensures r[0] == "      " + NatToString(number) + ". " + s.description
  {
    ["      " + NatToString(number) + ". " + s.description]
    + (if Truthy(s.command) then ["         $ " + s.command.value] else [])
    + (if Truthy(s.link) then ["         \U{1F4D6} " + s.link.value] else [])
  }

  /** The lines of the first `n` suggestions. */
  function SuggestionBlock(ss: seq<Suggestion>, n: nat): (r: seq<string>)
    requires n <= |ss|
    ensures n <= |r| <= 3 * n
  {
    if n == 0 then [] else SuggestionBlock(ss, n - 1) + SuggestionLines(n, ss[n - 1])
  }

  const SuggestionsTitle := "\n   \U{1F4A1} Suggestions:"

  /** The lines `format` joins. */
  function FormatLines(e: DemoError): seq<string>
  {
    [Heading(e)]
    + (if Truthy(e.details) then ["\n   " + e.details.value] else [])
    + (if Truthy(e.stage) then ["\n   Stage: " + e.stage.value] else [])
    + (if e.suggestions != [] then [SuggestionsTitle] + SuggestionBlock(e.suggestions, |e.suggestions|) else [])
  }

  /** `format` */
  method Format(e: DemoError) returns (s: string)
    ensures s == Join(FormatLines(e), '\n')
  {
    var lines := [Heading(e)];
    if Truthy(e.details) {
      lines := lines + ["\n   " + e.details.value];
    }
    if Truthy(e.stage) {
      lines := lines + ["\n   Stage: " + e.stage.value];
    }
    ghost var preamble := lines;
    if e.suggestions != [] {
      lines := lines + [SuggestionsTitle];
      ghost var head := lines;
      var i := 0;
      while i < |e.suggestions|
        invariant 0 <= i <= |e.suggestions|
        invariant lines == head + SuggestionBlock(e.suggestions, i)
      {
        var suggestion := e.suggestions[i];
        var entry := ["      " + NatToString(i + 1) + ". " + suggestion.description];
        if Truthy(suggestion.command) {
          entry := entry + ["         $ " + suggestion.command.value];
        }
        if Truthy(suggestion.link) {
          entry := entry + ["         \U{1F4D6} " + suggestion.link.value];
        }
        BlockStep(e.suggestions, i, head, lines, entry);
        lines := lines + entry;
        i := i + 1;
      }
    }
    Assembled(e, preamble, lines);
    s := Join(lines, '\n');
  }

  lemma Assembled(e: DemoError, preamble: seq<string>, lines: seq<string>)
    requires preamble == [Heading(e)]
      + (if Truthy(e.details) then ["\n   " + e.details.value] else [])
      + (if Truthy(e.stage) then ["\n   Stage: " + e.stage.value] else [])
    requires lines == if e.suggestions == [] then preamble
      else preamble + [SuggestionsTitle] + SuggestionBlock(e.suggestions, |e.suggestions|)
    ensures lines == FormatLines(e)
  {
  }

  lemma BlockStep(ss: seq<Suggestion>, i: nat, head: seq<string>, lines: seq<string>, entry: seq<string>)
    requires i < |ss|
    requires lines == head + SuggestionBlock(ss, i) && entry == SuggestionLines(i + 1, ss[i])
    ensures lines + entry == head + SuggestionBlock(ss, i + 1)
  {
    assert SuggestionBlock(ss, i + 1) == SuggestionBlock(ss, i) + entry;
  }

  /** Every suggestion's numbered line is in the block, in order: the
      `k`-th suggestion's line comes after the lines of the ones before. */
  lemma {:induction false} SuggestionNumbered(ss: seq<Suggestion>, n: nat, k: nat)
    requires k < n <= |ss|
    ensures |SuggestionBlock(ss, k)| < |SuggestionBlock(ss, n)|
    ensures SuggestionBlock(ss, n)[|SuggestionBlock(ss, k)|]
            == "      " + NatToString(k + 1) + ". " + ss[k].description
  {
    if k == n - 1 {
      assert SuggestionBlock(ss, n) == SuggestionBlock(ss, k) + SuggestionLines(n, ss[k]);
    } else {
      SuggestionNumbered(ss, n - 1, k);
      assert SuggestionBlock(ss, n) == SuggestionBlock(ss, n - 1) + SuggestionLines(n, ss[n - 1]);
    }
  }

  /** The first line is the heading; details and stage lines are there
      exactly when they are set; the suggestions follow their title line,
      at least one line each. */
  lemma FormatShape(e: DemoError)
    ensures var lines := FormatLines(e);
      var extra := (if Truthy(e.details) then 1 else 0) + (if Truthy(e.stage) then 1 else 0);
      && lines[0] == Heading(e)
      && (e.suggestions == [] ==> |lines| == 1 + extra)
      && (e.suggestions != [] ==>
            |lines| >= 2 + extra + |e.suggestions|
            && lines[1 + extra] == "\n   \U{1F4A1} Suggestions:"
            && lines[2 + extra] == "      1. " + e.suggestions[0].description)
      && (Truthy(e.details) ==> lines[1] == "\n   " + e.details.value)
      && (Truthy(e.stage) ==> lines[1 + extra - 1] == "\n   Stage: " + e.stage.value)
  {
    if e.suggestions != [] {
      SuggestionNumbered(e.suggestions, |e.suggestions|, 0);
      assert NatToString(1) == "1";
    }
  }

  // ---------------------------------------------------------------------
  // Dictionary form

  function OptString(s: Option<string>): Json
  {
    if s.Some? then JStr(s.value) else JNull
  }

  function SuggestionDict(s: Suggestion): Json
  {
    JObj([("description", JStr(s.description)), ("command", OptString(s.command)),
          ("code", OptString(s.code)), ("link", OptString(s.link))])
  }

  /** `to_dict`: the context is not part of it. */
  function ToDict(e: DemoError): (d: Json)
    ensures d.JObj? && Keys(d.fields) == ["category", "message", "details", "stage", "suggestions", "recoverable"]
  {
    JObj([("category", JStr(CategoryValue(e.category))),
          ("message", JStr(e.message)),
          ("details", OptString(e.details)),
          ("stage", OptString(e.stage)),
          ("suggestions", JArr(seq(|e.suggestions|, i requires 0 <= i < |e.suggestions| => SuggestionDict(e.suggestions[i])))),
          ("recoverable", JBool(e.recoverable))])
  }

  /** The dictionary holds the category's value, so the category can be
      read back from it, and the message. */
  lemma ToDictCategory(e: DemoError)
    ensures Get(ToDict(e).fields, "category") == Some(JStr(CategoryValue(e.category)))
    ensures Get(ToDict(e).fields, "message") == Some(JStr(e.message))
  {
    var f := ToDict(e).fields;
    GetFirst(f, 0);
    assert "category"[0] != "message"[0];
    GetFirst(f, 1);
  }

  /** The dictionary holds the details, or null without them. */
  lemma ToDictDetails(e: DemoError)
    ensures Get(ToDict(e).fields, "details") == Some(OptString(e.details))
  {
    var f := ToDict(e).fields;
    assert "category"[0] != "details"[0] && "message"[0] != "details"[0];
    GetFirst(f, 2);
  }

  /** The dictionary holds the details and the stage, each or null
      without one. */
  lemma ToDictStage(e: DemoError)
    ensures Get(ToDict(e).fields, "details") == Some(OptString(e.details))
    ensures Get(ToDict(e).fields, "stage") == Some(OptString(e.stage))
  {
    ToDictDetails(e);
    var f := ToDict(e).fields;
    assert "category"[0] != "stage"[0] && "message"[0] != "stage"[0] && "details"[0] != "stage"[0];
    GetFirst(f, 3);
  }

  /** The dictionary holds one entry per suggestion, in order, each the
      dictionary of that suggestion. */
  lemma ToDictSuggestions(e: DemoError)
    ensures var s := Get(ToDict(e).fields, "suggestions");
      && s.Some? && s.value.JArr? && |s.value.items| == |e.suggestions|
      && forall i :: 0 <= i < |e.suggestions| ==> s.value.items[i] == SuggestionDict(e.suggestions[i])
  {
    var f := ToDict(e).fields;
    assert "category"[0] != "suggestions"[0] && "message"[0] != "suggestions"[0];
    assert "details"[0] != "suggestions"[0] && "stage"[1] != "suggestions"[1];
    GetFirst(f, 4);
  }

  /** A suggestion's dictionary holds its description, and its command,
      code and link, each or null without one. */
  lemma SuggestionDictValues(sg: Suggestion)
    ensures var f := SuggestionDict(sg).fields;
      && Get(f, "description") == Some(JStr(sg.description))
      && Get(f, "command") == Some(OptString(sg.command))
      && Get(f, "code") == Some(OptString(sg.code))
      && Get(f, "link") == Some(OptString(sg.link))
  {
    var f := SuggestionDict(sg).fields;
    GetFirst(f, 0);
    assert "description"[0] != "command"[0] && "description"[0] != "link"[0];
    GetFirst(f, 1);
    assert "description"[0] != "code"[0] && "command"[2] != "code"[2];
    GetFirst(f, 2);
    assert "command"[0] != "link"[0] && "code"[0] != "link"[0];
    GetFirst(f, 3);
  }

  /** The dictionary holds the recoverable flag. */
  lemma ToDictRecoverable(e: DemoError)
    ensures Get(ToDict(e).fields, "recoverable") == Some(JBool(e.recoverable))
  {
    var f := ToDict(e).fields;
    assert "category"[0] != "recoverable"[0] && "message"[0] != "recoverable"[0];
    assert "details"[0] != "recoverable"[0] && "stage"[0] != "recoverable"[0] && "suggestions"[0] != "recoverable"[0];
    GetFirst(f, 5);
  }
}

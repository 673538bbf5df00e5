/** Per-line error detection in command output (`check_for_errors` in
    scripts/terminal_demo.py). The regular-expression engine is a parameter:
    `matches(pattern, line)` stands for a case-insensitive `search` of the
    compiled pattern in the line. */
module ErrorDetection {
  import opened Wrappers
  import opened Text
  import opened DemoScript

  type Matcher = (string, string) -> bool

  datatype DetectedError = DetectedError(step: int, line: nat, pattern: string, content: string)

  /** Longest content kept for a reported line. */
  const CONTENT_LIMIT: nat := 200

  /** `any(p.search(line) for p in pats)`. */
  predicate AnyMatches(matches: Matcher, pats: seq<string>, line: string)
  {
    exists i :: 0 <= i < |pats| && matches(pats[i], line)
  }

  /** Index of the first pattern that matches the line, if any. */
  function FirstMatch(matches: Matcher, pats: seq<string>, line: string): (r: Option<nat>)
    ensures r.Some? ==> r.value < |pats| && matches(pats[r.value], line)
    ensures r.Some? ==> forall j :: 0 <= j < r.value ==> !matches(pats[j], line)
    ensures r.None? <==> !AnyMatches(matches, pats, line)
  {
    FirstMatchFrom(matches, pats, line, 0)
  }

  function FirstMatchFrom(matches: Matcher, pats: seq<string>, line: string, k: nat): (r: Option<nat>)
    requires forall j :: 0 <= j < k && j < |pats| ==> !matches(pats[j], line)
    ensures r.Some? ==> k <= r.value < |pats| && matches(pats[r.value], line)
    ensures r.Some? ==> forall j :: 0 <= j < r.value ==> !matches(pats[j], line)
    ensures r.None? <==> !AnyMatches(matches, pats, line)
    decreases |pats| - k
  {
    if k >= |pats| then None
    else if matches(pats[k], line) then Some(k)
    else FirstMatchFrom(matches, pats, line, k + 1)
  }

  /** Whether a safe context vetoes reports on this line: only in smart
      mode. */
  predicate SafeLine(cfg: ErrorDetectionConfig, matches: Matcher, line: string)
  {
    cfg.mode == "smart" && AnyMatches(matches, cfg.safeContexts, line)
  }

  /** The pattern index reported for one line, or None: blank lines and
      lines matching a global or step ignore pattern are skipped; otherwise
      the first matching error pattern is reported unless a safe context
      vetoes the line. */
  function LineVerdict(cfg: ErrorDetectionConfig, matches: Matcher, stepIgnore: seq<string>,
                       line: string): Option<nat>
  {
    if IsBlank(line) then None
    else if AnyMatches(matches, cfg.ignorePatterns + stepIgnore, line) then None
    else if SafeLine(cfg, matches, line) then None
    else FirstMatch(matches, cfg.patterns, line)
  }

  /** The record for line `n` (0-based) when pattern `i` is reported. */
  function Report(cfg: ErrorDetectionConfig, stepIndex: int, n: nat, i: nat, line: string): DetectedError
    requires i < |cfg.patterns|
  {
    DetectedError(stepIndex, n + 1, cfg.patterns[i], Take(Strip(line), CONTENT_LIMIT))
  }

  function ReportsFor(cfg: ErrorDetectionConfig, matches: Matcher, stepIgnore: seq<string>,
                      stepIndex: int, n: nat, line: string): (r: seq<DetectedError>)
    ensures |r| <= 1
    ensures |r| == 1 ==> r[0].line == n + 1 && r[0].step == stepIndex
  {
    match LineVerdict(cfg, matches, stepIgnore, line)
    case None => []
    case Some(i) => [Report(cfg, stepIndex, n, i, line)]
  }

  /** The reports for the first `n` lines. */
  function ErrorsUpTo(cfg: ErrorDetectionConfig, matches: Matcher, stepIgnore: seq<string>,
                      stepIndex: int, lines: seq<string>, n: nat): seq<DetectedError>
    requires n <= |lines|
  {
    if n == 0 then []
    else ErrorsUpTo(cfg, matches, stepIgnore, stepIndex, lines, n - 1)
         + ReportsFor(cfg, matches, stepIgnore, stepIndex, n - 1, lines[n - 1])
  }

  /** All reports for a step's output. */
  function DetectErrors(cfg: ErrorDetectionConfig, matches: Matcher, output: string,
                        stepIgnore: seq<string>, expectError: bool, stepIndex: int): seq<DetectedError>
  {
    if cfg.mode == "off" || expectError then []
    else
      var lines := Split(output, '\n');
      ErrorsUpTo(cfg, matches, stepIgnore, stepIndex, lines, |lines|)
  }

  /** A line is reported with pattern `k` exactly when it is not blank, no
      ignore pattern and (in smart mode) no safe context matches it, and `k`
      is the first error pattern that matches it. */
  lemma LineVerdictIff(cfg: ErrorDetectionConfig, matches: Matcher, stepIgnore: seq<string>,
                       line: string, k: nat)
    ensures LineVerdict(cfg, matches, stepIgnore, line) == Some(k) <==>
            && !IsBlank(line)
            && !AnyMatches(matches, cfg.ignorePatterns + stepIgnore, line)
            && !SafeLine(cfg, matches, line)
            && k < |cfg.patterns| && matches(cfg.patterns[k], line)
            && (forall j :: 0 <= j < k ==> !matches(cfg.patterns[j], line))
  {
    if LineVerdict(cfg, matches, stepIgnore, line) != Some(k) && !IsBlank(line)
       && !AnyMatches(matches, cfg.ignorePatterns + stepIgnore, line)
       && !SafeLine(cfg, matches, line) && k < |cfg.patterns| && matches(cfg.patterns[k], line) {
      var f := FirstMatch(matches, cfg.patterns, line);
      assert f.Some? && f.value != k;
    }
  }

  /** Outside smart mode ("strict") the safe contexts have no effect; in
      smart mode a line matching a safe context is never reported. */
  lemma SafeContextsOnlyInSmartMode(cfg: ErrorDetectionConfig, matches: Matcher,
                                    stepIgnore: seq<string>, line: string)
    ensures cfg.mode != "smart" ==>
      LineVerdict(cfg, matches, stepIgnore, line)
        == LineVerdict(cfg.(safeContexts := []), matches, stepIgnore, line)
    ensures cfg.mode == "smart" && AnyMatches(matches, cfg.safeContexts, line) ==>
      LineVerdict(cfg, matches, stepIgnore, line).None?
  {
  }

  /** Every report names a line (1-based, among the first `n`) that the
      line rule reports, with that line's pattern and its stripped content
      cut to 200 characters. */
  predicate ReportsSound(cfg: ErrorDetectionConfig, matches: Matcher, stepIgnore: seq<string>,
                         stepIndex: int, lines: seq<string>, n: nat, r: seq<DetectedError>)
    requires n <= |lines|
  {
    forall j :: 0 <= j < |r| ==>
      && 1 <= r[j].line <= n && r[j].step == stepIndex
      && ReportsFor(cfg, matches, stepIgnore, stepIndex, r[j].line - 1, lines[r[j].line - 1]) == [r[j]]
  }

  /** Reports come in strictly increasing line order (so one per line). */
  predicate ReportsOrdered(r: seq<DetectedError>)
  {
    forall i, j :: 0 <= i < j < |r| ==> r[i].line < r[j].line
  }

  /** Every line among the first `n` that the rule reports has a report. */
  predicate ReportsComplete(cfg: ErrorDetectionConfig, matches: Matcher, stepIgnore: seq<string>,
                            lines: seq<string>, n: nat, r: seq<DetectedError>)
    requires n <= |lines|
  {
    forall m :: 0 <= m < n && LineVerdict(cfg, matches, stepIgnore, lines[m]).Some? ==>
      exists j :: 0 <= j < |r| && r[j].line == m + 1
  }

  lemma {:induction false} ErrorsUpToSound(cfg: ErrorDetectionConfig, matches: Matcher,
      stepIgnore: seq<string>, stepIndex: int, lines: seq<string>, n: nat)
    requires n <= |lines|
    ensures ReportsSound(cfg, matches, stepIgnore, stepIndex, lines, n,
                         ErrorsUpTo(cfg, matches, stepIgnore, stepIndex, lines, n))
  {
    if n > 0 {
      ErrorsUpToSound(cfg, matches, stepIgnore, stepIndex, lines, n - 1);
      var prev := ErrorsUpTo(cfg, matches, stepIgnore, stepIndex, lines, n - 1);
      var last := ReportsFor(cfg, matches, stepIgnore, stepIndex, n - 1, lines[n - 1]);
      var r := prev + last;
      forall j | 0 <= j < |r|
        ensures 1 <= r[j].line <= n && r[j].step == stepIndex
        ensures ReportsFor(cfg, matches, stepIgnore, stepIndex, r[j].line - 1, lines[r[j].line - 1]) == [r[j]]
      {
        if j < |prev| {
          assert r[j] == prev[j];
        } else {
          assert r[j] == last[0];
        }
      }
    }
  }

  lemma {:induction false} ErrorsUpToLines(cfg: ErrorDetectionConfig, matches: Matcher,
      stepIgnore: seq<string>, stepIndex: int, lines: seq<string>, n: nat)
    requires n <= |lines|
    ensures forall e :: e in ErrorsUpTo(cfg, matches, stepIgnore, stepIndex, lines, n) ==> 1 <= e.line <= n
  {
    if n > 0 {
      ErrorsUpToLines(cfg, matches, stepIgnore, stepIndex, lines, n - 1);
      var prev := ErrorsUpTo(cfg, matches, stepIgnore, stepIndex, lines, n - 1);
      var last := ReportsFor(cfg, matches, stepIgnore, stepIndex, n - 1, lines[n - 1]);
      var r := prev + last;
      forall e: DetectedError | e in r ensures 1 <= e.line <= n {
        if e !in prev {
          assert e == last[0];
        }
      }
    }
  }

  lemma {:induction false} ErrorsUpToOrdered(cfg: ErrorDetectionConfig, matches: Matcher,
      stepIgnore: seq<string>, stepIndex: int, lines: seq<string>, n: nat)
    requires n <= |lines|
    ensures ReportsOrdered(ErrorsUpTo(cfg, matches, stepIgnore, stepIndex, lines, n))
  {
    if n > 0 {
      ErrorsUpToOrdered(cfg, matches, stepIgnore, stepIndex, lines, n - 1);
      ErrorsUpToLines(cfg, matches, stepIgnore, stepIndex, lines, n - 1);
      var prev := ErrorsUpTo(cfg, matches, stepIgnore, stepIndex, lines, n - 1);
      var last := ReportsFor(cfg, matches, stepIgnore, stepIndex, n - 1, lines[n - 1]);
      var r := prev + last;
      forall i, j | 0 <= i < j < |r| ensures r[i].line < r[j].line {
        assert |last| <= 1 && i < |prev|;
        assert r[i] == prev[i];
        if j >= |prev| {
          assert r[j] == last[0];
        } else {
          assert r[j] == prev[j];
        }
      }
    }
  }

  lemma {:induction false} ErrorsUpToComplete(cfg: ErrorDetectionConfig, matches: Matcher,
      stepIgnore: seq<string>, stepIndex: int, lines: seq<string>, n: nat)
    requires n <= |lines|
    ensures ReportsComplete(cfg, matches, stepIgnore, lines, n,
                            ErrorsUpTo(cfg, matches, stepIgnore, stepIndex, lines, n))
  {
    if n > 0 {
      ErrorsUpToComplete(cfg, matches, stepIgnore, stepIndex, lines, n - 1);
      var prev := ErrorsUpTo(cfg, matches, stepIgnore, stepIndex, lines, n - 1);
      var last := ReportsFor(cfg, matches, stepIgnore, stepIndex, n - 1, lines[n - 1]);
      var r := prev + last;
      forall m | 0 <= m < n && LineVerdict(cfg, matches, stepIgnore, lines[m]).Some?
        ensures exists j :: 0 <= j < |r| && r[j].line == m + 1
      {
        if m < n - 1 {
          var j :| 0 <= j < |prev| && prev[j].line == m + 1;
          assert r[j] == prev[j];
        } else {
          assert r[|prev|] == last[0];
        }
      }
    }
  }

  /** Nothing is reported when detection is off or the step expects an
      error; otherwise the reports are sound, ordered and complete for the
      lines of the output. */
  lemma DetectErrorsCharacterised(cfg: ErrorDetectionConfig, matches: Matcher, output: string,
                                  stepIgnore: seq<string>, expectError: bool, stepIndex: int)
    ensures cfg.mode == "off" || expectError ==>
              DetectErrors(cfg, matches, output, stepIgnore, expectError, stepIndex) == []
    ensures cfg.mode != "off" && !expectError ==>
              var lines := Split(output, '\n');
              var r := DetectErrors(cfg, matches, output, stepIgnore, expectError, stepIndex);
              && ReportsSound(cfg, matches, stepIgnore, stepIndex, lines, |lines|, r)
              && ReportsOrdered(r)
              && ReportsComplete(cfg, matches, stepIgnore, lines, |lines|, r)
  {
    var lines := Split(output, '\n');
    ErrorsUpToSound(cfg, matches, stepIgnore, stepIndex, lines, |lines|);
    ErrorsUpToOrdered(cfg, matches, stepIgnore, stepIndex, lines, |lines|);
    ErrorsUpToComplete(cfg, matches, stepIgnore, stepIndex, lines, |lines|);
  }

  /** The pattern loop for one line that is neither blank nor ignored:
      every pattern is tried in order; in smart mode a match on a safe line
      moves on to the next pattern; the first other match is reported. */
  method ScanPatterns(cfg: ErrorDetectionConfig, matches: Matcher, line: string)
    returns (found: Option<nat>)
    ensures found == if SafeLine(cfg, matches, line) then None else FirstMatch(matches, cfg.patterns, line)
  {
    found := None;
    var i := 0;
    while i < |cfg.patterns|
      invariant i <= |cfg.patterns|
      invariant forall j :: 0 <= j < i ==> !matches(cfg.patterns[j], line) || SafeLine(cfg, matches, line)
    {
      if matches(cfg.patterns[i], line) {
        if cfg.mode == "smart" {
          var isSafe := AnyMatches(matches, cfg.safeContexts, line);
          if isSafe {
            i := i + 1;
            continue;
          }
        }
        found := Some(i);
        return;
      }
      i := i + 1;
    }
  }

  /** The detector as the source runs it: one pass over the lines, skipping
      blank and ignored ones, with at most one report per line. */
  method CheckForErrors(cfg: ErrorDetectionConfig, matches: Matcher, output: string,
                        stepIgnore: seq<string>, expectError: bool, stepIndex: int)
    returns (errors: seq<DetectedError>)
    ensures errors == DetectErrors(cfg, matches, output, stepIgnore, expectError, stepIndex)
  {
    if cfg.mode == "off" {
      return [];
    }
    if expectError {
      return [];
    }
    errors := [];
    var lines := Split(output, '\n');
    var allIgnore := cfg.ignorePatterns + stepIgnore;
    var n := 0;
    while n < |lines|
      invariant n <= |lines|
      invariant errors == ErrorsUpTo(cfg, matches, stepIgnore, stepIndex, lines, n)
    {
      var line := lines[n];
      ghost var next := ErrorsUpTo(cfg, matches, stepIgnore, stepIndex, lines, n + 1);
      assert next == errors + ReportsFor(cfg, matches, stepIgnore, stepIndex, n, line);
      if IsBlank(line) {
        n := n + 1;
        continue;
      }
      if AnyMatches(matches, allIgnore, line) {
        n := n + 1;
        continue;
      }
      var found := ScanPatterns(cfg, matches, line);
      assert found == LineVerdict(cfg, matches, stepIgnore, line);
      if found.Some? {
        errors := errors + [Report(cfg, stepIndex, n, found.value, line)];
      }
      n := n + 1;
    }
  }
}

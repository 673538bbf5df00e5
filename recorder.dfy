/** `TerminalRecorder` (scripts/terminal_demo.py) as a class whose fields
    are the recorder's lists, variables and working directory; each method
    is proved to change them as the matching function of `RecorderSpec`
    says. */
module Recorder {
  import opened Wrappers
  import opened Text
  import opened DemoScript
  import opened Interpolation
  import opened PathValidation
  import ErrorDetection
  import opened RecorderSpec
  import opened Json
  import opened CastOutput

  /** The invariant of the step loop of `record`: the outcomes so far,
      followed by what the remaining steps give, are the whole loop's. */
  ghost predicate StepLoop(st: Rec, ctx: Ctx, steps: seq<Step>, i: nat, outcomes: seq<bool>,
                           target: (Rec, seq<bool>))
  {
    i <= |steps| &&
    RunSteps(st, ctx, steps, i).0 == target.0 &&
    outcomes + RunSteps(st, ctx, steps, i).1 == target.1
  }

  /** One iteration of the step loop: after a failure in assert-only mode
      the loop's result has been reached, otherwise the invariant holds for
      the next step. */
  lemma StepLoopNext(st: Rec, ctx: Ctx, steps: seq<Step>, i: nat, outcomes: seq<bool>,
                     target: (Rec, seq<bool>), st1: Rec, ok: bool)
    requires i < |steps| && StepLoop(st, ctx, steps, i, outcomes, target)
    requires (st1, ok) == RunStepSpec(st, ctx, steps[i], i)
    ensures !ok && ctx.assertOnly ==> st1 == target.0 && outcomes + [ok] == target.1
    ensures ok || !ctx.assertOnly ==> StepLoop(st1, ctx, steps, i + 1, outcomes + [ok], target)
  {
    if ok || !ctx.assertOnly {
      var rest := RunSteps(st1, ctx, steps, i + 1);
      assert RunSteps(st, ctx, steps, i) == (rest.0, [ok] + rest.1);
      assert outcomes + ([ok] + rest.1) == (outcomes + [ok]) + rest.1;
    } else {
      assert RunSteps(st, ctx, steps, i) == (st1, [false]);
    }
  }

  lemma StepLoopEnd(st: Rec, ctx: Ctx, steps: seq<Step>, i: nat, outcomes: seq<bool>,
                    target: (Rec, seq<bool>))
    requires StepLoop(st, ctx, steps, i, outcomes, target) && i == |steps|
    ensures st == target.0 && outcomes == target.1
  {
  }

  lemma RecordSpecUnfold(st: Rec, ctx: Ctx, steps: seq<Step>, st1: Rec)
    requires st1 == if !ctx.dryRun then RecorderSpec.AddOutput(st, ctx.host, PROMPT) else st
    ensures RecordSpec(st, ctx, steps).0 == RunSteps(st1, ctx, steps, 0).0
    ensures RecordSpec(st, ctx, steps).1 ==
      (AllTrue(RunSteps(st1, ctx, steps, 0).1) && |RunSteps(st1, ctx, steps, 0).0.errors| == 0)
  {
  }

  lemma AllTrueAppend(outcomes: seq<bool>, ok: bool)
    ensures AllTrue(outcomes + [ok]) == (AllTrue(outcomes) && ok)
  {
    if AllTrue(outcomes) && ok {
      forall k | 0 <= k < |outcomes + [ok]|
        ensures (outcomes + [ok])[k]
      {
        if k < |outcomes| {
          assert (outcomes + [ok])[k] == outcomes[k];
        }
      }
    }
    if AllTrue(outcomes + [ok]) {
      forall k | 0 <= k < |outcomes|
        ensures outcomes[k]
      {
        assert (outcomes + [ok])[k] == outcomes[k];
      }
      assert (outcomes + [ok])[|outcomes|] == ok;
    }
  }

  class TerminalRecorder {
    const settings: Settings
    const host: Host
    var events: seq<CastEvent>
    var sections: seq<Section>
    var narrations: seq<NarrationEntry>
    var detectedErrors: seq<ErrorDetection.DetectedError>
    var variables: map<string, string>
    var currentCwd: string
    var metadata: Metadata
    var dryRun: bool
    var assertOnly: bool
    var stepStartTime: nat
    /** How many times the clock has been read. */
    var clockReads: nat

    function Model(): Rec
      reads this
    {
      Rec(events, sections, narrations, detectedErrors, variables, currentCwd, clockReads)
    }

    function Context(): Ctx
      reads this
    {
      Ctx(host, settings, dryRun, assertOnly)
    }

    constructor (settings: Settings, host: Host)
      ensures Model() == InitialRec(settings, host.processCwd)
      ensures this.settings == settings && this.host == host && !dryRun && !assertOnly
      ensures metadata == Metadata(None, None, None, None, None, None)
    {
      this.settings := settings;
      this.host := host;
      events := [];
      sections := [];
      narrations := [];
      detectedErrors := [];
      variables := map[];
      currentCwd := OrElse(settings.cwd, host.processCwd);
      metadata := Metadata(None, None, None, None, None, None);
      dryRun := false;
      assertOnly := false;
      stepStartTime := 0;
      clockReads := 0;
    }

    method Interpolate(text: string) returns (r: string)
      ensures r == Interp(Model(), host, text)
    {
      r := Interpolation.Interpolate(text, variables, host.environ);
    }

    /** `validate_path` against the current directory. */
    method ValidatePath(path: string, baseDir: Option<string>) returns (r: Result<string, string>)
      ensures r == PathValidation.ValidatePath(path, baseDir, currentCwd, host.processCwd)
    {
      r := PathValidation.ValidatePath(path, baseDir, currentCwd, host.processCwd);
    }

    method GetTimestamp() returns (t: nat)
      modifies this
      ensures t == host.clock(old(clockReads))
      ensures Model() == Tick(old(Model()))
      ensures Context() == old(Context()) && metadata == old(metadata)
    {
      t := host.clock(clockReads);
      clockReads := clockReads + 1;
    }

    method AddOutput(data: string)
      modifies this
      ensures Model() == RecorderSpec.AddOutput(old(Model()), host, data)
      ensures Context() == old(Context()) && metadata == old(metadata)
    {
      var t := GetTimestamp();
      events := events + [CastEvent(t, Output, data)];
    }

    method AddInput(data: string)
      modifies this
      ensures Model() == RecorderSpec.AddInput(old(Model()), host, data)
      ensures Context() == old(Context()) && metadata == old(metadata)
    {
      var t := GetTimestamp();
      events := events + [CastEvent(t, Input, data)];
    }

    method AddNarration(text: string, stepIndex: int, position: string)
      modifies this
      ensures Model() == RecorderSpec.AddNarration(old(Model()), host, text, stepIndex, position)
      ensures Context() == old(Context()) && metadata == old(metadata)
    {
      var start := GetTimestamp();
      narrations := narrations + [NarrationEntry(start, start + NARRATION_DURATION, text, stepIndex, position)];
    }

    /** `type_text`: one output event per character. */
    method TypeText(text: string)
      modifies this
      ensures Model() == RecorderSpec.TypeText(old(Model()), host, text)
      ensures Context() == old(Context()) && metadata == old(metadata)
    {
      var i := 0;
      while i < |text|
        invariant i <= |text|
        invariant Model() == RecorderSpec.TypeText(old(Model()), host, text[..i])
        invariant Context() == old(Context()) && metadata == old(metadata)
      {
        AddOutput([text[i]]);
        assert TypedEvents(host, old(clockReads), text[..i + 1])
            == TypedEvents(host, old(clockReads), text[..i]) + [CastEvent(host.clock(old(clockReads) + i), Output, [text[i]])];
        i := i + 1;
      }
      assert text[..i] == text;
    }

    /** `execute_command`: a captured run in dry-run and assert-only mode;
        otherwise every non-empty chunk read from the terminal is added to
        the output and recorded as an output event. */
    method ExecuteCommand(command: string, cwd: Option<string>) returns (output: string, exitCode: int)
      modifies this
      ensures (Model(), output, exitCode) == RecorderSpec.ExecuteCommand(old(Model()), old(Context()), command, cwd)
      ensures Context() == old(Context()) && metadata == old(metadata)
    {
      var workDir := OrElse(cwd, currentCwd);
      if dryRun || assertOnly {
        var result := host.pipe(command, workDir, host.environ + settings.env);
        return result.stdout + result.stderr, result.exitCode;
      }
      var run := host.pty(command, workDir, (host.environ + settings.env)["TERM" := DEFAULT_TERM]);
      output := "";
      var i := 0;
      while i < |run.chunks|
        invariant i <= |run.chunks|
        invariant AppendChunks(Model(), host, run.chunks[i..]) == AppendChunks(old(Model()), host, run.chunks)
        invariant output == Concat(run.chunks[..i])
        invariant Context() == old(Context()) && metadata == old(metadata)
      {
        var data := run.chunks[i];
        ConcatAppend(run.chunks[..i], data);
        assert run.chunks[..i + 1] == run.chunks[..i] + [data];
        assert run.chunks[i..][1..] == run.chunks[i + 1..];
        if data != "" {
          output := output + data;
          AddOutput(data);
        }
        i := i + 1;
      }
      assert run.chunks[..i] == run.chunks;
      exitCode := run.exitCode;
    }

    method CheckForErrors(output: string, step: Step, stepIndex: int)
      returns (errors: seq<ErrorDetection.DetectedError>)
      ensures errors == ErrorDetection.DetectErrors(settings.errorDetection, host.matches, output,
                                                     step.ignoreErrorPatterns, step.expectError, stepIndex)
    {
      errors := ErrorDetection.CheckForErrors(settings.errorDetection, host.matches, output,
                                              step.ignoreErrorPatterns, step.expectError, stepIndex);
    }

    /** The start of `run_step`: the step start time, then the "before"
        narration. */
    method BeginStep(step: Step, stepIndex: int)
      modifies this
      ensures Model() == RecorderSpec.BeginStep(old(Model()), host, step, stepIndex)
      ensures Context() == old(Context()) && metadata == old(metadata)
    {
      stepStartTime := GetTimestamp();
      if HasNarration(step, "before") {
        AddNarration(step.narration.value["before"], stepIndex, "before");
      }
    }

    /** A step's `cwd`, interpolated and validated; the current directory
        when validation fails. */
    method ResolveStepCwd(step: Step) returns (c: Option<string>)
      ensures c == StepCwd(Model(), host, step)
    {
      c := None;
      if Truthy(step.cwd) {
        var resolved := Interpolate(step.cwd.value);
        var checked := ValidatePath(resolved, None);
        match checked {
          case Success(p) => c := Some(p);
          case Failure(_) => c := Some(currentCwd);
        }
      }
    }

    method RunCommand(step: Step, stepIndex: int, stepCwd: Option<string>) returns (ok: bool)
      requires stepCwd == StepCwd(Model(), host, step)
      modifies this
      ensures (Model(), ok) == RunCommandStep(old(Model()), old(Context()), step, stepIndex)
      ensures Context() == old(Context()) && metadata == old(metadata)
    {
      var content := Interpolate(step.content.GetOr(""));
      TypeText(content);
      AddOutput("\n");
      var output, returnCode := ExecuteCommand(content, stepCwd);
      var errors := CheckForErrors(output, step, stepIndex);
      detectedErrors := detectedErrors + errors;
      if HasNarration(step, "after") {
        AddNarration(step.narration.value["after"], stepIndex, "after");
      }
      AddOutput(NEXT_PROMPT);
      ok := returnCode == 0 || step.expectError;
    }

    method Section(step: Step)
      modifies this
      ensures Model() == SectionStep(old(Model()), host, step)
      ensures Context() == old(Context()) && metadata == old(metadata)
    {
      var t := GetTimestamp();
      sections := sections + [RecorderSpec.Section(OrElse(step.name, "Untitled"), t)];
      if Truthy(step.content) {
        var text := Interpolate(step.content.value);
        AddOutput("\n# " + text + "\n");
      }
    }

    method SetVariable(step: Step)
      modifies this
      ensures Model() == SetStep(old(Model()), host, step)
      ensures Context() == old(Context()) && metadata == old(metadata)
    {
      if Truthy(step.name) && Truthy(step.content) {
        var value := Interpolate(step.content.value);
        variables := variables[step.name.value := value];
      }
    }

    method ChangeDirectory(step: Step)
      modifies this
      ensures Model() == CdStep(old(Model()), host, step)
      ensures Context() == old(Context()) && metadata == old(metadata)
    {
      var newDir := Interpolate(step.content.GetOr(""));
      var checked := ValidatePath(newDir, None);
      if checked.Success? {
        currentCwd := checked.value;
      }
      TypeText("cd " + PyStr(step.content));
      AddOutput(NEXT_PROMPT);
    }

    /** `run_step`. */
    method RunStep(step: Step, stepIndex: int) returns (ok: bool)
      modifies this
      ensures (Model(), ok) == RunStepSpec(old(Model()), old(Context()), step, stepIndex)
      ensures Context() == old(Context()) && metadata == old(metadata)
      decreases StepSize(step), 2
    {
      BeginStep(step, stepIndex);
      var stepCwd := ResolveStepCwd(step);
      var action := step.action;
      ok := true;
      if action == "type" {
        var content := Interpolate(step.content.GetOr(""));
        TypeText(content);
      } else if action == "execute" {
        AddOutput("\n");
      } else if action == "run" {
        ok := RunCommand(step, stepIndex, stepCwd);
      } else if action == "pause" {
      } else if action == "clear" {
        AddOutput(CLEAR_SCREEN);
      } else if action == "section" {
        Section(step);
      } else if action == "screenshot" {
        AddOutput("\n[SCREENSHOT: " + ScreenshotMarker(step, stepIndex) + "]\n");
      } else if action == "comment" {
        var content := Interpolate(step.content.GetOr(""));
        AddOutput("\n# " + content + "\n");
      } else if action == "foreach" {
        ok := Foreach(step.items.GetOr([]), step.template.StepsOrEmpty(), stepIndex);
      } else if action == "set" {
        SetVariable(step);
      } else if action == "cd" {
        ChangeDirectory(step);
      }
    }

    /** The "foreach" action: every template step for every item, stopping
        at the first failure. */
    method Foreach(items: seq<string>, template: seq<RawStep>, stepIndex: int) returns (ok: bool)
      modifies this
      ensures (Model(), ok) == ForeachItems(old(Model()), old(Context()), items, template, stepIndex)
      ensures Context() == old(Context()) && metadata == old(metadata)
      decreases TemplateSize(template), 1
    {
      ghost var target := ForeachItems(Model(), Context(), items, template, stepIndex);
      var k := 0;
      while k < |items|
        invariant k <= |items|
        invariant ForeachItems(Model(), old(Context()), items[k..], template, stepIndex) == target
        invariant Context() == old(Context()) && metadata == old(metadata)
      {
        assert items[k..][0] == items[k] && items[k..][1..] == items[k + 1..];
        variables := variables["item" := items[k]];
        var j := 0;
        while j < |template|
          invariant j <= |template|
          invariant ForeachRest(Model(), old(Context()), template[j..], items[k + 1..], template, stepIndex) == target
          invariant Context() == old(Context()) && metadata == old(metadata)
        {
          assert template[j..][0] == template[j] && template[j..][1..] == template[j + 1..];
          TemplateStepSmaller(template, j);
          var stepOk := RunStep(ParseStep(template[j]), stepIndex);
          if !stepOk {
            return false;
          }
          j := j + 1;
        }
        k := k + 1;
      }
      ok := true;
    }

    /** `record`: the initial prompt unless dry-running, then every step in
        order; in assert-only mode the first failing step ends the run. */
    method Record(steps: seq<Step>) returns (ok: bool)
      modifies this
      ensures (Model(), ok) == RecordSpec(old(Model()), old(Context()), steps)
      ensures Context() == old(Context()) && metadata == old(metadata)
    {
      ghost var start := Model();
      ghost var ctx := Context();
      if !dryRun {
        AddOutput(PROMPT);
      }
      ghost var target := RunSteps(Model(), ctx, steps, 0);
      RecordSpecUnfold(start, ctx, steps, Model());
      ghost var outcomes: seq<bool> := [];
      var success := true;
      var i := 0;
      while i < |steps|
        invariant i <= |steps|
        invariant StepLoop(Model(), ctx, steps, i, outcomes, target)
        invariant success == AllTrue(outcomes)
        invariant Context() == ctx && metadata == old(metadata)
      {
        ghost var before := Model();
        ghost var outcomesBefore := outcomes;
        var stepOk := RunStep(steps[i], i);
        AllTrueAppend(outcomes, stepOk);
        outcomes := outcomes + [stepOk];
        StepLoopNext(before, ctx, steps, i, outcomesBefore, target, Model(), stepOk);
        if !stepOk {
          success := false;
          if assertOnly {
            break;
          }
        }
        i := i + 1;
      }
      if i == |steps| {
        StepLoopEnd(Model(), ctx, steps, i, outcomes, target);
      }
      ok := success && |detectedErrors| == 0;
    }

    /** `to_cast`; `timestamp` is the current wall-clock time in seconds. */
    method ToCast(timestamp: int) returns (c: Cast)
      ensures c == CastOutput.ToCast(Model(), settings, metadata, timestamp)
    {
      var header := CastHeader(settings, metadata, sections, timestamp);
      var evs: seq<Json> := [];
      var i := 0;
      while i < |events|
        invariant i <= |events|
        invariant |evs| == i && forall k :: 0 <= k < i ==> evs[k] == EventJson(events[k])
      {
        evs := evs + [EventJson(events[i])];
        i := i + 1;
      }
      c := Cast(header, evs);
      assert c.events == CastOutput.ToCast(Model(), settings, metadata, timestamp).events;
    }

    /** `write_cast`: the text written to the cast file. */
    method WriteCast(timestamp: int, dumps: Json -> string) returns (content: string)
      ensures content == CastFile(CastOutput.ToCast(Model(), settings, metadata, timestamp), dumps)
    {
      var cast := ToCast(timestamp);
      content := dumps(cast.header) + "\n";
      var i := 0;
      while i < |cast.events|
        invariant i <= |cast.events|
        invariant content == ConcatLines([dumps(cast.header)] + DumpAll(cast.events[..i], dumps))
      {
        ConcatLinesAppend([dumps(cast.header)] + DumpAll(cast.events[..i], dumps), dumps(cast.events[i]));
        assert [dumps(cast.header)] + DumpAll(cast.events[..i + 1], dumps)
            == [dumps(cast.header)] + DumpAll(cast.events[..i], dumps) + [dumps(cast.events[i])];
        content := content + dumps(cast.events[i]) + "\n";
        i := i + 1;
      }
      assert cast.events[..i] == cast.events;
    }

    /** The cues of the narration entries, numbered from 1. */
    method WriteCues(sep: char) returns (content: string)
      ensures content == Concat(CueList(narrations, sep, 1))
    {
      content := "";
      NoCues(narrations, sep);
      var i := 0;
      while i < |narrations|
        invariant i <= |narrations|
        invariant content == Concat(CueList(narrations[..i], sep, 1))
      {
        var entry := narrations[i];
        var start := FormatTime(entry.startTime, sep);
        var end := FormatTime(entry.endTime, sep);
        CueStep(narrations, i, sep, content);
        content := content + (NatToString(i + 1) + "\n" + (start + " --> " + end) + "\n" + entry.text + "\n\n");
        i := i + 1;
      }
      CuesDone(narrations, sep, content);
    }

    /** `write_narration_srt` */
    method WriteNarrationSrt() returns (content: string)
      ensures content == SrtText(narrations)
    {
      content := WriteCues(',');
    }

    /** `write_narration_vtt` */
    method WriteNarrationVtt() returns (content: string)
      ensures content == VttText(narrations)
    {
      var cues := WriteCues('.');
      content := "WEBVTT\n\n" + cues;
    }
  }
}

/** What `TerminalRecorder` (scripts/terminal_demo.py) does to its state,
    written as functions over a snapshot of that state. The clock, the
    regular-expression engine, the process environment and the two ways of
    running a command are parameters (`Host`). Times are whole milliseconds
    since `record` started; the k-th reading of the clock is `clock(k)`, and
    the state counts how many readings have been taken. */
module RecorderSpec {
  import opened Wrappers
  import opened Text
  import opened DemoScript
  import opened Interpolation
  import opened PathValidation
  import opened ErrorDetection

  datatype EventType = Output | Input

  datatype CastEvent = CastEvent(time: nat, eventType: EventType, data: string)

  datatype Section = Section(name: string, time: nat)

  datatype NarrationEntry = NarrationEntry(
    startTime: nat, endTime: nat, text: string, stepIndex: int, position: string)

  /** A narration cue lasts 3 seconds. */
  const NARRATION_DURATION: nat := 3000

  const CLEAR_SCREEN: string := "\U{1B}[2J\U{1B}[H"
  const PROMPT: string := "$ "
  const NEXT_PROMPT: string := "\n$ "

  /** The result of running a command on a pseudo-terminal: the chunks read
      from it, in order, and the exit code. */
  datatype PtyRun = PtyRun(chunks: seq<string>, exitCode: int)

  /** The result of `subprocess.run` with captured output. */
  datatype PipeRun = PipeRun(stdout: string, stderr: string, exitCode: int)

  type Environment = map<string, string>

  datatype Host = Host(
    environ: Environment,
    processCwd: string,
    clock: nat -> nat,
    matches: Matcher,
    pty: (string, string, Environment) -> PtyRun,
    pipe: (string, string, Environment) -> PipeRun)

  /** The recorder's fixed configuration for one recording. */
  datatype Ctx = Ctx(host: Host, settings: Settings, dryRun: bool, assertOnly: bool)

  /** The recorder's mutable state. */
  datatype Rec = Rec(
    events: seq<CastEvent>,
    sections: seq<Section>,
    narrations: seq<NarrationEntry>,
    errors: seq<DetectedError>,
    variables: map<string, string>,
    cwd: string,
    clockReads: nat)

  /** `s or default` */
  function OrElse(s: Option<string>, default: string): string
  {
    if Truthy(s) then s.value else default
  }

  /** `str(s)` of an optional string. */
  function PyStr(s: Option<string>): string
  {
    if s.Some? then s.value else "None"
  }

  /** A freshly constructed recorder. */
  function InitialRec(settings: Settings, processCwd: string): Rec
  {
    Rec([], [], [], [], map[], OrElse(settings.cwd, processCwd), 0)
  }

  function Interp(st: Rec, h: Host, text: string): string
  {
    Interpolate(text, st.variables, h.environ)
  }

  /** A clock reading whose value is not kept (`_step_start_time`). */
  function Tick(st: Rec): Rec
  {
    st.(clockReads := st.clockReads + 1)
  }

  function AddEvent(st: Rec, h: Host, kind: EventType, data: string): Rec
  {
    st.(events := st.events + [CastEvent(h.clock(st.clockReads), kind, data)], clockReads := st.clockReads + 1)
  }

  function AddOutput(st: Rec, h: Host, data: string): Rec
  {
    AddEvent(st, h, Output, data)
  }

  function AddInput(st: Rec, h: Host, data: string): Rec
  {
    AddEvent(st, h, Input, data)
  }

  function AddNarration(st: Rec, h: Host, text: string, stepIndex: int, position: string): Rec
  {
    var start := h.clock(st.clockReads);
    st.(narrations := st.narrations + [NarrationEntry(start, start + NARRATION_DURATION, text, stepIndex, position)],
        clockReads := st.clockReads + 1)
  }

  /** The events `type_text` appends when the clock has been read `from`
      times: one output event per character, in order. */
  function TypedEvents(h: Host, from: nat, text: string): seq<CastEvent>
  {
    seq(|text|, k requires 0 <= k < |text| => CastEvent(h.clock(from + k), Output, [text[k]]))
  }

  function TypeText(st: Rec, h: Host, text: string): Rec
  {
    st.(events := st.events + TypedEvents(h, st.clockReads, text), clockReads := st.clockReads + |text|)
  }

  /** The chunk loop of `execute_command`: each non-empty chunk becomes one
      output event. */
  function AppendChunks(st: Rec, h: Host, chunks: seq<string>): Rec
    decreases |chunks|
  {
    if chunks == [] then st
    else AppendChunks(if chunks[0] == "" then st else AddOutput(st, h, chunks[0]), h, chunks[1..])
  }

  /** The data of a run of events, concatenated. */
  function EventsText(evs: seq<CastEvent>): string
  {
    if evs == [] then "" else evs[0].data + EventsText(evs[1..])
  }

  predicate AllOutput(evs: seq<CastEvent>)
  {
    forall i :: 0 <= i < |evs| ==> evs[i].eventType == Output
  }

  /** The environment a command runs with: the process environment
      overridden by the script's `env`. */
  function CommandEnv(ctx: Ctx): Environment
  {
    ctx.host.environ + ctx.settings.env
  }

  function WorkDir(st: Rec, cwd: Option<string>): string
  {
    OrElse(cwd, st.cwd)
  }

  /** The captured output of a command: stdout then stderr in dry-run and
      assert-only mode, otherwise everything read from the terminal. */
  function CommandOutput(ctx: Ctx, command: string, workDir: string): string
  {
    if ctx.dryRun || ctx.assertOnly then
      var r := ctx.host.pipe(command, workDir, CommandEnv(ctx));
      r.stdout + r.stderr
    else
      Concat(ctx.host.pty(command, workDir, CommandEnv(ctx)["TERM" := DEFAULT_TERM]).chunks)
  }

  function CommandExitCode(ctx: Ctx, command: string, workDir: string): int
  {
    if ctx.dryRun || ctx.assertOnly then ctx.host.pipe(command, workDir, CommandEnv(ctx)).exitCode
    else ctx.host.pty(command, workDir, CommandEnv(ctx)["TERM" := DEFAULT_TERM]).exitCode
  }

  /** `execute_command`: the new state, the output and the exit code. Only
      a recording run appends events, one per chunk read. */
  function ExecuteCommand(st: Rec, ctx: Ctx, command: string, cwd: Option<string>): (Rec, string, int)
  {
    var workDir := WorkDir(st, cwd);
    if ctx.dryRun || ctx.assertOnly then
      (st, CommandOutput(ctx, command, workDir), CommandExitCode(ctx, command, workDir))
    else
      var run := ctx.host.pty(command, workDir, CommandEnv(ctx)["TERM" := DEFAULT_TERM]);
      (AppendChunks(st, ctx.host, run.chunks), CommandOutput(ctx, command, workDir), run.exitCode)
  }

  predicate HasNarration(step: Step, position: string)
  {
    step.narration.Some? && position in step.narration.value
  }

  /** The start of every step: the clock is read for the step start time,
      and a "before" narration is added when there is one. */
  function BeginStep(st: Rec, h: Host, step: Step, stepIndex: int): Rec
  {
    var st0 := Tick(st);
    if HasNarration(step, "before") then
      AddNarration(st0, h, step.narration.value["before"], stepIndex, "before")
    else st0
  }

  /** The directory a step's commands run in: its `cwd`, interpolated and
      validated, falling back to the current directory when validation
      fails; None when the step has no `cwd`. */
  function StepCwd(st: Rec, h: Host, step: Step): Option<string>
  {
    if Truthy(step.cwd) then
      match ValidatePath(Interp(st, h, step.cwd.value), None, st.cwd, h.processCwd)
      case Success(p) => Some(p)
      case Failure(_) => Some(st.cwd)
    else None
  }

  /** The "run" action: type the command, a newline, run it, record the
      errors found in its output, the "after" narration, and a new prompt. */
  function RunCommandStep(st: Rec, ctx: Ctx, step: Step, stepIndex: int): (Rec, bool)
  {
    var h := ctx.host;
    var command := Interp(st, h, step.content.GetOr(""));
    var st1 := AddOutput(TypeText(st, h, command), h, "\n");
    var (st2, output, exitCode) := ExecuteCommand(st1, ctx, command, StepCwd(st, h, step));
    var found := DetectErrors(ctx.settings.errorDetection, h.matches, output,
                              step.ignoreErrorPatterns, step.expectError, stepIndex);
    var st3 := st2.(errors := st2.errors + found);
    var st4 := if HasNarration(step, "after") then
                 AddNarration(st3, h, step.narration.value["after"], stepIndex, "after")
               else st3;
    (AddOutput(st4, h, NEXT_PROMPT), exitCode == 0 || step.expectError)
  }

  /** The "section" action. */
  function SectionStep(st: Rec, h: Host, step: Step): Rec
  {
    var st1 := st.(sections := st.sections + [Section(OrElse(step.name, "Untitled"), h.clock(st.clockReads))],
                   clockReads := st.clockReads + 1);
    if Truthy(step.content) then AddOutput(st1, h, "\n# " + Interp(st1, h, step.content.value) + "\n")
    else st1
  }

  /** The "set" action: binds only when both name and content are set. */
  function SetStep(st: Rec, h: Host, step: Step): Rec
  {
    if Truthy(step.name) && Truthy(step.content) then
      st.(variables := st.variables[step.name.value := Interp(st, h, step.content.value)])
    else st
  }

  /** The "cd" action: the directory changes only when it validates; the
      raw `content` is typed in any case. */
  function CdStep(st: Rec, h: Host, step: Step): Rec
  {
    var newDir := Interp(st, h, step.content.GetOr(""));
    var st1 := match ValidatePath(newDir, None, st.cwd, h.processCwd)
               case Success(p) => st.(cwd := p)
               case Failure(_) => st;
    AddOutput(TypeText(st1, h, "cd " + PyStr(step.content)), h, NEXT_PROMPT)
  }

  function ScreenshotMarker(step: Step, stepIndex: int): string
  {
    OrElse(step.name, "screenshot_" + IntToString(stepIndex))
  }

  /** `run_step`: the new state and whether the step succeeded. */
  function RunStepSpec(st: Rec, ctx: Ctx, step: Step, stepIndex: int): (Rec, bool)
    decreases StepSize(step), 3, 0
  {
    RunAction(BeginStep(st, ctx.host, step, stepIndex), ctx, step, stepIndex)
  }

  /** What `run_step` does for each action, after the "before" narration;
      an unknown action does nothing and succeeds. */
  function RunAction(st: Rec, ctx: Ctx, step: Step, stepIndex: int): (Rec, bool)
    decreases StepSize(step), 2, 0
  {
    var h := ctx.host;
    var action := step.action;
    if action == "type" then (TypeText(st, h, Interp(st, h, step.content.GetOr(""))), true)
    else if action == "execute" then (AddOutput(st, h, "\n"), true)
    else if action == "run" then RunCommandStep(st, ctx, step, stepIndex)
    else if action == "pause" then (st, true)
    else if action == "clear" then (AddOutput(st, h, CLEAR_SCREEN), true)
    else if action == "section" then (SectionStep(st, h, step), true)
    else if action == "screenshot" then
      (AddOutput(st, h, "\n[SCREENSHOT: " + ScreenshotMarker(step, stepIndex) + "]\n"), true)
    else if action == "comment" then
      (AddOutput(st, h, "\n# " + Interp(st, h, step.content.GetOr("")) + "\n"), true)
    else if action == "foreach" then
      ForeachItems(st, ctx, step.items.GetOr([]), step.template.StepsOrEmpty(), stepIndex)
    else if action == "set" then (SetStep(st, h, step), true)
    else if action == "cd" then (CdStep(st, h, step), true)
    else (st, true)
  }

  /** The item loop of "foreach": `item` is bound to each element in turn
      and the whole template runs; the first failure ends the step. */
  function ForeachItems(st: Rec, ctx: Ctx, items: seq<string>, template: seq<RawStep>,
                        stepIndex: int): (Rec, bool)
    decreases TemplateSize(template), 1, |items|
  {
    if items == [] then (st, true)
    else
      var (st1, ok) := ForeachTemplate(st.(variables := st.variables["item" := items[0]]),
                                       ctx, template, stepIndex);
      if !ok then (st1, false)
      else ForeachItems(st1, ctx, items[1..], template, stepIndex)
  }

  /** The template loop of "foreach": each template step is parsed and run
      under the enclosing step's index. */
  function ForeachTemplate(st: Rec, ctx: Ctx, template: seq<RawStep>, stepIndex: int): (Rec, bool)
    decreases TemplateSize(template), 0, |template|
  {
    if template == [] then (st, true)
    else
      TemplateStepSmaller(template, 0);
      var (st1, ok) := RunStepSpec(st, ctx, ParseStep(template[0]), stepIndex);
      if !ok then (st1, false)
      else ForeachTemplate(st1, ctx, template[1..], stepIndex)
  }

  /** The rest of a "foreach" from the middle of an item: the remaining
      template steps for this item, then the remaining items. */
  function ForeachRest(st: Rec, ctx: Ctx, templateRest: seq<RawStep>, items: seq<string>,
                       template: seq<RawStep>, stepIndex: int): (Rec, bool)
  {
    var (st1, ok) := ForeachTemplate(st, ctx, templateRest, stepIndex);
    if !ok then (st1, false) else ForeachItems(st1, ctx, items, template, stepIndex)
  }

  /** The step loop of `record` from step `i` on: the final state and the
      outcomes of the steps run, in order. A failure ends the loop only in
      assert-only mode. */
  function RunSteps(st: Rec, ctx: Ctx, steps: seq<Step>, i: nat): (Rec, seq<bool>)
    requires i <= |steps|
    decreases |steps| - i
  {
    if i == |steps| then (st, [])
    else
      var (st1, ok) := RunStepSpec(st, ctx, steps[i], i);
      if !ok && ctx.assertOnly then (st1, [false])
      else
        var (st2, rest) := RunSteps(st1, ctx, steps, i + 1);
        (st2, [ok] + rest)
  }

  predicate AllTrue(outcomes: seq<bool>)
  {
    forall k :: 0 <= k < |outcomes| ==> outcomes[k]
  }

  /** `record`: an initial prompt unless dry-running, then the steps; the
      result is whether every step run succeeded and no error was found. */
  function RecordSpec(st: Rec, ctx: Ctx, steps: seq<Step>): (Rec, bool)
  {
    var st1 := if !ctx.dryRun then AddOutput(st, ctx.host, PROMPT) else st;
    var (st2, outcomes) := RunSteps(st1, ctx, steps, 0);
    (st2, AllTrue(outcomes) && |st2.errors| == 0)
  }
}

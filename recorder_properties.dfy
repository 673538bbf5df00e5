/** Properties of the recorder's state changes (scripts/terminal_demo.py):
    what typing and command execution append, what each action of
    `run_step` does, the invariants every step keeps, and the success rule
    of `record`. */
module RecorderProperties {
  import opened Wrappers
  import opened Text
  import opened DemoScript
  import opened Interpolation
  import opened PathValidation
  import opened ErrorDetection
  import opened RecorderSpec

  lemma {:induction false} EventsTextAppend(a: seq<CastEvent>, b: seq<CastEvent>)
    ensures EventsText(a + b) == EventsText(a) + EventsText(b)
  {
    if a != [] {
      EventsTextAppend(a[1..], b);
      assert (a + b)[0] == a[0] && (a + b)[1..] == a[1..] + b;
    } else {
      assert a + b == b;
    }
  }

  /** `type_text` appends exactly one output event per character, in order:
      the events' data spell the text. */
  lemma {:induction false} TypedEventsSpell(h: Host, from: nat, text: string)
    ensures |TypedEvents(h, from, text)| == |text|
    ensures AllOutput(TypedEvents(h, from, text))
    ensures forall k :: 0 <= k < |text| ==> |TypedEvents(h, from, text)[k].data| == 1
    ensures EventsText(TypedEvents(h, from, text)) == text
    decreases |text|
  {
    if text != [] {
      TypedEventsSpell(h, from + 1, text[1..]);
      assert TypedEvents(h, from, text)[1..] == TypedEvents(h, from + 1, text[1..]);
      assert [text[0]] + text[1..] == text;
    }
  }

  /** In a recording run, the events appended while reading the terminal
      carry exactly the output returned, none of them empty. */
  lemma {:induction false} AppendChunksSpec(st: Rec, h: Host, chunks: seq<string>)
    ensures var r := AppendChunks(st, h, chunks);
      && |st.events| <= |r.events| && r.events[..|st.events|] == st.events
      && EventsText(r.events[|st.events|..]) == Concat(chunks)
      && AllOutput(r.events[|st.events|..])
      && (forall i :: |st.events| <= i < |r.events| ==> r.events[i].data != "")
      && r == st.(events := r.events, clockReads := r.clockReads)
      && st.clockReads <= r.clockReads
    decreases |chunks|
  {
    if chunks != [] {
      var st1 := if chunks[0] == "" then st else AddOutput(st, h, chunks[0]);
      AppendChunksSpec(st1, h, chunks[1..]);
      var r := AppendChunks(st, h, chunks);
      assert r == AppendChunks(st1, h, chunks[1..]);
      assert r.events[..|st1.events|] == st1.events;
      assert r.events[..|st.events|] == st1.events[..|st.events|];
      var tail1 := r.events[|st1.events|..];
      if chunks[0] == "" {
        assert Concat(chunks) == Concat(chunks[1..]);
      } else {
        var e := CastEvent(h.clock(st.clockReads), Output, chunks[0]);
        assert r.events[|st.events|..] == [e] + tail1;
        assert EventsText([e] + tail1) == chunks[0] + EventsText(tail1);
      }
    }
  }

  /** `execute_command` returns the oracle's output and exit code; only a
      recording run appends events, and their data is the output. */
  lemma ExecuteCommandSpec(st: Rec, ctx: Ctx, command: string, cwd: Option<string>)
    ensures var (r, output, exitCode) := ExecuteCommand(st, ctx, command, cwd);
      && output == CommandOutput(ctx, command, WorkDir(st, cwd))
      && exitCode == CommandExitCode(ctx, command, WorkDir(st, cwd))
      && (ctx.dryRun || ctx.assertOnly ==> r == st)
      && (!ctx.dryRun && !ctx.assertOnly ==>
            && |st.events| <= |r.events| && r.events[..|st.events|] == st.events
            && EventsText(r.events[|st.events|..]) == output
            && AllOutput(r.events[|st.events|..])
            && r == st.(events := r.events, clockReads := r.clockReads)
            && st.clockReads <= r.clockReads)
  {
    if !ctx.dryRun && !ctx.assertOnly {
      var run := ctx.host.pty(command, WorkDir(st, cwd), CommandEnv(ctx)["TERM" := DEFAULT_TERM]);
      AppendChunksSpec(st, ctx.host, run.chunks);
    }
  }

  /** `r` is `st` with output events appended whose data spell `text`. */
  predicate Appended(st: Rec, r: Rec, text: string)
  {
    && |st.events| <= |r.events| && r.events[..|st.events|] == st.events
    && EventsText(r.events[|st.events|..]) == text
    && AllOutput(r.events[|st.events|..])
  }

  /** The parts of the state that only specific actions touch. */
  predicate SameScriptState(st: Rec, r: Rec)
  {
    r.sections == st.sections && r.errors == st.errors && r.variables == st.variables && r.cwd == st.cwd
  }

  lemma AppendedNothing(st: Rec, r: Rec)
    requires r.events == st.events
    ensures Appended(st, r, "")
  {
    assert r.events[|st.events|..] == [];
  }

  lemma AppendedTrans(a: Rec, b: Rec, c: Rec, x: string, y: string)
    requires Appended(a, b, x) && Appended(b, c, y)
    ensures Appended(a, c, x + y)
  {
    var nb := b.events[|a.events|..];
    var nc := c.events[|b.events|..];
    assert c.events == b.events + nc;
    assert b.events == a.events + nb;
    assert c.events[..|a.events|] == a.events;
    assert c.events[|a.events|..] == nb + nc;
    EventsTextAppend(nb, nc);
  }

  lemma AddOutputAppends(st: Rec, h: Host, data: string)
    ensures Appended(st, AddOutput(st, h, data), data)
  {
    var r := AddOutput(st, h, data);
    assert r.events[|st.events|..] == [CastEvent(h.clock(st.clockReads), Output, data)];
    assert data + "" == data;
  }

  lemma TypeTextAppends(st: Rec, h: Host, text: string)
    ensures Appended(st, TypeText(st, h, text), text)
    ensures |TypeText(st, h, text).events| == |st.events| + |text|
  {
    var r := TypeText(st, h, text);
    assert r.events[|st.events|..] == TypedEvents(h, st.clockReads, text);
    TypedEventsSpell(h, st.clockReads, text);
  }

  /** Starting a step changes no event, section, error, variable or
      directory; at most it adds the "before" narration. */
  lemma BeginStepEffect(st: Rec, h: Host, step: Step, stepIndex: int)
    ensures var r := BeginStep(st, h, step, stepIndex);
      && r.events == st.events && SameScriptState(st, r)
      && r.narrations == st.narrations
           + (if HasNarration(step, "before") then
                [NarrationEntry(h.clock(st.clockReads + 1), h.clock(st.clockReads + 1) + NARRATION_DURATION,
                                step.narration.value["before"], stepIndex, "before")]
              else [])
  {
  }

  /** "type" types the interpolated content, one output event per
      character, and succeeds. */
  lemma TypeStepEffect(st: Rec, ctx: Ctx, step: Step, stepIndex: int)
    requires step.action == "type"
    ensures var (r, ok) := RunStepSpec(st, ctx, step, stepIndex);
      var text := Interp(st, ctx.host, step.content.GetOr(""));
      && ok && SameScriptState(st, r) && Appended(st, r, text)
      && |r.events| == |st.events| + |text|
  {
    var st1 := BeginStep(st, ctx.host, step, stepIndex);
    BeginStepEffect(st, ctx.host, step, stepIndex);
    AppendedNothing(st, st1);
    var text := Interp(st, ctx.host, step.content.GetOr(""));
    TypeTextAppends(st1, ctx.host, text);
    AppendedTrans(st, st1, TypeText(st1, ctx.host, text), "", text);
  }

  /** The interpolated command, and the directory it runs in, of a "run"
      step started in state `st`. */
  function RunCommand(st: Rec, h: Host, step: Step): string
  {
    Interp(st, h, step.content.GetOr(""))
  }

  function RunWorkDir(st: Rec, h: Host, step: Step): string
  {
    WorkDir(st, StepCwd(st, h, step))
  }

  /** "run" succeeds exactly when the command exits with 0 or the step
      expects an error; the errors found in its output are appended; the
      terminal shows the command, a newline, the command's output when
      recording, and always ends with a new prompt. */
  lemma RunStepEffect(st: Rec, ctx: Ctx, step: Step, stepIndex: int)
    requires step.action == "run"
    ensures var (r, ok) := RunStepSpec(st, ctx, step, stepIndex);
      var command := RunCommand(st, ctx.host, step);
      var workDir := RunWorkDir(st, ctx.host, step);
      var output := CommandOutput(ctx, command, workDir);
      && (ok <==> CommandExitCode(ctx, command, workDir) == 0 || step.expectError)
      && r.errors == st.errors + DetectErrors(ctx.settings.errorDetection, ctx.host.matches, output,
                                               step.ignoreErrorPatterns, step.expectError, stepIndex)
      && Appended(st, r, command + "\n" + (if ctx.dryRun || ctx.assertOnly then "" else output) + NEXT_PROMPT)
      && r.events[|r.events| - 1].data == NEXT_PROMPT
      && r.sections == st.sections && r.variables == st.variables && r.cwd == st.cwd
  {
    var st1 := BeginStep(st, ctx.host, step, stepIndex);
    BeginStepEffect(st, ctx.host, step, stepIndex);
    AppendedNothing(st, st1);
    assert RunCommand(st1, ctx.host, step) == RunCommand(st, ctx.host, step);
    assert RunWorkDir(st1, ctx.host, step) == RunWorkDir(st, ctx.host, step);
    var shown := if ctx.dryRun || ctx.assertOnly then ""
                 else CommandOutput(ctx, RunCommand(st, ctx.host, step), RunWorkDir(st, ctx.host, step));
    var text := RunCommand(st, ctx.host, step) + "\n" + shown + NEXT_PROMPT;
    CommandStepEffect(st1, ctx, step, stepIndex);
    var r := RunCommandStep(st1, ctx, step, stepIndex).0;
    AppendedTrans(st, st1, r, "", text);
    assert "" + text == text;
    assert RunStepSpec(st, ctx, step, stepIndex) == RunCommandStep(st1, ctx, step, stepIndex);
  }

  /** The "run" action once the step has begun. */
  lemma CommandStepEffect(st: Rec, ctx: Ctx, step: Step, stepIndex: int)
    ensures var (r, ok) := RunCommandStep(st, ctx, step, stepIndex);
      var command := RunCommand(st, ctx.host, step);
      var workDir := RunWorkDir(st, ctx.host, step);
      var output := CommandOutput(ctx, command, workDir);
      && (ok <==> CommandExitCode(ctx, command, workDir) == 0 || step.expectError)
      && r.errors == st.errors + DetectErrors(ctx.settings.errorDetection, ctx.host.matches, output,
                                               step.ignoreErrorPatterns, step.expectError, stepIndex)
      && Appended(st, r, command + "\n" + (if ctx.dryRun || ctx.assertOnly then "" else output) + NEXT_PROMPT)
      && r.events[|r.events| - 1].data == NEXT_PROMPT
      && r.sections == st.sections && r.variables == st.variables && r.cwd == st.cwd
  {
    var h := ctx.host;
    var command := RunCommand(st, h, step);
    var sb := AddOutput(TypeText(st, h, command), h, "\n");
    TypedLine(st, h, command);
    var (sc, output, exitCode) := ExecuteCommand(sb, ctx, command, StepCwd(st, h, step));
    ExecuteCommandSpec(sb, ctx, command, StepCwd(st, h, step));
    var shown := if ctx.dryRun || ctx.assertOnly then "" else output;
    if ctx.dryRun || ctx.assertOnly {
      AppendedNothing(sb, sc);
    }
    AppendedTrans(st, sb, sc, command + "\n", shown);
    var found := DetectErrors(ctx.settings.errorDetection, h.matches, output,
                              step.ignoreErrorPatterns, step.expectError, stepIndex);
    var sd := sc.(errors := sc.errors + found);
    var se := if HasNarration(step, "after") then
                AddNarration(sd, h, step.narration.value["after"], stepIndex, "after")
              else sd;
    AppendedNothing(sc, se);
    AppendedTrans(st, sc, se, command + "\n" + shown, "");
    var sf := AddOutput(se, h, NEXT_PROMPT);
    AddOutputAppends(se, h, NEXT_PROMPT);
    AppendedTrans(st, se, sf, command + "\n" + shown + "", NEXT_PROMPT);
    assert command + "\n" + shown + "" + NEXT_PROMPT == command + "\n" + shown + NEXT_PROMPT;
  }

  /** Typing a command and the newline after it. */
  lemma TypedLine(st: Rec, h: Host, command: string)
    ensures var r := AddOutput(TypeText(st, h, command), h, "\n");
      && Appended(st, r, command + "\n") && SameScriptState(st, r)
      && r.cwd == st.cwd && r.variables == st.variables
  {
    var sa := TypeText(st, h, command);
    TypeTextAppends(st, h, command);
    AddOutputAppends(sa, h, "\n");
    AppendedTrans(st, sa, AddOutput(sa, h, "\n"), command, "\n");
  }

  /** "clear" emits exactly the ANSI clear-screen sequence. */
  lemma ClearStepEffect(st: Rec, ctx: Ctx, step: Step, stepIndex: int)
    requires step.action == "clear"
    ensures var (r, ok) := RunStepSpec(st, ctx, step, stepIndex);
      && ok && SameScriptState(st, r) && Appended(st, r, CLEAR_SCREEN)
      && |r.events| == |st.events| + 1 && r.events[|st.events|].data == CLEAR_SCREEN
  {
    var st1 := BeginStep(st, ctx.host, step, stepIndex);
    AppendedNothing(st, st1);
    AddOutputAppends(st1, ctx.host, CLEAR_SCREEN);
    AppendedTrans(st, st1, AddOutput(st1, ctx.host, CLEAR_SCREEN), "", CLEAR_SCREEN);
  }

  /** "section" appends one section named after the step ("Untitled" when
      it has no name) and shows the interpolated content as a comment only
      when there is content. */
  lemma SectionStepEffect(st: Rec, ctx: Ctx, step: Step, stepIndex: int)
    requires step.action == "section"
    ensures var (r, ok) := RunStepSpec(st, ctx, step, stepIndex);
      && ok
      && |r.sections| == |st.sections| + 1 && r.sections[..|st.sections|] == st.sections
      && r.sections[|st.sections|].name == OrElse(step.name, "Untitled")
      && Appended(st, r, if Truthy(step.content)
                         then "\n# " + Interp(st, ctx.host, step.content.value) + "\n" else "")
      && r.errors == st.errors && r.variables == st.variables && r.cwd == st.cwd
  {
    var h := ctx.host;
    var st1 := BeginStep(st, h, step, stepIndex);
    var r := SectionStep(st1, h, step);
    var sa := st1.(sections := st1.sections + [Section(OrElse(step.name, "Untitled"), h.clock(st1.clockReads))],
                   clockReads := st1.clockReads + 1);
    AppendedNothing(st, sa);
    assert r.sections == sa.sections;
    if Truthy(step.content) {
      var text := "\n# " + Interp(sa, h, step.content.value) + "\n";
      AddOutputAppends(sa, h, text);
      AppendedTrans(st, sa, r, "", text);
    }
  }

  /** "set" binds the name to the interpolated content when both are set,
      and otherwise changes nothing; it emits nothing. */
  lemma SetStepEffect(st: Rec, ctx: Ctx, step: Step, stepIndex: int)
    requires step.action == "set"
    ensures var (r, ok) := RunStepSpec(st, ctx, step, stepIndex);
      && ok && r.events == st.events && r.sections == st.sections && r.errors == st.errors
      && r.cwd == st.cwd
      && r.variables == if Truthy(step.name) && Truthy(step.content)
                        then st.variables[step.name.value := Interp(st, ctx.host, step.content.value)]
                        else st.variables
  {
  }

  /** "cd" moves to the interpolated directory only when it validates,
      types `cd ` and the raw content ("None" when missing), then a new
      prompt, and always succeeds. */
  lemma CdStepEffect(st: Rec, ctx: Ctx, step: Step, stepIndex: int)
    requires step.action == "cd"
    ensures var (r, ok) := RunStepSpec(st, ctx, step, stepIndex);
      var target := ValidatePath(Interp(st, ctx.host, step.content.GetOr("")), None, st.cwd, ctx.host.processCwd);
      && ok
      && r.cwd == (if target.Success? then target.value else st.cwd)
      && Appended(st, r, "cd " + PyStr(step.content) + NEXT_PROMPT)
      && r.sections == st.sections && r.errors == st.errors && r.variables == st.variables
  {
    var h := ctx.host;
    var st1 := BeginStep(st, h, step, stepIndex);
    BeginStepEffect(st, h, step, stepIndex);
    AppendedNothing(st, st1);
    assert RunStepSpec(st, ctx, step, stepIndex) == (CdStep(st1, h, step), true);
    CdStepAppends(st1, h, step);
    AppendedTrans(st, st1, CdStep(st1, h, step), "", "cd " + PyStr(step.content) + NEXT_PROMPT);
  }

  /** The "cd" action itself, after the step has begun. */
  lemma CdStepAppends(st: Rec, h: Host, step: Step)
    ensures var r := CdStep(st, h, step);
      var target := ValidatePath(Interp(st, h, step.content.GetOr("")), None, st.cwd, h.processCwd);
      && r.cwd == (if target.Success? then target.value else st.cwd)
      && Appended(st, r, "cd " + PyStr(step.content) + NEXT_PROMPT)
      && r.sections == st.sections && r.errors == st.errors && r.variables == st.variables
  {
    var target := ValidatePath(Interp(st, h, step.content.GetOr("")), None, st.cwd, h.processCwd);
    var sa := if target.Success? then st.(cwd := target.value) else st;
    AppendedNothing(st, sa);
    var typed := "cd " + PyStr(step.content);
    var sb := TypeText(sa, h, typed);
    TypeTextAppends(sa, h, typed);
    AppendedTrans(st, sa, sb, "", typed);
    AddOutputAppends(sb, h, NEXT_PROMPT);
    AppendedTrans(st, sb, AddOutput(sb, h, NEXT_PROMPT), typed, NEXT_PROMPT);
  }

  /** "screenshot" shows a marker named after the step or its index. */
  lemma ScreenshotStepEffect(st: Rec, ctx: Ctx, step: Step, stepIndex: int)
    requires step.action == "screenshot"
    ensures var (r, ok) := RunStepSpec(st, ctx, step, stepIndex);
      && ok && SameScriptState(st, r)
      && Appended(st, r, "\n[SCREENSHOT: " + OrElse(step.name, "screenshot_" + IntToString(stepIndex)) + "]\n")
  {
    var st1 := BeginStep(st, ctx.host, step, stepIndex);
    var text := "\n[SCREENSHOT: " + ScreenshotMarker(step, stepIndex) + "]\n";
    AppendedNothing(st, st1);
    AddOutputAppends(st1, ctx.host, text);
    AppendedTrans(st, st1, AddOutput(st1, ctx.host, text), "", text);
  }

  /** An action the recorder does not know is skipped and counts as a
      success: only the step-start reading and a "before" narration
      happen. */
  lemma UnknownActionSucceeds(st: Rec, ctx: Ctx, step: Step, stepIndex: int)
    requires step.action !in {"type", "execute", "run", "pause", "clear", "section",
                              "screenshot", "comment", "foreach", "set", "cd"}
    ensures var (r, ok) := RunStepSpec(st, ctx, step, stepIndex);
      ok && r.events == st.events && SameScriptState(st, r)
  {
  }

  /** Only "run" and "foreach" can fail. */
  lemma OnlyRunAndForeachFail(st: Rec, ctx: Ctx, step: Step, stepIndex: int)
    requires step.action != "run" && step.action != "foreach"
    ensures RunStepSpec(st, ctx, step, stepIndex).1
  {
  }

  /** A template step whose action can make it fail. */
  predicate MayFail(r: RawStep)
  {
    r.action == Some("run") || r.action == Some("foreach")
  }

  /** Running the first j template steps and then, if they all succeeded,
      the rest is running the whole template. */
  lemma {:induction false} ForeachTemplateSplit(st: Rec, ctx: Ctx, template: seq<RawStep>, j: nat, stepIndex: int)
    requires j <= |template|
    ensures ForeachTemplate(st, ctx, template, stepIndex)
         == (var (s, ok) := ForeachTemplate(st, ctx, template[..j], stepIndex);
             if !ok then (s, false) else ForeachTemplate(s, ctx, template[j..], stepIndex))
    decreases j
  {
    if j == 0 {
      assert template[..0] == [] && template[0..] == template;
    } else {
      assert template[..j][0] == template[0];
      var (st1, ok) := RunStepSpec(st, ctx, ParseStep(template[0]), stepIndex);
      if ok {
        ForeachTemplateSplit(st1, ctx, template[1..], j - 1, stepIndex);
        assert template[1..][..j - 1] == template[..j][1..];
        assert template[1..][j - 1..] == template[j..];
      }
    }
  }

  /** Running the first k items and then, if they all succeeded, the rest
      is running the whole item list. */
  lemma {:induction false} ForeachItemsSplit(st: Rec, ctx: Ctx, items: seq<string>, template: seq<RawStep>,
                                             k: nat, stepIndex: int)
    requires k <= |items|
    ensures ForeachItems(st, ctx, items, template, stepIndex)
         == (var (s, ok) := ForeachItems(st, ctx, items[..k], template, stepIndex);
             if !ok then (s, false) else ForeachItems(s, ctx, items[k..], template, stepIndex))
    decreases k
  {
    if k == 0 {
      assert items[..0] == [] && items[0..] == items;
    } else {
      assert items[..k][0] == items[0];
      var (st1, ok) := ForeachTemplate(st.(variables := st.variables["item" := items[0]]), ctx, template, stepIndex);
      if ok {
        ForeachItemsSplit(st1, ctx, items[1..], template, k - 1, stepIndex);
        assert items[1..][..k - 1] == items[..k][1..];
        assert items[1..][k - 1..] == items[k..];
      }
    }
  }

  /** The state in which template step j runs for item k, when every
      earlier item and every earlier template step for item k succeeded;
      None when one of them failed. */
  function ForeachStateBefore(st: Rec, ctx: Ctx, items: seq<string>, template: seq<RawStep>,
                              k: nat, j: nat, stepIndex: int): Option<Rec>
    requires k < |items| && j <= |template|
  {
    var (s, ok) := ForeachItems(st, ctx, items[..k], template, stepIndex);
    if !ok then None
    else
      var (s2, ok2) := ForeachTemplate(s.(variables := s.variables["item" := items[k]]), ctx, template[..j], stepIndex);
      if !ok2 then None else Some(s2)
  }

  /** "foreach" returns False at the first failing template step, whichever
      item and step it is: the step's state is the final state, and neither
      the remaining template steps nor the remaining items run. */
  lemma ForeachStopsAtFailure(st: Rec, ctx: Ctx, items: seq<string>, template: seq<RawStep>,
                              k: nat, j: nat, stepIndex: int)
    requires k < |items| && j < |template|
    requires ForeachStateBefore(st, ctx, items, template, k, j, stepIndex).Some?
    requires !RunStepSpec(ForeachStateBefore(st, ctx, items, template, k, j, stepIndex).value, ctx,
                          ParseStep(template[j]), stepIndex).1
    ensures ForeachItems(st, ctx, items, template, stepIndex)
         == (RunStepSpec(ForeachStateBefore(st, ctx, items, template, k, j, stepIndex).value, ctx,
                         ParseStep(template[j]), stepIndex).0, false)
  {
    var s := ForeachItems(st, ctx, items[..k], template, stepIndex).0;
    var bound := s.(variables := s.variables["item" := items[k]]);
    ForeachItemsSplit(st, ctx, items, template, k, stepIndex);
    ForeachTemplateSplit(bound, ctx, template, j, stepIndex);
    assert items[k..][0] == items[k];
    assert template[j..][0] == template[j];
  }

  lemma {:induction false} ForeachTemplateFailure(st: Rec, ctx: Ctx, template: seq<RawStep>, stepIndex: int)
    requires !ForeachTemplate(st, ctx, template, stepIndex).1
    ensures exists j :: 0 <= j < |template| && MayFail(template[j])
    decreases |template|
  {
    var (st1, ok) := RunStepSpec(st, ctx, ParseStep(template[0]), stepIndex);
    if ok {
      ForeachTemplateFailure(st1, ctx, template[1..], stepIndex);
      var j :| 0 <= j < |template[1..]| && MayFail(template[1..][j]);
      assert template[1..][j] == template[j + 1];
    } else {
      if !MayFail(template[0]) {
        OnlyRunAndForeachFail(st, ctx, ParseStep(template[0]), stepIndex);
      }
    }
  }

  /** A "foreach" whose template has no "run" and no nested "foreach"
      always succeeds. */
  lemma {:induction false} ForeachFailureNeedsFailingStep(st: Rec, ctx: Ctx, items: seq<string>,
                                                          template: seq<RawStep>, stepIndex: int)
    requires !ForeachItems(st, ctx, items, template, stepIndex).1
    ensures exists j :: 0 <= j < |template| && MayFail(template[j])
    decreases |items|
  {
    var bound := st.(variables := st.variables["item" := items[0]]);
    var (st1, ok) := ForeachTemplate(bound, ctx, template, stepIndex);
    if ok {
      ForeachFailureNeedsFailingStep(st1, ctx, items[1..], template, stepIndex);
    } else {
      ForeachTemplateFailure(bound, ctx, template, stepIndex);
    }
  }

  /** The template step `{action: type, content: "{{ item }}"}`. */
  function TypeItemStep(): RawStep
  {
    RawStep(Some("type"), Some("{{ item }}"), None, None, None, None, None, None, None, None, Absent)
  }

  lemma TypeItemText(variables: map<string, string>, environ: Environment, item: string)
    ensures Interpolate("{{ item }}", variables["item" := item], environ) == item
  {
    assert IsWordChar('i') && IsWordChar('t') && IsWordChar('e') && IsWordChar('m');
    assert "{{ item }}" == PlaceholderText(" ", "item", " ") + "";
    PlaceholderReplaced(" ", "item", " ", "", variables["item" := item], environ);
    assert item + "" == item;
  }

  /** `foreach` over items with a template that types `{{ item }}` types
      every item, in order, and succeeds. */
  lemma {:induction false} ForeachTypesEachItem(st: Rec, ctx: Ctx, items: seq<string>, stepIndex: int)
    ensures var (r, ok) := ForeachItems(st, ctx, items, [TypeItemStep()], stepIndex);
      && ok && Appended(st, r, Concat(items))
      && r.sections == st.sections && r.errors == st.errors && r.cwd == st.cwd
    decreases |items|
  {
    var (r, ok) := ForeachItems(st, ctx, items, [TypeItemStep()], stepIndex);
    if items == [] {
      AppendedNothing(st, r);
    } else {
      var bound := st.(variables := st.variables["item" := items[0]]);
      AppendedNothing(st, bound);
      var step := ParseStep(TypeItemStep());
      TypeStepEffect(bound, ctx, step, stepIndex);
      TypeItemText(st.variables, ctx.host.environ, items[0]);
      var (st1, ok1) := RunStepSpec(bound, ctx, step, stepIndex);
      assert ForeachTemplate(bound, ctx, [TypeItemStep()], stepIndex) == (st1, true);
      AppendedTrans(st, bound, st1, "", items[0]);
      ForeachTypesEachItem(st1, ctx, items[1..], stepIndex);
      AppendedTrans(st, st1, r, items[0], Concat(items[1..]));
    }
  }

  // ---------------------------------------------------------------------
  // Invariants kept by every step

  /** The recorder only ever appends: events, sections, narrations and
      detected errors of `a` are prefixes of those of `b`. */
  predicate Extends(a: Rec, b: Rec)
  {
    && a.events <= b.events && a.sections <= b.sections
    && a.narrations <= b.narrations && a.errors <= b.errors
    && a.clockReads <= b.clockReads
  }

  lemma ExtendsTrans(a: Rec, b: Rec, c: Rec)
    requires Extends(a, b) && Extends(b, c)
    ensures Extends(a, c)
  {
  }

  /** A clock that never goes backwards. */
  ghost predicate Monotone(clock: nat -> nat)
  {
    forall x: nat, y: nat :: x <= y ==> clock(x) <= clock(y)
  }

  /** Events and sections are in time order and none lies after the next
      clock reading; every narration cue lasts 3 seconds. */
  predicate Chronological(st: Rec, clock: nat -> nat)
  {
    && (forall i :: 0 < i < |st.events| ==> st.events[i - 1].time <= st.events[i].time)
    && (forall i :: 0 <= i < |st.events| ==> st.events[i].time <= clock(st.clockReads))
    && (forall i :: 0 < i < |st.sections| ==> st.sections[i - 1].time <= st.sections[i].time)
    && (forall i :: 0 <= i < |st.sections| ==> st.sections[i].time <= clock(st.clockReads))
    && (forall i :: 0 <= i < |st.narrations| ==>
          st.narrations[i].endTime == st.narrations[i].startTime + NARRATION_DURATION)
  }

  /** Taking clock readings without recording them keeps the order. */
  lemma LaterReadsKeep(st: Rec, r: Rec, clock: nat -> nat)
    requires Monotone(clock) && Chronological(st, clock)
    requires r == st.(clockReads := r.clockReads, errors := r.errors, variables := r.variables, cwd := r.cwd)
    requires st.clockReads <= r.clockReads
    ensures Chronological(r, clock)
  {
    assert clock(st.clockReads) <= clock(r.clockReads);
  }

  lemma AddEventKeeps(st: Rec, h: Host, kind: EventType, data: string)
    ensures Extends(st, AddEvent(st, h, kind, data))
    ensures Monotone(h.clock) && Chronological(st, h.clock) ==> Chronological(AddEvent(st, h, kind, data), h.clock)
  {
    var r := AddEvent(st, h, kind, data);
    assert r.events[..|st.events|] == st.events;
    if Monotone(h.clock) && Chronological(st, h.clock) {
      assert h.clock(st.clockReads) <= h.clock(st.clockReads + 1);
    }
  }

  lemma AddNarrationKeeps(st: Rec, h: Host, text: string, stepIndex: int, position: string)
    ensures Extends(st, AddNarration(st, h, text, stepIndex, position))
    ensures Monotone(h.clock) && Chronological(st, h.clock) ==>
              Chronological(AddNarration(st, h, text, stepIndex, position), h.clock)
  {
    var r := AddNarration(st, h, text, stepIndex, position);
    assert r.narrations[..|st.narrations|] == st.narrations;
    if Monotone(h.clock) && Chronological(st, h.clock) {
      assert h.clock(st.clockReads) <= h.clock(st.clockReads + 1);
    }
  }

  lemma TickKeeps(st: Rec, h: Host)
    ensures Extends(st, Tick(st))
    ensures Monotone(h.clock) && Chronological(st, h.clock) ==> Chronological(Tick(st), h.clock)
  {
    if Monotone(h.clock) && Chronological(st, h.clock) {
      LaterReadsKeep(st, Tick(st), h.clock);
    }
  }

  lemma TypeTextKeeps(st: Rec, h: Host, text: string)
    ensures Extends(st, TypeText(st, h, text))
    ensures Monotone(h.clock) && Chronological(st, h.clock) ==> Chronological(TypeText(st, h, text), h.clock)
  {
    var r := TypeText(st, h, text);
    assert r.events[..|st.events|] == st.events;
    if Monotone(h.clock) && Chronological(st, h.clock) {
      TypedTimes(h, st.clockReads, text);
      AppendTimedKeeps(st, r, TypedEvents(h, st.clockReads, text), h.clock);
    }
  }

  /** The typed events carry the readings of a clock that never goes
      backwards, one per character. */
  lemma TypedTimes(h: Host, from: nat, text: string)
    requires Monotone(h.clock)
    ensures var typed := TypedEvents(h, from, text);
      && (forall i :: 0 < i < |typed| ==> typed[i - 1].time <= typed[i].time)
      && (forall i :: 0 <= i < |typed| ==> h.clock(from) <= typed[i].time <= h.clock(from + |text|))
  {
  }

  /** Appending events that are in order, not before the last reading and
      not after the new one keeps the recorder in time order. */
  lemma AppendTimedKeeps(st: Rec, r: Rec, added: seq<CastEvent>, clock: nat -> nat)
    requires r == st.(events := st.events + added, clockReads := r.clockReads)
    requires Monotone(clock) && Chronological(st, clock) && st.clockReads <= r.clockReads
    requires forall i :: 0 < i < |added| ==> added[i - 1].time <= added[i].time
    requires forall i :: 0 <= i < |added| ==> clock(st.clockReads) <= added[i].time <= clock(r.clockReads)
    ensures Chronological(r, clock)
  {
    var n := |st.events|;
    assert clock(st.clockReads) <= clock(r.clockReads);
    forall i | 0 < i < |r.events| ensures r.events[i - 1].time <= r.events[i].time {
      if i > n {
        assert r.events[i - 1] == added[i - 1 - n];
        assert r.events[i] == added[i - n];
      } else if i == n {
        assert r.events[i] == added[0];
      }
    }
    forall i | 0 <= i < |r.events| ensures r.events[i].time <= clock(r.clockReads) {
      if i >= n {
        assert r.events[i] == added[i - n];
      }
    }
  }

  lemma {:induction false} AppendChunksKeeps(st: Rec, h: Host, chunks: seq<string>)
    ensures Extends(st, AppendChunks(st, h, chunks))
    ensures Monotone(h.clock) && Chronological(st, h.clock) ==> Chronological(AppendChunks(st, h, chunks), h.clock)
    decreases |chunks|
  {
    if chunks != [] {
      var st1 := if chunks[0] == "" then st else AddOutput(st, h, chunks[0]);
      if chunks[0] != "" {
        AddEventKeeps(st, h, Output, chunks[0]);
      }
      AppendChunksKeeps(st1, h, chunks[1..]);
      ExtendsTrans(st, st1, AppendChunks(st, h, chunks));
    }
  }

  lemma BeginStepKeeps(st: Rec, h: Host, step: Step, stepIndex: int)
    ensures Extends(st, BeginStep(st, h, step, stepIndex))
    ensures Monotone(h.clock) && Chronological(st, h.clock) ==>
              Chronological(BeginStep(st, h, step, stepIndex), h.clock)
  {
    TickKeeps(st, h);
    if HasNarration(step, "before") {
      AddNarrationKeeps(Tick(st), h, step.narration.value["before"], stepIndex, "before");
    }
  }

  lemma ExecuteCommandKeeps(st: Rec, ctx: Ctx, command: string, cwd: Option<string>)
    ensures Extends(st, ExecuteCommand(st, ctx, command, cwd).0)
    ensures Monotone(ctx.host.clock) && Chronological(st, ctx.host.clock) ==>
              Chronological(ExecuteCommand(st, ctx, command, cwd).0, ctx.host.clock)
  {
    if !ctx.dryRun && !ctx.assertOnly {
      var run := ctx.host.pty(command, WorkDir(st, cwd), CommandEnv(ctx)["TERM" := DEFAULT_TERM]);
      AppendChunksKeeps(st, ctx.host, run.chunks);
    }
  }

  lemma AddErrorsKeeps(st: Rec, found: seq<DetectedError>, clock: nat -> nat)
    ensures Extends(st, st.(errors := st.errors + found))
    ensures Chronological(st, clock) ==> Chronological(st.(errors := st.errors + found), clock)
  {
  }

  lemma RunCommandStepKeeps(st: Rec, ctx: Ctx, step: Step, stepIndex: int)
    ensures Extends(st, RunCommandStep(st, ctx, step, stepIndex).0)
    ensures Monotone(ctx.host.clock) && Chronological(st, ctx.host.clock) ==>
              Chronological(RunCommandStep(st, ctx, step, stepIndex).0, ctx.host.clock)
  {
    var h := ctx.host;
    var command := Interp(st, h, step.content.GetOr(""));
    var sa := TypeText(st, h, command);
    TypeTextKeeps(st, h, command);
    var sb := AddOutput(sa, h, "\n");
    AddEventKeeps(sa, h, Output, "\n");
    var ex := ExecuteCommand(sb, ctx, command, StepCwd(st, h, step));
    ExecuteCommandKeeps(sb, ctx, command, StepCwd(st, h, step));
    var sc := ex.0;
    var found := DetectErrors(ctx.settings.errorDetection, h.matches, ex.1,
                              step.ignoreErrorPatterns, step.expectError, stepIndex);
    var sd := sc.(errors := sc.errors + found);
    AddErrorsKeeps(sc, found, h.clock);
    var se := if HasNarration(step, "after") then
                AddNarration(sd, h, step.narration.value["after"], stepIndex, "after")
              else sd;
    if HasNarration(step, "after") {
      AddNarrationKeeps(sd, h, step.narration.value["after"], stepIndex, "after");
    }
    AddEventKeeps(se, h, Output, NEXT_PROMPT);
    assert RunCommandStep(st, ctx, step, stepIndex).0 == AddOutput(se, h, NEXT_PROMPT);
    ExtendsTrans(st, sa, sb);
    ExtendsTrans(st, sb, sc);
    ExtendsTrans(st, sc, sd);
    ExtendsTrans(st, sd, se);
    ExtendsTrans(st, se, AddOutput(se, h, NEXT_PROMPT));
  }

  lemma SectionStepKeeps(st: Rec, h: Host, step: Step)
    ensures Extends(st, SectionStep(st, h, step))
    ensures Monotone(h.clock) && Chronological(st, h.clock) ==> Chronological(SectionStep(st, h, step), h.clock)
  {
    var sa := st.(sections := st.sections + [Section(OrElse(step.name, "Untitled"), h.clock(st.clockReads))],
                  clockReads := st.clockReads + 1);
    assert sa.sections[..|st.sections|] == st.sections;
    if Monotone(h.clock) && Chronological(st, h.clock) {
      assert h.clock(st.clockReads) <= h.clock(st.clockReads + 1);
    }
    if Truthy(step.content) {
      AddEventKeeps(sa, h, Output, "\n# " + Interp(sa, h, step.content.value) + "\n");
    }
  }

  lemma CdStepKeeps(st: Rec, h: Host, step: Step)
    ensures Extends(st, CdStep(st, h, step))
    ensures Monotone(h.clock) && Chronological(st, h.clock) ==> Chronological(CdStep(st, h, step), h.clock)
  {
    var target := ValidatePath(Interp(st, h, step.content.GetOr("")), None, st.cwd, h.processCwd);
    var sa := if target.Success? then st.(cwd := target.value) else st;
    ScopeChangeKeeps(st, sa, h.clock);
    var typed := "cd " + PyStr(step.content);
    TypeTextKeeps(sa, h, typed);
    var sb := TypeText(sa, h, typed);
    AddEventKeeps(sb, h, Output, NEXT_PROMPT);
    assert CdStep(st, h, step) == AddOutput(sb, h, NEXT_PROMPT);
    ExtendsTrans(st, sa, sb);
    ExtendsTrans(st, sb, AddOutput(sb, h, NEXT_PROMPT));
  }

  /** Changing the directory or the variables touches no list and no
      clock reading. */
  lemma ScopeChangeKeeps(st: Rec, r: Rec, clock: nat -> nat)
    requires r == st.(cwd := r.cwd, variables := r.variables)
    ensures Extends(st, r)
    ensures Chronological(st, clock) ==> Chronological(r, clock)
  {
  }

  /** Every step only appends to the recorder's lists, and with a clock
      that never goes backwards it keeps events and sections in time
      order. */
  lemma {:induction false} RunStepKeeps(st: Rec, ctx: Ctx, step: Step, stepIndex: int)
    ensures Extends(st, RunStepSpec(st, ctx, step, stepIndex).0)
    ensures Monotone(ctx.host.clock) && Chronological(st, ctx.host.clock) ==>
              Chronological(RunStepSpec(st, ctx, step, stepIndex).0, ctx.host.clock)
    decreases StepSize(step), 3, 0
  {
    var st1 := BeginStep(st, ctx.host, step, stepIndex);
    BeginStepKeeps(st, ctx.host, step, stepIndex);
    RunActionKeeps(st1, ctx, step, stepIndex);
    ExtendsTrans(st, st1, RunStepSpec(st, ctx, step, stepIndex).0);
  }

  lemma {:induction false} RunActionKeeps(st: Rec, ctx: Ctx, step: Step, stepIndex: int)
    ensures Extends(st, RunAction(st, ctx, step, stepIndex).0)
    ensures Monotone(ctx.host.clock) && Chronological(st, ctx.host.clock) ==>
              Chronological(RunAction(st, ctx, step, stepIndex).0, ctx.host.clock)
    decreases StepSize(step), 2, 0
  {
    var h := ctx.host;
    var action := step.action;
    if action == "type" {
      TypeTextKeeps(st, h, Interp(st, h, step.content.GetOr("")));
    } else if action == "execute" {
      AddEventKeeps(st, h, Output, "\n");
    } else if action == "run" {
      RunCommandStepKeeps(st, ctx, step, stepIndex);
    } else if action == "clear" {
      AddEventKeeps(st, h, Output, CLEAR_SCREEN);
    } else if action == "section" {
      SectionStepKeeps(st, h, step);
    } else if action == "screenshot" {
      AddEventKeeps(st, h, Output, "\n[SCREENSHOT: " + ScreenshotMarker(step, stepIndex) + "]\n");
    } else if action == "comment" {
      AddEventKeeps(st, h, Output, "\n# " + Interp(st, h, step.content.GetOr("")) + "\n");
    } else if action == "foreach" {
      ForeachItemsKeeps(st, ctx, step.items.GetOr([]), step.template.StepsOrEmpty(), stepIndex);
    } else if action == "cd" {
      CdStepKeeps(st, h, step);
    }
  }

  lemma {:induction false} ForeachItemsKeeps(st: Rec, ctx: Ctx, items: seq<string>, template: seq<RawStep>,
                                             stepIndex: int)
    ensures Extends(st, ForeachItems(st, ctx, items, template, stepIndex).0)
    ensures Monotone(ctx.host.clock) && Chronological(st, ctx.host.clock) ==>
              Chronological(ForeachItems(st, ctx, items, template, stepIndex).0, ctx.host.clock)
    decreases TemplateSize(template), 1, |items|
  {
    if items != [] {
      var bound := st.(variables := st.variables["item" := items[0]]);
      ScopeChangeKeeps(st, bound, ctx.host.clock);
      ForeachTemplateKeeps(bound, ctx, template, stepIndex);
      var (st1, ok) := ForeachTemplate(bound, ctx, template, stepIndex);
      ExtendsTrans(st, bound, st1);
      if ok {
        ForeachItemsKeeps(st1, ctx, items[1..], template, stepIndex);
        ExtendsTrans(st, st1, ForeachItems(st, ctx, items, template, stepIndex).0);
      }
    }
  }

  lemma {:induction false} ForeachTemplateKeeps(st: Rec, ctx: Ctx, template: seq<RawStep>, stepIndex: int)
    ensures Extends(st, ForeachTemplate(st, ctx, template, stepIndex).0)
    ensures Monotone(ctx.host.clock) && Chronological(st, ctx.host.clock) ==>
              Chronological(ForeachTemplate(st, ctx, template, stepIndex).0, ctx.host.clock)
    decreases TemplateSize(template), 0, |template|
  {
    if template != [] {
      TemplateStepSmaller(template, 0);
      RunStepKeeps(st, ctx, ParseStep(template[0]), stepIndex);
      var (st1, ok) := RunStepSpec(st, ctx, ParseStep(template[0]), stepIndex);
      if ok {
        ForeachTemplateKeeps(st1, ctx, template[1..], stepIndex);
        ExtendsTrans(st, st1, ForeachTemplate(st, ctx, template, stepIndex).0);
      }
    }
  }

  // ---------------------------------------------------------------------
  // record

  /** The step loop runs every step unless it is in assert-only mode; in
      assert-only mode it stops right after the first failing step. */
  lemma {:induction false} RunStepsOutcomes(st: Rec, ctx: Ctx, steps: seq<Step>, i: nat)
    requires i <= |steps|
    ensures var outcomes := RunSteps(st, ctx, steps, i).1;
      && |outcomes| <= |steps| - i
      && (!ctx.assertOnly ==> |outcomes| == |steps| - i)
      && (ctx.assertOnly ==> forall k :: 0 <= k < |outcomes| - 1 ==> outcomes[k])
      && (ctx.assertOnly && |outcomes| < |steps| - i ==> outcomes != [] && !outcomes[|outcomes| - 1])
    decreases |steps| - i
  {
    if i < |steps| {
      var (st1, ok) := RunStepSpec(st, ctx, steps[i], i);
      if ok || !ctx.assertOnly {
        RunStepsOutcomes(st1, ctx, steps, i + 1);
        var rest := RunSteps(st1, ctx, steps, i + 1).1;
        assert RunSteps(st, ctx, steps, i).1 == [ok] + rest;
      }
    }
  }

  lemma {:induction false} RunStepsKeeps(st: Rec, ctx: Ctx, steps: seq<Step>, i: nat)
    requires i <= |steps|
    ensures Extends(st, RunSteps(st, ctx, steps, i).0)
    ensures Monotone(ctx.host.clock) && Chronological(st, ctx.host.clock) ==>
              Chronological(RunSteps(st, ctx, steps, i).0, ctx.host.clock)
    decreases |steps| - i
  {
    if i < |steps| {
      RunStepKeeps(st, ctx, steps[i], i);
      var (st1, ok) := RunStepSpec(st, ctx, steps[i], i);
      if ok || !ctx.assertOnly {
        RunStepsKeeps(st1, ctx, steps, i + 1);
        ExtendsTrans(st, st1, RunSteps(st, ctx, steps, i).0);
      }
    }
  }

  /** `record` shows the initial prompt first unless dry-running; it
      succeeds exactly when every step it ran succeeded and no error was
      detected, and outside assert-only mode it runs every step. Starting
      from a fresh recorder with a clock that never goes backwards, the
      recording is in time order. */
  lemma RecordProperties(st: Rec, ctx: Ctx, steps: seq<Step>)
    ensures var (r, ok) := RecordSpec(st, ctx, steps);
      var start := if !ctx.dryRun then AddOutput(st, ctx.host, PROMPT) else st;
      var outcomes := RunSteps(start, ctx, steps, 0).1;
      && Extends(st, r)
      && (!ctx.dryRun ==> |st.events| < |r.events|
                          && r.events[|st.events|] == CastEvent(ctx.host.clock(st.clockReads), Output, PROMPT))
      && (ok <==> AllTrue(outcomes) && r.errors == [])
      && (!ctx.assertOnly ==> |outcomes| == |steps|)
      && (ctx.assertOnly && |outcomes| < |steps| ==> !ok)
      && (Monotone(ctx.host.clock) && Chronological(st, ctx.host.clock) ==> Chronological(r, ctx.host.clock))
  {
    var h := ctx.host;
    var start := if !ctx.dryRun then AddOutput(st, h, PROMPT) else st;
    if !ctx.dryRun {
      AddEventKeeps(st, h, Output, PROMPT);
    }
    RunStepsKeeps(start, ctx, steps, 0);
    RunStepsOutcomes(start, ctx, steps, 0);
    var (r, outcomes) := RunSteps(start, ctx, steps, 0);
    ExtendsTrans(st, start, r);
    if !ctx.dryRun {
      assert start.events[|st.events|] == CastEvent(h.clock(st.clockReads), Output, PROMPT);
      assert r.events[..|start.events|] == start.events;
    }
  }

  /** A fresh recorder is trivially in time order. */
  lemma InitialChronological(settings: Settings, h: Host)
    ensures Chronological(InitialRec(settings, h.processCwd), h.clock)
    ensures InitialRec(settings, h.processCwd).cwd == OrElse(settings.cwd, h.processCwd)
  {
  }
}

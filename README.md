# demo-creator's terminal demo recorder, in Dafny

This project models the YAML-driven terminal demo recorder of demo-creator
(`scripts/terminal_demo.py`) and proves properties of the model. The
recorder reads a demo script: settings, metadata and a list of declarative
steps (`type`, `run`, `execute`, `clear`, `section`, `set`, `cd`,
`foreach`, `screenshot`, `comment`, `pause`). It runs the steps against a
terminal, and keeps:

- the cast events, section markers and narration cues it has produced;
- a variable table and a sandboxed working directory;
- the errors it found in command output.

From that state it writes an asciicast v2 file and SRT/WebVTT subtitles.

The model also covers the smaller parts of the pipeline around it:

- the scene-based recorder's asciicast writer, typing simulation, script
  parsing and cast duration (`utils/terminal_recorder.py`);
- stage caching, the pipeline manifest, progress tracking, context-token
  accounting and retrying with backoff;
- selector and name generation, error classification and formatting,
  narration preview truncation, split-screen and picture-in-picture
  geometry;
- credential loading and saving, and the per-demo and global caches.

Things outside the program's own logic are parameters of the model:

- the clock is an integer number of milliseconds, or a function from the
  number of readings taken to such a time;
- the regular-expression engine is a predicate `matches(pattern, line)`;
- a command run on a pseudo-terminal is a function returning the chunks
  read and the exit code; `subprocess.run` returns stdout, stderr and the
  exit code;
- SHA-256 and MD5 digests, `json.dumps`, random draws, the process
  environment, and file existence or size are functions, maps or sets
  given to the operations;
- YAML and JSON documents start out already parsed, as a `Json` value or
  as records of optional fields.

Nothing is proved about the digests beyond their being functions, so two
calls with equal inputs agree.

One Dafny module models each source file. `Wrappers`, `Text` and `Json`
hold what they share: Option and Result, Python's string operations, and
the JSON value.

Where a class in the source updates its fields in place, the model is a
class with the same fields. Examples are `TerminalRecorder`,
`AsciicastWriter`, `StageCache`, `Manifest`, `PipelineProgress`,
`ContextMonitor`, `RetryContext`, `DemoCache` and `GlobalCache`. Their
methods state the new state.

The recorder's methods are proved against functions over a snapshot of its
state (`RecorderSpec`). The properties of the recorder are lemmas about
those functions (`RecorderProperties`, `CastOutput`).

## Model

| member | source | states |
|---|---|---|
| Interpolation.InterpolateWithoutPlaceholder | scripts/terminal_demo.py:248-262 | text with no `{{ name }}` placeholder (in particular the empty text) comes back unchanged |
| Interpolation.PlaceholderReplaced | scripts/terminal_demo.py:253-262 | a placeholder `{{ name }}`, with any blanks around a `\w+` name, becomes the variable's value, else the environment's value, else stays verbatim; the rest of the text is then interpolated |
| Interpolation.BodyMatched | scripts/terminal_demo.py:262 | the placeholder pattern matches exactly blanks, a word, blanks and the closing braces |
| Interpolation.ValueNotRescanned | scripts/terminal_demo.py:262 | `{{name}}` for a known variable becomes exactly that variable's value, inserted verbatim: a value that itself looks like a placeholder is not substituted again (one `re.sub` pass) |
| Interpolation.InterpolateIdempotent | scripts/terminal_demo.py:248-262 | interpolating a result with no placeholder left changes nothing |
| Interpolation.NoBracesNoPlaceholder | scripts/terminal_demo.py:262 | text without `{{` holds no placeholder |
| PathValidation.AbsoluteAccepted | scripts/terminal_demo.py:279-283 | an absolute path is always accepted and returned normalised, keeping a leading "//" exactly when the path starts with two slashes and not three |
| PathValidation.RelativeContained | scripts/terminal_demo.py:279-304 | a relative path is accepted exactly when the base (or the current directory) does not resolve under the "//" root and the path, joined to the base and normalised, stays under the base; an accepted path lies under the base and starts with a single slash |
| PathValidation.DescendingAccepted | scripts/terminal_demo.py:285-304 | a relative path without `..` components is accepted exactly when the base does not resolve under the "//" root, where `commonpath` drops a slash and the comparison fails |
| PathValidation.NormalPathUnchanged | scripts/terminal_demo.py:279-283 | a normalised absolute path, with either root, comes back unchanged |
| PathValidation.ParentRejected | scripts/terminal_demo.py:285-297 | `..` from any base but the root is a path traversal |
| PathValidation.RenderRoundTrip | scripts/terminal_demo.py:279-283 | a normalised path written out reads back as the same components and the same root |
| PathValidation.ResolveNormal | scripts/terminal_demo.py:282-283 | normalisation leaves no empty, `.` or `..` component |
| PathValidation.AsWrittenSkipsCheck | scripts/terminal_demo.py:285-302 | the code as written accepts an escaping path whose text mentions "different drives", which the corrected check rejects |
| DemoScript.ParseStepRoundTrip | scripts/terminal_demo.py:731-745 | `parse_step` reads back every field of a step written as a dictionary |
| DemoScript.ParseStepDefaults | scripts/terminal_demo.py:731-745 | an empty step dictionary gives exactly the step with action "", no ignore patterns, expect_error false and every other field unset |
| DemoScript.ParseSettingsRoundTrip | scripts/terminal_demo.py:748-790 | `parse_settings` and `parse_error_detection` read back every setting written as a dictionary |
| DemoScript.ParseSettingsDefaults | scripts/terminal_demo.py:63-127 | `parse_settings` (lines 767-790) on an empty mapping gives the defaults: 120×30, typing speed 50, pause 500 ms, smart mode with exactly the eight default error patterns (lines 69-76) and eight safe contexts (lines 81-88) of `ErrorDetectionConfig`, no ignore patterns, and `$SHELL` or `/bin/bash` |
| DemoScript.ParseMetadata | scripts/terminal_demo.py:793-800 | the descriptive fields are copied; the checksum and recording time start unset |
| DemoScript.ComputeChecksum | scripts/terminal_demo.py:803-809 | the checksum is the first 16 hex digits of the file's SHA-256 |
| DemoScript.TemplateStepSmaller | scripts/terminal_demo.py:573-588 | every step of a `foreach` template is smaller than the template, so nested `foreach` steps terminate |
| DemoScript.LoadDemoScript | scripts/terminal_demo.py:812-828 | the loaded script's settings, variables and steps are the parsed sections; its metadata holds the name, version, description and author given (all unset when the section is missing), the file checksum and the load time |
| ErrorDetection.FirstMatch | scripts/terminal_demo.py:363-382 | the index of the first pattern that matches the line, none exactly when no pattern matches |
| ErrorDetection.LineVerdictIff | scripts/terminal_demo.py:353-382 | a line is reported with pattern k exactly when it is not blank, no global or step ignore pattern matches, in smart mode no safe context matches, and k is the first matching pattern |
| ErrorDetection.SafeContextsOnlyInSmartMode | scripts/terminal_demo.py:366-372 | safe contexts matter only in smart mode, and there they suppress the report |
| ErrorDetection.ErrorsUpToSound | scripts/terminal_demo.py:353-382 | every report names a line the rule reports, 1-based, with that line's pattern and its stripped content cut to 200 characters |
| ErrorDetection.ErrorsUpToComplete | scripts/terminal_demo.py:353-382 | every line the rule reports has a report |
| ErrorDetection.ErrorsUpToOrdered | scripts/terminal_demo.py:353-382 | reports are in strictly increasing line order, so at most one per line |
| ErrorDetection.DetectErrorsCharacterised | scripts/terminal_demo.py:337-344 | nothing is reported when detection is off or the step expects an error; otherwise the reports are those of the output's lines |
| ErrorDetection.ScanPatterns | scripts/terminal_demo.py:363-382 | the pattern loop finds no error on a safe line and otherwise the first matching pattern |
| ErrorDetection.CheckForErrors | scripts/terminal_demo.py:333-384 | the detection loop returns exactly the characterised reports |
| RecorderProperties.TypedEventsSpell | scripts/terminal_demo.py:386-394 | `type_text` appends one output event per character, in order: the events spell the text |
| RecorderProperties.AppendChunksSpec | scripts/terminal_demo.py:435-465 | while recording, the events appended while reading the terminal carry exactly the output returned, none empty |
| RecorderProperties.ExecuteCommandSpec | scripts/terminal_demo.py:396-474 | `execute_command` returns the command's output and exit code; only a recording run appends events |
| RecorderProperties.BeginStepEffect | scripts/terminal_demo.py:479-488 | starting a step changes no event, section, error, variable or directory; at most it adds the "before" narration |
| RecorderProperties.TypeStepEffect | scripts/terminal_demo.py:501-504 | "type" types the interpolated content and succeeds |
| RecorderProperties.RunStepEffect | scripts/terminal_demo.py:512-539 | "run" succeeds exactly when the exit code is 0 or an error is expected; the errors found are appended; the terminal ends with a new prompt |
| RecorderProperties.ClearStepEffect | scripts/terminal_demo.py:547-550 | "clear" emits exactly the ANSI clear-screen sequence |
| RecorderProperties.SectionStepEffect | scripts/terminal_demo.py:552-559 | "section" appends one section named after the step, "Untitled" without a name |
| RecorderProperties.SetStepEffect | scripts/terminal_demo.py:590-594 | "set" binds only when both name and content are present, and emits nothing |
| RecorderProperties.CdStepEffect | scripts/terminal_demo.py:596-609 | "cd" moves only when the directory validates, always types `cd ` and the raw content, then a new prompt, and succeeds |
| RecorderProperties.ScreenshotStepEffect | scripts/terminal_demo.py:561-565 | "screenshot" shows a marker named after the step or its index |
| RecorderProperties.UnknownActionSucceeds | scripts/terminal_demo.py:611-613 | an unknown action does nothing beyond starting the step, and succeeds |
| RecorderProperties.OnlyRunAndForeachFail | scripts/terminal_demo.py:501-613 | only "run" and "foreach" can fail |
| RecorderProperties.ForeachTemplateSplit | scripts/terminal_demo.py:583-586 | running the first j template steps and then, if all succeeded, the rest equals running the whole template |
| RecorderProperties.ForeachItemsSplit | scripts/terminal_demo.py:578-588 | running the first k items and then, if all succeeded, the rest equals running all the items |
| RecorderProperties.ForeachStopsAtFailure | scripts/terminal_demo.py:573-588 | when template step j fails for item k after every earlier item and every earlier step of item k succeeded, "foreach" returns False with that step's state: no later step or item runs |
| RecorderProperties.ForeachFailureNeedsFailingStep | scripts/terminal_demo.py:573-588 | a template without "run" or nested "foreach" never fails |
| RecorderProperties.ForeachTypesEachItem | scripts/terminal_demo.py:573-588 | with the template `type {{ item }}`, every item is typed in order and the step succeeds |
| RecorderProperties.RunStepKeeps | scripts/terminal_demo.py:476-613 | every step only appends to events, sections, narrations and errors, and with a monotone clock keeps them in time order |
| RecorderProperties.RunStepsOutcomes | scripts/terminal_demo.py:624-629 | every step runs unless in assert-only mode, where the loop stops right after the first failure |
| RecorderProperties.RecordProperties | scripts/terminal_demo.py:615-630 | `record` shows the first prompt unless dry-running, succeeds exactly when every step run succeeded and no error was found, runs every step outside assert-only mode, and keeps a fresh recorder's output in time order |
| Recorder.TerminalRecorder.constructor | scripts/terminal_demo.py:233-246 | a new recorder is empty, in the process's directory, not dry-running |
| Recorder.TerminalRecorder.Interpolate | scripts/terminal_demo.py:248-262 | the method computes the interpolation over the recorder's variables |
| Recorder.TerminalRecorder.ValidatePath | scripts/terminal_demo.py:264-304 | the method is the corrected path check against the current directory |
| Recorder.TerminalRecorder.GetTimestamp | scripts/terminal_demo.py:306-308 | returns the next clock reading and changes nothing else |
| Recorder.TerminalRecorder.AddOutput | scripts/terminal_demo.py:310-312 | appends one output event at the current time |
| Recorder.TerminalRecorder.AddInput | scripts/terminal_demo.py:314-316 | appends one input event at the current time |
| Recorder.TerminalRecorder.AddNarration | scripts/terminal_demo.py:318-331 | appends one narration cue lasting 3 seconds |
| Recorder.TerminalRecorder.TypeText | scripts/terminal_demo.py:386-394 | the typing loop appends the per-character events of `TypedEvents` |
| Recorder.TerminalRecorder.ExecuteCommand | scripts/terminal_demo.py:396-474 | the chunk loop yields the state, output and exit code of `ExecuteCommand` |
| Recorder.TerminalRecorder.CheckForErrors | scripts/terminal_demo.py:523-530 | appends exactly the detected reports for the step's output |
| Recorder.TerminalRecorder.RunStep | scripts/terminal_demo.py:476-613 | state and result are those of `RunStepSpec`, for every action including nested `foreach` |
| Recorder.TerminalRecorder.Foreach | scripts/terminal_demo.py:573-588 | the nested item and template loops give the state and result of `ForeachItems` |
| Recorder.TerminalRecorder.Record | scripts/terminal_demo.py:615-630 | the step loop gives the state and result of `RecordSpec` |
| Recorder.TerminalRecorder.ToCast | scripts/terminal_demo.py:632-678 | the cast built from the recorder's state |
| Recorder.TerminalRecorder.WriteCast | scripts/terminal_demo.py:680-689 | the file text is the header line then one line per event |
| Recorder.TerminalRecorder.WriteNarrationSrt | scripts/terminal_demo.py:691-699 | the SRT text of the recorder's cues |
| Recorder.TerminalRecorder.WriteNarrationVtt | scripts/terminal_demo.py:701-710 | `WEBVTT`, a blank line, then the cues |
| CastOutput.CastHeaderBase | scripts/terminal_demo.py:634-640 | every header holds version 2, width = cols, height = rows, the timestamp and env SHELL/TERM, in that order |
| CastOutput.HeaderTitle | scripts/terminal_demo.py:642-643 | "title" appears exactly when a title is set |
| CastOutput.HeaderMarkers | scripts/terminal_demo.py:645-649 | "markers" appears exactly when there are sections: one per section, in order |
| CastOutput.HeaderMetadata | scripts/terminal_demo.py:651-673 | "metadata" appears exactly when name, version, description, author or checksum is non-empty |
| CastOutput.MetadataFieldsExact | scripts/terminal_demo.py:661-673 | the metadata object holds exactly the non-empty fields, each under its key |
| CastOutput.RecordedAtAloneNoMetadata | scripts/terminal_demo.py:651-673 | the recording time alone does not create a metadata object |
| CastOutput.CastFileLines | scripts/terminal_demo.py:680-689 | the file reads back as one header line and one line per event, in order |
| CastOutput.FormatTimeRoundTrip | scripts/terminal_demo.py:713-728 | below 100 hours a time stamp is `HH:MM:SS` + separator + `mmm`, minutes and seconds are below 60, and it reads back to the same time |
| CastOutput.CueListAppend | scripts/terminal_demo.py:691-710 | one more narration adds one cue, numbered after the others |
| CastOutput.CueLines | scripts/terminal_demo.py:694-699 | a cue reads as its number, `start --> end`, its text and a blank line |
| TerminalRecording.AsciicastWriter.constructor | utils/terminal_recorder.py:84-89 | a new writer has no file, no start time and no lines |
| TerminalRecording.AsciicastWriter.Enter | utils/terminal_recorder.py:91-107 | entering opens the file and writes exactly the header line: version 2, the size, the whole seconds of the first clock reading and env SHELL/TERM; the start time is the second clock reading |
| TerminalRecording.AsciicastWriter.Exit | utils/terminal_recorder.py:109-111 | leaving closes the file but keeps the file object, the start time and what was written |
| TerminalRecording.AsciicastWriter.WriteOutput | utils/terminal_recorder.py:113-118 | with a file object and a non-zero start time: one `[elapsed, "o", text]` line while the file is open, a raised error once it is closed; nothing otherwise |
| TerminalRecording.AsciicastWriter.WriteInput | utils/terminal_recorder.py:120-125 | with a file object and a non-zero start time: one `[elapsed, "i", text]` line while the file is open, a raised error once it is closed; nothing otherwise |
| TerminalRecording.WriteAfterExitRaises | utils/terminal_recorder.py:91-118 | writing output after leaving the writer raises, since the closed file object is still set |
| TerminalRecording.TypedOutputLength | utils/terminal_recorder.py:352-394 | the output events number the characters plus two per typo |
| TerminalRecording.TypedOutputChars | utils/terminal_recorder.py:352-394 | every character is written once, in order; a typo (a letter that is not the last) writes a wrong letter and its erasure just before it |
| TerminalRecording.TypedOutputPrefix | utils/terminal_recorder.py:352-394 | typing more characters only appends |
| TerminalRecording.TypeWithSimulation | utils/terminal_recorder.py:352-394 | the typing loop writes exactly the specified output events and keys |
| TerminalRecording.CastDurationOfWrittenCast | utils/terminal_recorder.py:396-410 | a written cast with an event lasts until its last event |
| TerminalRecording.ShortCastHasNoDuration | utils/terminal_recorder.py:396-410 | fewer than two lines give a duration of 0 |
| TerminalRecording.ShellSession.StopShell | utils/terminal_recorder.py:243-258 | stopping forgets a live child and terminal |
| TerminalRecording.StopHandleIdempotent | utils/terminal_recorder.py:243-258 | stopping leaves no live handle, and stopping again changes nothing |
| TerminalRecording.ClassifyActionCases | utils/terminal_recorder.py:533-555 | `command` gives a command with delay 1000 by default; `type` with `text` gives that type; `wait_for` gives a wait with the timeout, 30000 by default; anything else is dropped |
| TerminalRecording.KeptActionsSpec | utils/terminal_recorder.py:531-555 | every kept action comes from a raw one, every classifiable action is kept, and no more actions are kept than given |
| TerminalRecording.KeptActionsAppend | utils/terminal_recorder.py:531-555 | filtering preserves order and multiplicity: the kept actions of a concatenation are the two kept lists concatenated |
| TerminalRecording.KeptActionsSingle | utils/terminal_recorder.py:531-555 | one raw action yields its classification, or nothing when it is skipped |
| TerminalRecording.ParseTerminalScript | utils/terminal_recorder.py:517-562 | the parsing loop gives each scene its name, narration and kept actions |
| TerminalRecording.ConvertScene | utils/terminal_recorder.py:490-505 | a missing action type is "command", a missing delay 1000, a missing scene name "" |
| TerminalRecording.ResultToDict | utils/terminal_recorder.py:67-74 | the result dictionary has exactly the keys status, cast_path, video_path, duration_seconds and error, in that order |
| TerminalRecording.ResultToDictValues | utils/terminal_recorder.py:67-74 | each key holds its value: the status; a path as a string when set, else null; the duration and the error as given or null |
| TerminalRecording.ResultDictRoundTrip | utils/terminal_recorder.py:67-74 | reading the dictionary back gives the same result |
| StageCache.SignatureRoundTrip | utils/stage_cache.py:28-43 | `from_dict(to_dict(sig))` gives back the signature |
| StageCache.SignatureFromDict | utils/stage_cache.py:36-43 | a missing name fails; a success holds the dictionary's name and hash; a missing output list reads as [] and a missing timestamp as "" |
| StageCache.HashOrderIndependent | utils/stage_cache.py:93-105 | the hash is 16 characters and the same for two input lists with the same pairs, whatever their order |
| StageCache.InputsMapSpec | utils/stage_cache.py:93-105 | with distinct keys the hashed dictionary holds exactly the input pairs |
| StageCache.StageCache.ShouldSkip | utils/stage_cache.py:107-146 | skip exactly when the stage has a signature with this input hash and every output file exists |
| StageCache.StageCache.RecordCompletion | utils/stage_cache.py:148-170 | the stage's signature becomes these inputs' hash and these outputs; others are kept |
| StageCache.StageCache.Invalidate | utils/stage_cache.py:172-181 | removes only that stage |
| StageCache.StageCache.InvalidateDownstream | utils/stage_cache.py:183-200 | the loop removes exactly the downstream stages |
| StageCache.StageCache.Clear | utils/stage_cache.py:202-205 | no signature is left |
| StageCache.StageCache.CachedStages | utils/stage_cache.py:207-209 | the cached stages are the stages with a signature |
| StageCache.RecordThenSkip | utils/stage_cache.py:107-170 | right after recording, the same inputs are skipped whenever the required outputs exist |
| StageCache.SkipNeedsAll | utils/stage_cache.py:107-146 | no skip without a signature, with a changed hash, or with a missing output |
| StageCache.DownstreamSpec | utils/stage_cache.py:183-200 | the stage and every later stage are removed, every stage only before it kept, nothing for a stage outside the order |
| StageCache.RecordFailureInvalidates | utils/stage_cache.py:264-283 | through `invalidate_downstream` (lines 183-200), a failure at "record" invalidates it and the seven stages after it, and keeps the four before |
| StageCache.CachedStageRunner.RunStage | utils/stage_cache.py:245-283 | a cached stage without force is skipped without calling the runner; otherwise the runner is called once, success is recorded, and a failure invalidates downstream and is raised again |
| StageCache.CachedStageRunner.ShouldRun | utils/stage_cache.py:285-302 | run exactly when the stage cannot be skipped |
| StageCache.CachedStageRunner.MarkComplete | utils/stage_cache.py:304-318 | records the completion |
| StageCache.CachedStageRunner.Reset | utils/stage_cache.py:320-322 | clears the cache |
| Retry.JitterBounds | utils/retry.py:56-62 | the jittered delay lies between 0.75 and 1.25 times the delay, up to rounding |
| Retry.BackoffMonotone | utils/retry.py:36-62 | with a base of at least 1 the delay never shrinks from one attempt to the next |
| Retry.BackoffExamples | utils/retry.py:36-62 | base 1 s doubling gives 1, 2, 4, 8 s, and 30 s once capped at 30 s |
| Retry.RetryCall | utils/retry.py:95-139 | at most `max_attempts` calls; the first result is returned; a non-retryable exception propagates after its call; after `max_attempts` retryable failures a RetryError carries the count and the last exception; `on_retry` is called once per non-final failure with attempts 1, 2, … |
| Retry.RetryContext.constructor | utils/retry.py:236-254 | a new context has made no attempt |
| Retry.RetryContext.ShouldRetry | utils/retry.py:277-283 | false once succeeded or out of attempts |
| Retry.RetryContext.Success | utils/retry.py:285-287 | marks success, attempt count unchanged |
| Retry.RetryContext.Failed | utils/retry.py:289-311 | counts the attempt and records the exception |
| Retry.RetryContext.RaiseIfExhausted | utils/retry.py:313-323 | raises exactly when not succeeded and out of attempts |
| Retry.RetryOrExhausted | utils/retry.py:277-323 | a context that has not succeeded may retry or is exhausted, never both |
| Retry.RunWithContext | utils/retry.py:221-235 | the documented loop makes at most `max_attempts` calls and stops exactly on a return or exhaustion |
| ContextMonitor.Remaining | utils/context_monitor.py:228-231 | `max(0, max_context − current)` |
| ContextMonitor.EstimateOperation | utils/context_monitor.py:202-212 | the table value, 1000 for an unknown operation |
| ContextMonitor.BudgetAndFit | utils/context_monitor.py:175-231 | what fits keeps the budget; an exceeded budget fits nothing; a full context fits nothing |
| ContextMonitor.LargeStagesSpec | utils/context_monitor.py:273-278 | exactly the stages above 50000 tokens get a recommendation |
| ContextMonitor.BudgetThresholds | utils/context_monitor.py:175-200 | over the default context 180000 tokens are within budget, 180001 are not, 140001 only warn |
| ContextMonitor.UsageTotals | utils/context_monitor.py:15-26 | a stage's total is its input plus its output |
| ContextMonitor.ContextMonitor.constructor | utils/context_monitor.py:55-65 | an absent or zero size gives the default |
| ContextMonitor.ContextMonitor.StartStage | utils/context_monitor.py:67-69 | the stage restarts from zero; totals are kept |
| ContextMonitor.ContextMonitor.AddInput | utils/context_monitor.py:71-94 | the stage (created if missing) and the total grow by exactly the tokens |
| ContextMonitor.ContextMonitor.AddOutput | utils/context_monitor.py:96-119 | as for input, on the output counters |
| ContextMonitor.ContextMonitor.AddFileRead | utils/context_monitor.py:121-146 | the path is always recorded; tokens are added only for a non-zero estimate |
| ContextMonitor.ContextMonitor.AddFileWrite | utils/context_monitor.py:148-173 | as for reads, on the output side |
| ContextMonitor.ContextMonitor.CheckBudget | utils/context_monitor.py:175-200 | false exactly above 90% of the context |
| ContextMonitor.ContextMonitor.CanFit | utils/context_monitor.py:214-226 | the projected usage stays below 90% |
| ContextMonitor.ContextMonitor.GetRemaining | utils/context_monitor.py:228-231 | the remaining tokens |
| ContextMonitor.ContextMonitor.UsageReportOf | utils/context_monitor.py:233-256 | the report's totals and per-stage entries |
| ContextMonitor.ContextMonitor.GetRecommendations | utils/context_monitor.py:258-290 | high usage, then the large stages in order, then many reads |
| ContextMonitor.ContextMonitor.TrackContext | utils/context_monitor.py:310-327 | adds the given tokens, else the operation's estimate, as input |
| Progress.Elapsed | utils/progress.py:38-43 | none before the start; up to the end, or to now without an end |
| Progress.FormatDurationRoundTrip | utils/progress.py:225-233 | `Ns` under a minute, else `Mm Ss` or `Mm`, and every such text reads back as its seconds |
| Progress.RemainingCoversPending | utils/progress.py:110-124 | every pending stage from the current one counts in full |
| Progress.EarlierStagesIgnored | utils/progress.py:110-124 | stages before the current one do not count |
| Progress.FinishingShrinksRemaining | utils/progress.py:86-124 | completing, failing or skipping never makes the estimate grow |
| Progress.StageLifecycle | utils/progress.py:79-97 | a started then completed stage has both times and counts nothing; a failed one keeps its error |
| Progress.PipelineProgress.AddStage | utils/progress.py:66-77 | appends one pending stage |
| Progress.PipelineProgress.StartStage | utils/progress.py:79-84 | in progress with a start time and made current; out of range changes nothing |
| Progress.PipelineProgress.CompleteStage | utils/progress.py:86-90 | completed with an end time; only that stage changes |
| Progress.PipelineProgress.FailStage | utils/progress.py:92-97 | failed with an end time and the error |
| Progress.PipelineProgress.SkipStage | utils/progress.py:99-102 | only the status becomes skipped |
| Progress.PipelineProgress.UpdateSubstep | utils/progress.py:104-107 | sets the current substep of that stage only |
| Progress.PipelineProgress.GetEstimatedRemaining | utils/progress.py:110-124 | the loop sums pending estimates and time left in progress, none when zero |
| Progress.ProgressContext.Enter | utils/progress.py:286-290 | starts the stage and makes it the current one; an index at or past the end changes nothing and a negative index past the start is an IndexError; the pipeline start time is kept |
| Progress.ProgressContext.Exit | utils/progress.py:292-301 | completes the stage, or fails it on an exception, which is never suppressed; the current stage and the start time are kept |
| Progress.CreateDemoPipeline | utils/progress.py:236-261 | twelve pending stages with positive estimates |
| Progress.DemoPipelineEstimate | utils/progress.py:236-261 | before anything starts, the estimate of `estimated_remaining` (lines 110-124) for the demo pipeline is the sum of its twelve stage estimates, 1230 seconds |
| Manifest.InitialData | utils/manifest.py:34-69 | stage 0 with empty completed, failed, outputs and errors |
| Manifest.CompleteStageSpec | utils/manifest.py:115-135 | completed once, no longer failed, outputs stored under `str(stage)`, lists keep no repeats |
| Manifest.FailStageSpec | utils/manifest.py:137-179 | failed once and exactly one error record added |
| Manifest.StageKeyInjective | utils/manifest.py:131-135 | distinct stages have distinct output keys |
| Manifest.CompleteKeepsOtherOutputs | utils/manifest.py:115-135 | other stages' outputs are untouched |
| Manifest.Manifest.Initialize | utils/manifest.py:34-69 | the data is the initial data, written out |
| Manifest.Manifest.Load | utils/manifest.py:71-87 | FileNotFound without a manifest file, otherwise the stored data |
| Manifest.Manifest.Save | utils/manifest.py:89-95 | NotInitialized before initialize or load |
| Manifest.Manifest.Data | utils/manifest.py:98-102 | the data, loading it first when needed |
| Manifest.Manifest.StartStage | utils/manifest.py:104-113 | sets the current stage |
| Manifest.Manifest.CompleteStage | utils/manifest.py:115-135 | the data becomes the completed data |
| Manifest.Manifest.FailStage | utils/manifest.py:137-179 | the data becomes the failed data |
| Manifest.Manifest.GetStageOutput | utils/manifest.py:181-192 | the stored outputs, none for a stage without them |
| Manifest.Manifest.IsStageCompleted | utils/manifest.py:194-205 | membership in the completed list |
| Manifest.Manifest.UpdateBrandVoiceCache | utils/manifest.py:207-219 | stamps the refresh time, now by default |
| Manifest.GetOrCreateManifest | utils/manifest.py:248-277 | loads an existing manifest, else initialises one |
| Selectors.GenerateSelectorFirstApplicable | utils/selectors.py:284-342 | the first applicable rule among test id, aria label, short text, name, placeholder, role, css wins; none gives priority 999; the priority goes with the type |
| Selectors.MeaningfulClassesComplete | utils/selectors.py:331-337 | the filter keeps exactly the classes longer than two without a utility prefix |
| Selectors.CssChoiceClasses | utils/selectors.py:330-340 | a css choice uses the first one or two meaningful classes |
| Selectors.TestIdWins | utils/selectors.py:297-304 | every element with a `data-testid` gets the test-id selector on that id with priority 1, ahead of every other applicable rule |
| Selectors.AriaLabelOverText | utils/selectors.py:297-312 | without a test id, every element with an `aria-label` gets the aria-label selector with priority 2, ahead of text and every later rule |
| Selectors.TextOverLaterRules | utils/selectors.py:306-312 | without a test id or an aria label, short text on a button or link gives the `:has-text` selector with priority 3 |
| Selectors.TestIdWinsExample | utils/selectors.py:297-304 | example: a submit button with both a test id and an aria label is selected as `[data-testid='submit-btn']` |
| Selectors.TextNameShape | utils/selectors.py:347-353 | a name from text is the type, `_`, and at most 30 lower-case letters, digits or underscores |
| Selectors.TwoWordName | utils/selectors.py:347-353 | two words make `<type>_<word>_<word>`, e.g. `button_submit_form` |
| Selectors.NameFallbacks | utils/selectors.py:356-371 | without text: aria label, name, placeholder (under `input_`), then eight characters of the selector hash |
| Errors.CategoryValueInjective | utils/errors.py:15-26 | different categories have different values |
| Errors.NewDemoError | utils/errors.py:40-54 | defaults: no details, stage or suggestions, empty context, recoverable |
| Errors.AnalyzeSpec | utils/errors.py:335-382 | the first matching table entry classifies the error; with none it is UNKNOWN naming the type with two suggestions; stage and message pass through, context defaults to empty |
| Errors.TypeNameIsClassified | utils/errors.py:355-365 | a type name in the table is never UNKNOWN |
| Errors.PatternsAreClassified | utils/errors.py:109-333 | no table entry is UNKNOWN |
| Errors.Format | utils/errors.py:74-95 | the loop builds the formatted lines |
| Errors.FormatShape | utils/errors.py:74-95 | heading first; details and stage lines exactly when set; suggestions follow their title |
| Errors.SuggestionNumbered | utils/errors.py:86-93 | suggestions are numbered from 1, in order |
| Errors.ToDictCategory | utils/errors.py:56-72 | the dictionary holds the category's value and the message |
| Errors.ToDictStage | utils/errors.py:56-72 | the details and the stage, each or null |
| Errors.ToDictSuggestions | utils/errors.py:56-72 | one entry per suggestion, in order, entry i being suggestion i's dictionary |
| Errors.SuggestionDictValues | utils/errors.py:62-70 | a suggestion's dictionary holds its description, and its command, code and link or null |
| Errors.ToDictRecoverable | utils/errors.py:56-72 | the recoverable flag |
| AudioPreview.TruncateSpec | utils/audio_preview.py:116-143 | text within 300 characters is kept; longer text is cut after the last late `. `, `! ` or `? `, else at the last space with `...`, else after 300 characters with `...`; never over 303 characters |
| AudioPreview.GeneratePreviewChecks | utils/audio_preview.py:73-83 | the API key is checked before the voice; synthesis needs both and speaks the truncated text |
| AudioPreview.ConfiguredFromEnvironment | utils/audio_preview.py:43-56 | an unset or empty key or voice falls back to ELEVENLABS_API_KEY / ELEVENLABS_VOICE_ID; a key is configured exactly when one of the two gives one, the key error arises when neither does, and synthesis is reached whenever both have a source |
| AudioPreview.AccumulatePreview | utils/audio_preview.py:182-188 | the loop gathers the leading segments that fit |
| AudioPreview.TakenSegmentsFit | utils/audio_preview.py:182-188 | the taken segments stay within 300 characters and the next would not fit |
| AudioPreview.AccumulatedPreviewSpec | utils/audio_preview.py:182-190 | the preview is the leading segments that fit, spaced and stripped, never over 300 characters |
| AudioPreview.GeneratePreviewFromNarration | utils/audio_preview.py:145-206 | the preview is generated from the accumulated text |
| AudioPreview.ShortTextUntouched | utils/audio_preview.py:126-127 | text that fits is passed to synthesis whole |
| HybridCompositor.HexRoundTrip | utils/hybrid_compositor.py:487-490 | a colour written as `#rrggbb` reads back as itself |
| HybridCompositor.HashOptional | utils/hybrid_compositor.py:487-490 | colours read the same with or without `#` |
| HybridCompositor.SplitSizesPartition | utils/hybrid_compositor.py:146-169 | the two shares sum to the side, each between 0 and the side for a percentage in 0..100 |
| HybridCompositor.DefaultSplit | utils/hybrid_compositor.py:146-147 | 1920 pixels at 40% give the terminal 768 |
| HybridCompositor.SideBySide | utils/hybrid_compositor.py:145-164 | left/right clips lie side by side without overlap inside the width |
| HybridCompositor.Stacked | utils/hybrid_compositor.py:166-184 | top/bottom clips lie one above the other without overlap inside the height |
| HybridCompositor.PipPlacement | utils/hybrid_compositor.py:321-333 | every corner keeps padding 20 to its edges; an unknown name is bottom-right |
| HybridCompositor.PipWidthBounds | utils/hybrid_compositor.py:321-323 | the inset is at most the main width for a scale up to 1, and at the default scale 0.3 leaves room for both paddings from a width of 58 |
| HybridCompositor.CompositeDispatch | utils/hybrid_compositor.py:73-115 | an unknown layout fails with "Unknown layout type"; a raising renderer gives a failed result |
| HybridCompositor.ConvenienceNeverUnknown | utils/hybrid_compositor.py:513-549 | through `composite_hybrid_demo` an unknown name is rejected before compositing |
| Credentials.Getenv | utils/credentials.py:185-205 | the environment value, none when unset |
| Credentials.Status | utils/credentials.py:93-101 | exactly the five services, in order |
| Credentials.GetMissing | utils/credentials.py:103-110 | ElevenLabs then GCS, each exactly when invalid |
| Credentials.GetOptionalMissing | utils/credentials.py:112-121 | HeyGen, Slack, Linear, each exactly when invalid |
| Credentials.MissingFromStatus | utils/credentials.py:93-110 | the missing list agrees with the status |
| Credentials.OptionalMissingFromStatus | utils/credentials.py:93-121 | the optional missing list agrees with the status |
| Credentials.LoadCredentials | utils/credentials.py:129-207 | a non-empty environment variable overrides its field; other fields keep the file's values |
| Credentials.BrokenSectionStopsLoading | utils/credentials.py:138-183 | a section that is not a mapping stops reading the file, keeping earlier sections |
| Credentials.SaveCredentials | utils/credentials.py:210-263 | the saved document is `version: 1` and one section per configured service |
| Credentials.SaveThenLoad | utils/credentials.py:138-263 | loading a saved file gives back every persisted field |
| Credentials.SaveWritesEnvironmentKey | utils/credentials.py:210-231 | a key taken from the environment is written to the file |
| Cache.Upsert | utils/cache.py:102-142 | the table keeps unique keys and maps the key to the new entry; a new key goes last, an existing key keeps its place and every other entry is unchanged |
| Cache.DeletedCountIsExisting | utils/cache.py:336-364 | the count is the number of selected files that exist |
| Cache.DemoCache.GetSelectors | utils/cache.py:75-100 | none without an entry or with a different given html hash, otherwise the stored selectors |
| Cache.DemoCache.CacheSelectors | utils/cache.py:102-142 | the entry is stored and read back |
| Cache.DemoCache.GetAudio | utils/cache.py:144-163 | the path when the file exists |
| Cache.DemoCache.CacheAudio | utils/cache.py:165-208 | keyed by text only: every voice finds the path |
| Cache.DemoCache.GetScreenshot | utils/cache.py:210-228 | the path when the file exists |
| Cache.DemoCache.CacheScreenshot | utils/cache.py:230-269 | the screenshot is stored and found again |
| Cache.DemoCache.Get | utils/cache.py:271-297 | the value until its TTL passes; an expired file is deleted |
| Cache.DemoCache.Set | utils/cache.py:299-334 | a TTL is stored only when truthy; the value is found until it passes and not after |
| Cache.DemoCache.Clear | utils/cache.py:336-364 | removes every entry of the type (all for none), keeps the others, returns the number of files deleted |
| Cache.DemoCache.DeleteSelectedFiles | utils/cache.py:347-357 | the first loop deletes the existing file of every selected entry, counts exactly those, lists the selected keys in order and leaves the table alone |
| Cache.DemoCache.PruneExpired | utils/cache.py:396-421 | removes exactly the expired entries and returns their number |
| Cache.DemoCache.GetStats | utils/cache.py:366-394 | the entry count, per-type counts summing to it and sizes summing to the total; the types are listed once each, in order of first appearance |
| Cache.KeptUnique | utils/cache.py:336-421 | removing entries keeps the keys unique |
| Cache.GlobalCache.GetVoiceSamples | utils/cache.py:435-449 | none when more than 86400 seconds old |
| Cache.GlobalCache.CacheVoiceSamples | utils/cache.py:451-462 | the samples are found until a day passes |

## Left out

- Pseudo-terminal and process plumbing is not modelled. This covers
  `openpty`, `select`, `os.read`, `Popen`, fork/exec and ioctl in both
  recorders. A run is a function from the command, directory and
  environment to the chunks read and the exit code.
- Sleeps, the progress display, printing and logging are not modelled.
  They change no state the model keeps.
- Randomness is an input: the typo decisions and wrong letters, and the
  backoff jitter draw.
- Threads and the parallel validation pool are not modelled.
- Floating point is not modelled. Times are whole milliseconds,
  percentages are integer cross-multiplications, and the usage report
  has no float percentage. The picture-in-picture scale is in
  thousandths, so `PipWidth` is the exact product rounded down, where the
  float product could round the other way.
- YAML and JSON text is not parsed or printed. Documents start parsed,
  and `json.dumps` is a parameter.
- Non-string YAML scalars in credential files are read as unset.
  Duplicate keys cannot arise in a parsed document.
- Network calls are not modelled. This covers the `validate_*` key checks
  of utils/credentials.py and the clients for the speech, avatar and
  storage services. So are `print_credentials_status` and
  `get_credentials_template`, and the `chmod` of the credentials file.
- Video rendering (moviepy and ffmpeg) is not modelled, and the
  sequential layout's clip timing with it. The model keeps the geometry
  and the layout dispatch.
- `HybridResult.to_dict`, `Manifest.get_file_path` and
  `ensure_subdirectory` only build paths or dictionaries and are not
  modelled.
- A manifest file that holds malformed JSON is not modelled.
- A narration file that cannot be read is not modelled.
- `play_audio` and the `discover_*` browser methods are not modelled.
- `get_stage_inputs` of utils/stage_cache.py reads files and is not
  modelled.
- The global context-monitor singleton is not modelled; `track_context`
  takes the monitor as an argument.
- Recommendation texts are not modelled: only which recommendations
  appear and in what order.
- `str.lower`, `str.upper`, `isalnum`, `isalpha`, `isdigit` and the `\w` of
  the placeholder pattern are modelled on ASCII characters; `isspace` and
  `\s` use Python's full whitespace set.
- `int(x, 16)` is modelled on slices of at most two characters.
- `sort_keys` ordering is modelled through the dictionary as a map, so the
  key order of nested objects is not a separate concern.
- The cache's metadata file and its lazy loading are not modelled: the
  table lives in memory.
- The cache's extra entry fields (text hash, voice id, duration, URL,
  action id) are not modelled.
- Cache time stamps are whole milliseconds, not fractional seconds.
- A `foreach` template is its own datatype rather than an optional list,
  so that termination of nested `foreach` steps can be shown by size.
- DemoScript.ParseStep: a step key given as YAML null is read as a
  missing key. The source keeps None, which differs only for
  `ignore_error_patterns: null`: checking that "run" step's output then
  raises TypeError (scripts/terminal_demo.py:348-350), where the model
  checks with no step patterns.
- DemoScript.ParseSettings: a settings key given as null is read as
  missing, so the default stays; the source stores None in the setting.
- DemoScript.LoadDemoScript: a top-level section given as null is read
  as missing; the source passes None to the section parser and fails.
- TerminalRecording.ClassifyActionCases: a `command` or `text` given as
  null is read as a missing key. The source tests only that the key is
  present (utils/terminal_recorder.py:535,541), so it keeps a command
  action or a typed action whose text is None, where the model drops the
  action or moves on to the next case.
- AudioPreview.GeneratePreviewFromNarration: a segment whose "text" is
  null is read as "". In the source `len(None)` raises TypeError, which
  the handler at utils/audio_preview.py:201-206 turns into a failed
  result.
- Cache.DemoCache.Set: with a TTL of 0 the file gets no TTL, so `get`
  never expires it, while the metadata keeps 0 and `prune_expired`
  removes it. The model keeps both behaviours as written
  (`Cache.ZeroTtlKeptByGetRemovedByPrune`) and does not claim which one
  is intended.
- Credentials.SaveCredentials: the docstring of `save_credentials` says
  values taken from the environment are not saved. The code saves every
  configured field, wherever it came from, and the model follows the code
  (`Credentials.SaveWritesEnvironmentKey`).

## Findings

| source | as written | input that shows it | evidently intended | confidence | as-written member | corrected member |
|---|---|---|---|---|---|---|
| scripts/terminal_demo.py:285-302 | the traversal ValueError is raised inside the `try` whose handler swallows any ValueError mentioning "different drives", so an escaping path whose own text contains those words is accepted | `validate_path("../different drives")` with the current directory `/home/demo` resolves to `/home/different drives` and is returned | only `os.path.commonpath`'s own Windows error should be swallowed; a relative path outside the base is always rejected | high, not executed | PathValidation.AsWrittenSkipsCheck | PathValidation.RelativeContained |

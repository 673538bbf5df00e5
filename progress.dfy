/** Pipeline progress tracking of utils/progress.py: the status of each
    stage, its start and end times, and the estimate of the time left.
    Times are whole milliseconds read from a clock passed in as `now`;
    durations shown to the user are whole seconds. */
module Progress {
  import opened Wrappers
  import opened Text

  datatype StageStatus = Pending | InProgress | Completed | Failed | Skipped

  /** The value of each status in the source's enumeration. */
  function StatusValue(s: StageStatus): string
  {
    match s
    case Pending => "pending"
    case InProgress => "in_progress"
    case Completed => "completed"
    case Failed => "failed"
    case Skipped => "skipped"
  }

  datatype StageProgress = StageProgress(
    name: string,
    status: StageStatus,
    startTime: Option<int>,
    endTime: Option<int>,
    estimatedDuration: Option<int>,
    substeps: seq<string>,
    currentSubstep: int,
    error: Option<string>)

  function NewStage(name: string, estimatedDuration: Option<int>, substeps: seq<string>): StageProgress
  {
    StageProgress(name, Pending, None, None, estimatedDuration, substeps, 0, None)
  }

  /** A number that Python treats as true. */
  predicate NonZero(x: Option<int>)
  {
    x.Some? && x.value != 0
  }

  /** `elapsed`: none before the start; otherwise up to the end time, or
      up to now while there is no (truthy) end time. */
  function Elapsed(s: StageProgress, now: int): (e: Option<int>)
    ensures e.None? <==> s.startTime.None?
    ensures e.Some? && NonZero(s.endTime) ==> e.value == s.endTime.value - s.startTime.value
    ensures e.Some? && !NonZero(s.endTime) ==> e.value == now - s.startTime.value
  {
    if s.startTime.None? then None
    else Some((if NonZero(s.endTime) then s.endTime.value else now) - s.startTime.value)
  }

  // ---------------------------------------------------------------------
  // Durations as text

  /** `_format_duration` on whole seconds: "Ns" under a minute, otherwise
      "Mm Ss", or "Mm" on a whole minute. */
  function FormatDuration(seconds: int): string
  {
    if seconds < 60 then IntToString(seconds) + "s"
    else if seconds % 60 > 0 then NatToString(seconds / 60) + "m" + " " + NatToString(seconds % 60) + "s"
    else NatToString(seconds / 60) + "m"
  }

  /** `elapsed_str` on whole seconds: like the duration, but always with
      the seconds once past a minute, and empty before the start. */
  function ElapsedStr(elapsedSeconds: Option<int>): string
  {
    if elapsedSeconds.None? then ""
    else if elapsedSeconds.value < 60 then IntToString(elapsedSeconds.value) + "s"
    else NatToString(elapsedSeconds.value / 60) + "m " + NatToString(elapsedSeconds.value % 60) + "s"
  }

  /** A number followed by its unit, as the duration text writes it. */
  function ParseUnit(p: string, unit: char, scale: nat): Option<nat>
  {
    if |p| >= 2 && p[|p| - 1] == unit && AllDigits(p[..|p| - 1]) then Some(scale * DigitsValue(p[..|p| - 1]))
    else None
  }

  /** Reads a duration text back into seconds. */
  function ParseDuration(t: string): Option<nat>
  {
    var parts := Split(t, ' ');
    if |parts| == 1 then
      if ParseUnit(parts[0], 's', 1).Some? then ParseUnit(parts[0], 's', 1) else ParseUnit(parts[0], 'm', 60)
    else if |parts| == 2 then
      match (ParseUnit(parts[0], 'm', 60), ParseUnit(parts[1], 's', 1))
      case (Some(m), Some(s)) => Some(m + s)
      case _ => None
    else None
  }

  lemma ParseNumberUnit(n: nat, unit: char, scale: nat)
    requires !IsDigit(unit)
    ensures ParseUnit(NatToString(n) + [unit], unit, scale) == Some(scale * n)
  {
    var p := NatToString(n) + [unit];
    assert p[..|p| - 1] == NatToString(n);
    NatToStringValue(n);
  }

  lemma SplitSingle(t: string)
    requires ' ' !in t
    ensures Split(t, ' ') == [t]
  {
    SplitJoin([t], ' ');
  }

  /** Every duration of a non-negative number of seconds reads back as
      that number: the text loses nothing, and the minutes and seconds
      parts are right. */
  lemma FormatDurationRoundTrip(seconds: nat)
    ensures ParseDuration(FormatDuration(seconds)) == Some(seconds)
  {
    if seconds < 60 {
      SecondsRoundTrip(seconds);
    } else if seconds % 60 > 0 {
      MinutesSecondsRoundTrip(seconds / 60, seconds % 60);
    } else {
      WholeMinutesRoundTrip(seconds / 60);
    }
  }

  lemma SecondsRoundTrip(seconds: nat)
    requires seconds < 60
    ensures ParseDuration(NatToString(seconds) + "s") == Some(seconds)
  {
    var t := NatToString(seconds) + ['s'];
    DigitsWithout(NatToString(seconds), ' ');
    SplitSingle(t);
    ParseNumberUnit(seconds, 's', 1);
  }

  lemma WholeMinutesRoundTrip(minutes: nat)
    ensures ParseDuration(NatToString(minutes) + "m") == Some(60 * minutes)
  {
    var a := NatToString(minutes) + ['m'];
    DigitsWithout(NatToString(minutes), ' ');
    SplitSingle(a);
    ParseNumberUnit(minutes, 'm', 60);
    assert a[|a| - 1] == 'm';
    assert ParseUnit(a, 's', 1).None?;
  }

  lemma MinutesSecondsRoundTrip(minutes: nat, secs: nat)
    ensures ParseDuration(NatToString(minutes) + "m" + " " + NatToString(secs) + "s") == Some(60 * minutes + secs)
  {
    var a := NatToString(minutes) + ['m'];
    var b := NatToString(secs) + ['s'];
    DigitsWithout(NatToString(minutes), ' ');
    DigitsWithout(NatToString(secs), ' ');
    assert Join([a, b], ' ') == a + [' '] + Join([b], ' ');
    assert NatToString(minutes) + "m" + " " + NatToString(secs) + "s" == Join([a, b], ' ');
    SplitJoin([a, b], ' ');
    ParseNumberUnit(minutes, 'm', 60);
    ParseNumberUnit(secs, 's', 1);
  }

  // ---------------------------------------------------------------------
  // Estimated time left

  /** What a stage at position i adds to the estimate: nothing before the
      current stage; the time left on its estimate while in progress;
      its whole estimate while pending. */
  function Contribution(s: StageProgress, i: int, current: int, now: int): int
  {
    if i < current then 0
    else if s.status == InProgress then
      if NonZero(s.estimatedDuration) then
        var elapsed := Elapsed(s, now);
        var e := if elapsed.Some? && elapsed.value != 0 then elapsed.value else 0;
        if s.estimatedDuration.value - e > 0 then s.estimatedDuration.value - e else 0
      else 0
    else if s.status == Pending then
      if NonZero(s.estimatedDuration) then s.estimatedDuration.value else 0
    else 0
  }

  /** The sum of the contributions of the first n stages. */
  function RemainingSum(stages: seq<StageProgress>, current: int, now: int, n: nat): int
    requires n <= |stages|
  {
    if n == 0 then 0 else RemainingSum(stages, current, now, n - 1) + Contribution(stages[n - 1], n - 1, current, now)
  }

  /** `estimated_remaining`: the sum, when it is positive. */
  function EstimatedRemaining(stages: seq<StageProgress>, current: int, now: int): Option<int>
  {
    var r := RemainingSum(stages, current, now, |stages|);
    if r > 0 then Some(r) else None
  }

  predicate NonNegativeEstimates(stages: seq<StageProgress>)
  {
    forall i :: 0 <= i < |stages| ==> stages[i].estimatedDuration.None? || stages[i].estimatedDuration.value >= 0
  }

  /** With non-negative estimates, every pending stage from the current
      one on counts in full, so the estimate is at least its duration. */
  lemma {:induction false} RemainingCoversPending(stages: seq<StageProgress>, current: int, now: int, n: nat, k: nat)
    requires n <= |stages| && NonNegativeEstimates(stages)
    requires current <= k < n && stages[k].status == Pending && NonZero(stages[k].estimatedDuration)
    ensures RemainingSum(stages, current, now, n) >= stages[k].estimatedDuration.value
  {
    if n - 1 != k {
      RemainingCoversPending(stages, current, now, n - 1, k);
    } else {
      RemainingNonNegative(stages, current, now, n - 1);
    }
  }

  lemma {:induction false} RemainingNonNegative(stages: seq<StageProgress>, current: int, now: int, n: nat)
    requires n <= |stages| && NonNegativeEstimates(stages)
    ensures RemainingSum(stages, current, now, n) >= 0
  {
    if n > 0 {
      RemainingNonNegative(stages, current, now, n - 1);
    }
  }

  /** Stages before the current one do not count: replacing one of them
      leaves the estimate as it was. */
  lemma {:induction false} EarlierStagesIgnored(stages: seq<StageProgress>, current: int, now: int, k: nat,
                                                s: StageProgress, n: nat)
    requires k < current && k < |stages| && n <= |stages|
    ensures RemainingSum(stages[k := s], current, now, n) == RemainingSum(stages, current, now, n)
  {
    if n > 0 {
      EarlierStagesIgnored(stages, current, now, k, s, n - 1);
    }
  }

  /** Finishing a stage (completing, failing or skipping it) never makes
      the estimate grow, given non-negative estimates. */
  lemma {:induction false} FinishingShrinksRemaining(stages: seq<StageProgress>, current: int, now: int, k: nat,
                                                     s: StageProgress, n: nat)
    requires k < |stages| && n <= |stages| && NonNegativeEstimates(stages)
    requires s.status == Completed || s.status == Failed || s.status == Skipped
    ensures RemainingSum(stages[k := s], current, now, n) <= RemainingSum(stages, current, now, n)
  {
    if n > 0 {
      FinishingShrinksRemaining(stages, current, now, k, s, n - 1);
      if n - 1 == k {
        assert Contribution(stages[k], k, current, now) >= 0;
      }
    }
  }

  // ---------------------------------------------------------------------
  // PipelineProgress

  /** Which stage `stages[i]` designates after the `i < len(stages)`
      guard: none (nothing happens), a position (a negative index counts
      from the end, as in Python), or an IndexError. */
  datatype Slot = NoStage | At(k: nat) | IndexError

  function SlotOf(i: int, n: nat): (r: Slot)
    ensures r.At? ==> r.k < n
  {
    if i >= n then NoStage
    else if i >= 0 then At(i)
    else if n + i >= 0 then At(n + i)
    else IndexError
  }

  function StartedStage(s: StageProgress, now: int): StageProgress
  {
    s.(status := InProgress, startTime := Some(now))
  }

  function CompletedStage(s: StageProgress, now: int): StageProgress
  {
    s.(status := Completed, endTime := Some(now))
  }

  function FailedStage(s: StageProgress, now: int, error: string): StageProgress
  {
    s.(status := Failed, endTime := Some(now), error := Some(error))
  }

  function SkippedStage(s: StageProgress): StageProgress
  {
    s.(status := Skipped)
  }

  /** A stage run to its end: started then completed, it has both times
      and counts nothing towards the estimate; started then failed, it
      also keeps the error. */
  lemma StageLifecycle(s: StageProgress, i: int, current: int, t0: int, t1: int, now: int, error: string)
    requires t1 != 0
    ensures var c := CompletedStage(StartedStage(s, t0), t1);
      c.status == Completed && c.startTime == Some(t0) && c.endTime == Some(t1) && c.error == s.error
      && Elapsed(c, now) == Some(t1 - t0) && Contribution(c, i, current, now) == 0
    ensures var f := FailedStage(StartedStage(s, t0), t1, error);
      f.status == Failed && f.startTime == Some(t0) && f.endTime == Some(t1) && f.error == Some(error)
      && Elapsed(f, now) == Some(t1 - t0) && Contribution(f, i, current, now) == 0
  {
  }

  class PipelineProgress {
    var stages: seq<StageProgress>
    var currentStage: int
    var startTime: Option<int>

    constructor ()
      ensures stages == [] && currentStage == 0 && startTime == None
    {
      stages := [];
      currentStage := 0;
      startTime := None;
    }

    /** `add_stage` */
    method AddStage(name: string, estimatedDuration: Option<int>, substeps: seq<string>)
      modifies this
      ensures stages == old(stages) + [NewStage(name, estimatedDuration, substeps)]
      ensures currentStage == old(currentStage) && startTime == old(startTime)
    {
      stages := stages + [NewStage(name, estimatedDuration, substeps)];
    }

    /** `start_stage`: returns false for the IndexError. */
    method StartStage(i: int, now: int) returns (ok: bool)
      modifies this
      ensures ok == !SlotOf(i, |old(stages)|).IndexError?
      ensures SlotOf(i, |old(stages)|).At? ==>
        var k := SlotOf(i, |old(stages)|).k;
        stages == old(stages)[k := StartedStage(old(stages)[k], now)] && currentStage == i
      ensures !SlotOf(i, |old(stages)|).At? ==> stages == old(stages) && currentStage == old(currentStage)
      ensures startTime == old(startTime)
    {
      var slot := SlotOf(i, |stages|);
      if slot.IndexError? {
        return false;
      }
      if slot.At? {
        stages := stages[slot.k := StartedStage(stages[slot.k], now)];
        currentStage := i;
      }
      return true;
    }

    /** `complete_stage` */
    method CompleteStage(i: int, now: int) returns (ok: bool)
      modifies this
      ensures ok == !SlotOf(i, |old(stages)|).IndexError?
      ensures SlotOf(i, |old(stages)|).At? ==>
        var k := SlotOf(i, |old(stages)|).k;
        stages == old(stages)[k := CompletedStage(old(stages)[k], now)]
      ensures !SlotOf(i, |old(stages)|).At? ==> stages == old(stages)
      ensures currentStage == old(currentStage) && startTime == old(startTime)
    {
      var slot := SlotOf(i, |stages|);
      if slot.IndexError? {
        return false;
      }
      if slot.At? {
        stages := stages[slot.k := CompletedStage(stages[slot.k], now)];
      }
      return true;
    }

    /** `fail_stage` */
    method FailStage(i: int, error: string, now: int) returns (ok: bool)
      modifies this
      ensures ok == !SlotOf(i, |old(stages)|).IndexError?
      ensures SlotOf(i, |old(stages)|).At? ==>
        var k := SlotOf(i, |old(stages)|).k;
        stages == old(stages)[k := FailedStage(old(stages)[k], now, error)]
      ensures !SlotOf(i, |old(stages)|).At? ==> stages == old(stages)
      ensures currentStage == old(currentStage) && startTime == old(startTime)
    {
      var slot := SlotOf(i, |stages|);
      if slot.IndexError? {
        return false;
      }
      if slot.At? {
        stages := stages[slot.k := FailedStage(stages[slot.k], now, error)];
      }
      return true;
    }

    /** `skip_stage`: only the status changes. */
    method SkipStage(i: int) returns (ok: bool)
      modifies this
      ensures ok == !SlotOf(i, |old(stages)|).IndexError?
      ensures SlotOf(i, |old(stages)|).At? ==>
        var k := SlotOf(i, |old(stages)|).k;
        stages == old(stages)[k := SkippedStage(old(stages)[k])]
      ensures !SlotOf(i, |old(stages)|).At? ==> stages == old(stages)
      ensures currentStage == old(currentStage) && startTime == old(startTime)
    {
      var slot := SlotOf(i, |stages|);
      if slot.IndexError? {
        return false;
      }
      if slot.At? {
        stages := stages[slot.k := SkippedStage(stages[slot.k])];
      }
      return true;
    }

    /** `update_substep` */
    method UpdateSubstep(i: int, substep: int) returns (ok: bool)
      modifies this
      ensures ok == !SlotOf(i, |old(stages)|).IndexError?
      ensures SlotOf(i, |old(stages)|).At? ==>
        var k := SlotOf(i, |old(stages)|).k;
        stages == old(stages)[k := old(stages)[k].(currentSubstep := substep)]
      ensures !SlotOf(i, |old(stages)|).At? ==> stages == old(stages)
      ensures currentStage == old(currentStage) && startTime == old(startTime)
    {
      var slot := SlotOf(i, |stages|);
      if slot.IndexError? {
        return false;
      }
      if slot.At? {
        stages := stages[slot.k := stages[slot.k].(currentSubstep := substep)];
      }
      return true;
    }

    /** `estimated_remaining` */
    method GetEstimatedRemaining(now: int) returns (r: Option<int>)
      ensures r == EstimatedRemaining(stages, currentStage, now)
    {
      var remaining := 0;
      var i := 0;
      while i < |stages|
        invariant i <= |stages|
        invariant remaining == RemainingSum(stages, currentStage, now, i)
      {
        var stage := stages[i];
        if i < currentStage {
        } else if stage.status == InProgress {
          if NonZero(stage.estimatedDuration) {
            var elapsed := Elapsed(stage, now);
            var e := if elapsed.Some? && elapsed.value != 0 then elapsed.value else 0;
            remaining := remaining + (if stage.estimatedDuration.value - e > 0 then stage.estimatedDuration.value - e else 0);
          }
        } else if stage.status == Pending {
          if NonZero(stage.estimatedDuration) {
            remaining := remaining + stage.estimatedDuration.value;
          }
        }
        i := i + 1;
      }
      r := if remaining > 0 then Some(remaining) else None;
    }
  }

  /** `ProgressContext`: starts the stage on entry; on exit completes it,
      or fails it with the exception's text; never suppresses the
      exception. */
  class ProgressContext {
    const pipeline: PipelineProgress
    const stageIndex: int

    constructor (pipeline: PipelineProgress, stageIndex: int)
      ensures this.pipeline == pipeline && this.stageIndex == stageIndex
    {
      this.pipeline := pipeline;
      this.stageIndex := stageIndex;
    }

    method Enter(now: int) returns (ok: bool)
      modifies pipeline
      ensures ok == !SlotOf(stageIndex, |old(pipeline.stages)|).IndexError?
      ensures SlotOf(stageIndex, |old(pipeline.stages)|).At? ==>
        var k := SlotOf(stageIndex, |old(pipeline.stages)|).k;
        pipeline.stages == old(pipeline.stages)[k := StartedStage(old(pipeline.stages)[k], now)]
        && pipeline.currentStage == stageIndex
      ensures !SlotOf(stageIndex, |old(pipeline.stages)|).At? ==>
        pipeline.stages == old(pipeline.stages) && pipeline.currentStage == old(pipeline.currentStage)
      ensures pipeline.startTime == old(pipeline.startTime)
    {
      ok := pipeline.StartStage(stageIndex, now);
    }

    /** `exception` is the text of the exception leaving the block, if
        any; the result is whether the exception is suppressed. */
    method Exit(exception: Option<string>, now: int) returns (suppress: bool)
      modifies pipeline
      ensures !suppress
      ensures SlotOf(stageIndex, |old(pipeline.stages)|).At? ==>
        var k := SlotOf(stageIndex, |old(pipeline.stages)|).k;
        pipeline.stages == old(pipeline.stages)[k :=
          if exception.Some? then FailedStage(old(pipeline.stages)[k], now, exception.value)
          else CompletedStage(old(pipeline.stages)[k], now)]
      ensures !SlotOf(stageIndex, |old(pipeline.stages)|).At? ==> pipeline.stages == old(pipeline.stages)
      ensures pipeline.currentStage == old(pipeline.currentStage) && pipeline.startTime == old(pipeline.startTime)
    {
      if exception.Some? {
        var _ := pipeline.FailStage(stageIndex, exception.value, now);
      } else {
        var _ := pipeline.CompleteStage(stageIndex, now);
      }
      suppress := false;
    }

    method UpdateSubstep(substep: int) returns (ok: bool)
      modifies pipeline
      ensures ok == !SlotOf(stageIndex, |old(pipeline.stages)|).IndexError?
      ensures SlotOf(stageIndex, |old(pipeline.stages)|).At? ==>
        var k := SlotOf(stageIndex, |old(pipeline.stages)|).k;
        pipeline.stages == old(pipeline.stages)[k := old(pipeline.stages)[k].(currentSubstep := substep)]
      ensures !SlotOf(stageIndex, |old(pipeline.stages)|).At? ==> pipeline.stages == old(pipeline.stages)
      ensures pipeline.currentStage == old(pipeline.currentStage) && pipeline.startTime == old(pipeline.startTime)
    {
      ok := pipeline.UpdateSubstep(stageIndex, substep);
    }
  }

  /** The stages of the demo pipeline with their estimated durations. */
  const DEMO_STAGES: seq<(string, int)> := [
    ("Outline", 30000), ("Discover Selectors", 60000), ("Script", 120000), ("Validate", 60000),
    ("Record", 180000), ("Narration", 60000), ("Preview", 30000), ("Adjust", 60000),
    ("Audio", 180000), ("Avatar", 300000), ("Composite", 120000), ("Upload", 30000)]

  const RECORD_SUBSTEPS: seq<string> := ["Scene 1", "Scene 2", "Scene 3", "Scene 4"]

  /** `create_demo_pipeline`: twelve pending stages, each with a positive
      estimate; only "Record" has substeps. */
  method CreateDemoPipeline() returns (p: PipelineProgress)
    ensures fresh(p)
    ensures |p.stages| == 12 && p.currentStage == 0
    ensures forall i :: 0 <= i < 12 ==>
      && p.stages[i].name == DEMO_STAGES[i].0
      && p.stages[i].status == Pending
      && p.stages[i].estimatedDuration == Some(DEMO_STAGES[i].1)
      && DEMO_STAGES[i].1 > 0
      && p.stages[i].substeps == (if i == 4 then RECORD_SUBSTEPS else [])
  {
    p := new PipelineProgress();
    var i := 0;
    while i < |DEMO_STAGES|
      invariant i <= |DEMO_STAGES| && |p.stages| == i && p.currentStage == 0
      invariant forall j :: 0 <= j < i ==>
        p.stages[j] == NewStage(DEMO_STAGES[j].0, Some(DEMO_STAGES[j].1), if j == 4 then RECORD_SUBSTEPS else [])
      modifies p
    {
      p.AddStage(DEMO_STAGES[i].0, Some(DEMO_STAGES[i].1), if i == 4 then RECORD_SUBSTEPS else []);
      i := i + 1;
    }
  }

  /** Before anything starts, the demo pipeline expects 20.5 minutes. */
  lemma DemoPipelineEstimate(stages: seq<StageProgress>, now: int)
    requires |stages| == 12
    requires forall i :: 0 <= i < 12 ==> stages[i] == NewStage(DEMO_STAGES[i].0, Some(DEMO_STAGES[i].1),
                                                               if i == 4 then RECORD_SUBSTEPS else [])
    ensures EstimatedRemaining(stages, 0, now) == Some(1230000)
  {
    assert RemainingSum(stages, 0, now, 1) == 30000;
    assert RemainingSum(stages, 0, now, 2) == 90000;
    assert RemainingSum(stages, 0, now, 3) == 210000;
    assert RemainingSum(stages, 0, now, 4) == 270000;
    assert RemainingSum(stages, 0, now, 5) == 450000;
    assert RemainingSum(stages, 0, now, 6) == 510000;
    assert RemainingSum(stages, 0, now, 7) == 540000;
    assert RemainingSum(stages, 0, now, 8) == 600000;
    assert RemainingSum(stages, 0, now, 9) == 780000;
    assert RemainingSum(stages, 0, now, 10) == 1080000;
    assert RemainingSum(stages, 0, now, 11) == 1200000;
  }
}

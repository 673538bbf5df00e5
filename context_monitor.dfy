/** Token accounting of utils/context_monitor.py: per-stage input and
    output counters, files read and written, and the budget checks against
    the context size. The float thresholds 0.7 and 0.9 are restated as
    integer cross-multiplications. */
module ContextMonitor {
  import opened Wrappers

  const MAX_CONTEXT: int := 200000
  /** The size of one stage above which splitting it is recommended. */
  const LARGE_STAGE: int := 50000
  /** The number of file reads above which targeted searches are recommended. */
  const MANY_READS: int := 20
  const DEFAULT_ESTIMATE: int := 1000

  /** The token estimates of common operations. */
  const ESTIMATED_TOKENS: map<string, int> := map[
    "screenshot_base64" := 500000, "screenshot_path" := 100, "dom_dump" := 50000,
    "selector_map" := 2000, "error_traceback" := 5000, "error_summary" := 500,
    "script_file" := 10000, "narration_json" := 2000, "manifest_json" := 1000]

  datatype ContextUsage = ContextUsage(
    stageName: string,
    inputTokens: int,
    outputTokens: int,
    filesRead: seq<string>,
    filesWritten: seq<string>)
  {
    function TotalTokens(): int
    {
      inputTokens + outputTokens
    }
  }

  function NewUsage(stage: string): ContextUsage
  {
    ContextUsage(stage, 0, 0, [], [])
  }

  /** `usage / maxContext > num / den`, for a non-zero context size. */
  predicate RatioAbove(usage: int, maxContext: int, num: int, den: int)
    requires maxContext != 0 && den > 0
  {
    if maxContext > 0 then den * usage > num * maxContext else den * usage < num * maxContext
  }

  /** `check_budget`: false exactly when usage is above 90% of the context. */
  predicate WithinBudget(usage: int, maxContext: int)
    requires maxContext != 0
  {
    !RatioAbove(usage, maxContext, 9, 10)
  }

  /** `can_fit`: the projected usage stays below 90% of the context. */
  predicate Fits(usage: int, tokens: int, maxContext: int)
  {
    10 * (usage + tokens) < 9 * maxContext
  }

  /** `get_remaining` */
  function Remaining(usage: int, maxContext: int): (r: int)
    ensures r >= 0 && r >= maxContext - usage
    ensures r == 0 || r == maxContext - usage
  {
    if maxContext - usage > 0 then maxContext - usage else 0
  }

  /** `estimate_operation` */
  function EstimateOperation(operation: string): (n: int)
    ensures operation in ESTIMATED_TOKENS ==> n == ESTIMATED_TOKENS[operation]
    ensures operation !in ESTIMATED_TOKENS ==> n == DEFAULT_ESTIMATE
  {
    if operation in ESTIMATED_TOKENS then ESTIMATED_TOKENS[operation] else DEFAULT_ESTIMATE
  }

  /** With a positive context: whatever fits leaves the budget intact,
      an exceeded budget fits nothing more, and a used-up context fits
      nothing. */
  lemma BudgetAndFit(usage: int, tokens: int, maxContext: int)
    requires maxContext > 0 && tokens >= 0
    ensures Fits(usage, tokens, maxContext) ==> WithinBudget(usage + tokens, maxContext) && WithinBudget(usage, maxContext)
    ensures !WithinBudget(usage, maxContext) ==> !Fits(usage, tokens, maxContext)
    ensures Remaining(usage, maxContext) == 0 ==> !Fits(usage, tokens, maxContext)
  {
  }

  /** What `get_recommendations` recommends (the wording of each message
      is not modelled). */
  datatype Recommendation =
    | HighUsage
    | SplitStage(name: string, tokens: int)
    | TargetedSearches(count: int)

  /** The recommendations for the large stages among the first n, in
      stage order. */
  function LargeStages(stages: map<string, ContextUsage>, order: seq<string>, n: nat): seq<Recommendation>
    requires n <= |order| && forall i :: 0 <= i < |order| ==> order[i] in stages
  {
    if n == 0 then []
    else
      var s := order[n - 1];
      LargeStages(stages, order, n - 1) +
      (if stages[s].TotalTokens() > LARGE_STAGE then [SplitStage(s, stages[s].TotalTokens())] else [])
  }

  /** Exactly the stages above the size limit get a recommendation, with
      their token count. */
  lemma {:induction false} LargeStagesSpec(stages: map<string, ContextUsage>, order: seq<string>, n: nat)
    requires n <= |order| && forall i :: 0 <= i < |order| ==> order[i] in stages
    ensures forall r :: r in LargeStages(stages, order, n) ==>
      r.SplitStage? && r.name in order[..n] && r.tokens == stages[r.name].TotalTokens() && r.tokens > LARGE_STAGE
    ensures forall i :: 0 <= i < n && stages[order[i]].TotalTokens() > LARGE_STAGE ==>
      SplitStage(order[i], stages[order[i]].TotalTokens()) in LargeStages(stages, order, n)
  {
    if n > 0 {
      LargeStagesSpec(stages, order, n - 1);
      assert order[..n] == order[..n - 1] + [order[n - 1]];
    }
  }

  /** The number of files read over the first n stages. */
  function TotalReads(stages: map<string, ContextUsage>, order: seq<string>, n: nat): nat
    requires n <= |order| && forall i :: 0 <= i < |order| ==> order[i] in stages
  {
    if n == 0 then 0 else TotalReads(stages, order, n - 1) + |stages[order[n - 1]].filesRead|
  }

  /** The recommendations: high usage first, then large stages in order,
      then many reads. */
  function Recommendations(stages: map<string, ContextUsage>, order: seq<string>, usage: int, maxContext: int)
    : seq<Recommendation>
    requires maxContext != 0
    requires forall i :: 0 <= i < |order| ==> order[i] in stages
  {
    (if RatioAbove(usage, maxContext, 7, 10) then [HighUsage] else []) +
    LargeStages(stages, order, |order|) +
    (if TotalReads(stages, order, |order|) > MANY_READS then [TargetedSearches(TotalReads(stages, order, |order|))] else [])
  }

  /** The per-stage part of `get_usage_report`. */
  datatype StageReport = StageReport(inputTokens: int, outputTokens: int, totalTokens: int, filesRead: nat, filesWritten: nat)

  datatype UsageReport = UsageReport(
    totalTokens: int,
    maxContext: int,
    remainingTokens: int,
    stages: map<string, StageReport>)

  function StageReportOf(u: ContextUsage): (r: StageReport)
    ensures r.totalTokens == r.inputTokens + r.outputTokens
    ensures r.filesRead == |u.filesRead| && r.filesWritten == |u.filesWritten|
  {
    StageReport(u.inputTokens, u.outputTokens, u.TotalTokens(), |u.filesRead|, |u.filesWritten|)
  }

  /** Two updates of the same stage leave only the last. */
  lemma UpdatedTwice(m: map<string, ContextUsage>, stage: string, m2: map<string, ContextUsage>, u: ContextUsage)
    requires stage in m2 && m2[stage] == u
    requires m2 == (if stage in m then m else m[stage := NewUsage(stage)])[stage := u]
    ensures m2 == m[stage := u]
  {
  }

  class ContextMonitor {
    const maxContext: int
    var stages: map<string, ContextUsage>
    /** The stages in the order the dictionary first received them. */
    var order: seq<string>
    var totalInput: int
    var totalOutput: int

    ghost predicate Valid()
      reads this
    {
      maxContext != 0 &&
      (forall i :: 0 <= i < |order| ==> order[i] in stages) &&
      (forall s :: s in stages ==> s in order) &&
      (forall i, j :: 0 <= i < j < |order| ==> order[i] != order[j])
    }

    /** `max_context or MAX_CONTEXT`: an absent or zero size gives the
        default. */
    constructor (maxContext: Option<int>)
      ensures Valid()
      ensures this.maxContext == if maxContext.Some? && maxContext.value != 0 then maxContext.value else MAX_CONTEXT
      ensures stages == map[] && order == [] && totalInput == 0 && totalOutput == 0
    {
      this.maxContext := if maxContext.Some? && maxContext.value != 0 then maxContext.value else MAX_CONTEXT;
      stages := map[];
      order := [];
      totalInput := 0;
      totalOutput := 0;
    }

    function Usage(): int
      reads this
    {
      totalInput + totalOutput
    }

    /** `start_stage`: the stage's counters start again from zero; the
        totals are kept. */
    method StartStage(stage: string)
      requires Valid()
      modifies this
      ensures Valid()
      ensures stages == old(stages)[stage := NewUsage(stage)]
      ensures order == if stage in old(stages) then old(order) else old(order) + [stage]
      ensures totalInput == old(totalInput) && totalOutput == old(totalOutput)
    {
      if stage !in stages {
        order := order + [stage];
      }
      stages := stages[stage := NewUsage(stage)];
    }

    method EnsureStage(stage: string)
      requires Valid()
      modifies this
      ensures Valid() && stage in stages
      ensures stages == if stage in old(stages) then old(stages) else old(stages)[stage := NewUsage(stage)]
      ensures order == if stage in old(stages) then old(order) else old(order) + [stage]
      ensures totalInput == old(totalInput) && totalOutput == old(totalOutput)
    {
      if stage !in stages {
        StartStage(stage);
      }
    }

    /** Replaces the counters of a stage already present. */
    method ReplaceUsage(stage: string, u: ContextUsage)
      requires Valid() && stage in stages
      modifies this
      ensures Valid() && stage in stages
      ensures stages == old(stages)[stage := u] && order == old(order)
      ensures totalInput == old(totalInput) && totalOutput == old(totalOutput)
    {
      stages := stages[stage := u];
    }

    /** `check_budget` */
    method CheckBudget() returns (ok: bool)
      requires Valid()
      ensures ok == WithinBudget(Usage(), maxContext)
    {
      var usage := totalInput + totalOutput;
      if RatioAbove(usage, maxContext, 9, 10) {
        return false;
      } else if RatioAbove(usage, maxContext, 7, 10) {
        return true;
      }
      return true;
    }

    /** `add_input`: the stage (created if missing) and the total both
        grow by exactly `tokens`. */
    method AddInput(stage: string, tokens: int) returns (ok: bool)
      requires Valid()
      modifies this
      ensures Valid() && stage in stages
      ensures var before := if stage in old(stages) then old(stages)[stage] else NewUsage(stage);
        stages == old(stages)[stage := before.(inputTokens := before.inputTokens + tokens)]
      ensures order == if stage in old(stages) then old(order) else old(order) + [stage]
      ensures totalInput == old(totalInput) + tokens && totalOutput == old(totalOutput)
      ensures ok == WithinBudget(Usage(), maxContext)
    {
      EnsureStage(stage);
      var u := stages[stage];
      stages := stages[stage := u.(inputTokens := u.inputTokens + tokens)];
      totalInput := totalInput + tokens;
      ok := CheckBudget();
    }

    /** `add_output` */
    method AddOutput(stage: string, tokens: int) returns (ok: bool)
      requires Valid()
      modifies this
      ensures Valid() && stage in stages
      ensures var before := if stage in old(stages) then old(stages)[stage] else NewUsage(stage);
        stages == old(stages)[stage := before.(outputTokens := before.outputTokens + tokens)]
      ensures order == if stage in old(stages) then old(order) else old(order) + [stage]
      ensures totalOutput == old(totalOutput) + tokens && totalInput == old(totalInput)
      ensures ok == WithinBudget(Usage(), maxContext)
    {
      EnsureStage(stage);
      var u := stages[stage];
      stages := stages[stage := u.(outputTokens := u.outputTokens + tokens)];
      totalOutput := totalOutput + tokens;
      ok := CheckBudget();
    }

    /** Appends a path to the files read by a stage (created if missing). */
    method NoteRead(stage: string, path: string)
      requires Valid()
      modifies this
      ensures Valid() && stage in stages
      ensures var before := if stage in old(stages) then old(stages)[stage] else NewUsage(stage);
        stages == old(stages)[stage := before.(filesRead := before.filesRead + [path])]
      ensures order == if stage in old(stages) then old(order) else old(order) + [stage]
      ensures totalInput == old(totalInput) && totalOutput == old(totalOutput)
    {
      ghost var s0 := stages;
      ghost var before := if stage in stages then stages[stage] else NewUsage(stage);
      EnsureStage(stage);
      var u := stages[stage];
      assert u == before;
      ReplaceUsage(stage, u.(filesRead := u.filesRead + [path]));
      UpdatedTwice(s0, stage, stages, before.(filesRead := before.filesRead + [path]));
    }

    /** `add_file_read`: the path is always recorded; tokens are added
        only when an estimate is given and non-zero. */
    method AddFileRead(stage: string, path: string, estimatedTokens: Option<int>) returns (ok: bool)
      requires Valid()
      modifies this
      ensures Valid() && stage in stages
      ensures var before := if stage in old(stages) then old(stages)[stage] else NewUsage(stage);
        var added := if estimatedTokens.Some? then estimatedTokens.value else 0;
        stages == old(stages)[stage := before.(filesRead := before.filesRead + [path],
                                               inputTokens := before.inputTokens + added)]
        && totalInput == old(totalInput) + added
      ensures order == if stage in old(stages) then old(order) else old(order) + [stage]
      ensures totalOutput == old(totalOutput)
      ensures ok == WithinBudget(Usage(), maxContext)
    {
      NoteRead(stage, path);
      if estimatedTokens.Some? && estimatedTokens.value != 0 {
        ok := AddInput(stage, estimatedTokens.value);
      } else {
        ok := CheckBudget();
      }
    }

    /** Appends a path to the files written by a stage (created if missing). */
    method NoteWrite(stage: string, path: string)
      requires Valid()
      modifies this
      ensures Valid() && stage in stages
      ensures var before := if stage in old(stages) then old(stages)[stage] else NewUsage(stage);
        stages == old(stages)[stage := before.(filesWritten := before.filesWritten + [path])]
      ensures order == if stage in old(stages) then old(order) else old(order) + [stage]
      ensures totalInput == old(totalInput) && totalOutput == old(totalOutput)
    {
      ghost var s0 := stages;
      ghost var before := if stage in stages then stages[stage] else NewUsage(stage);
      EnsureStage(stage);
      var u := stages[stage];
      assert u == before;
      ReplaceUsage(stage, u.(filesWritten := u.filesWritten + [path]));
      UpdatedTwice(s0, stage, stages, before.(filesWritten := before.filesWritten + [path]));
    }

    /** `add_file_write` */
    method AddFileWrite(stage: string, path: string, estimatedTokens: Option<int>) returns (ok: bool)
      requires Valid()
      modifies this
      ensures Valid() && stage in stages
      ensures var before := if stage in old(stages) then old(stages)[stage] else NewUsage(stage);
        var added := if estimatedTokens.Some? then estimatedTokens.value else 0;
        stages == old(stages)[stage := before.(filesWritten := before.filesWritten + [path],
                                               outputTokens := before.outputTokens + added)]
        && totalOutput == old(totalOutput) + added
      ensures order == if stage in old(stages) then old(order) else old(order) + [stage]
      ensures totalInput == old(totalInput)
      ensures ok == WithinBudget(Usage(), maxContext)
    {
      NoteWrite(stage, path);
      if estimatedTokens.Some? && estimatedTokens.value != 0 {
        ok := AddOutput(stage, estimatedTokens.value);
      } else {
        ok := CheckBudget();
      }
    }

    /** `can_fit` */
    method CanFit(tokens: int) returns (fits: bool)
      ensures fits == Fits(Usage(), tokens, maxContext)
    {
      var current := totalInput + totalOutput;
      fits := 10 * (current + tokens) < 9 * maxContext;
    }

    /** `get_remaining` */
    method GetRemaining() returns (r: int)
      ensures r == Remaining(Usage(), maxContext)
    {
      var current := totalInput + totalOutput;
      r := if maxContext - current > 0 then maxContext - current else 0;
    }

    /** `get_usage_report` (without the float percentage). */
    method UsageReportOf() returns (report: UsageReport)
      requires Valid()
      ensures report.totalTokens == Usage() && report.maxContext == maxContext
      ensures report.remainingTokens == Remaining(Usage(), maxContext)
      ensures report.stages.Keys == stages.Keys
      ensures forall s :: s in stages ==> report.stages[s] == StageReportOf(stages[s])
    {
      var remaining := GetRemaining();
      report := UsageReport(totalInput + totalOutput, maxContext, remaining,
                            map s | s in stages :: StageReportOf(stages[s]));
    }

    /** `get_recommendations` */
    method GetRecommendations() returns (recs: seq<Recommendation>)
      requires Valid()
      ensures recs == Recommendations(stages, order, Usage(), maxContext)
    {
      recs := [];
      var total := totalInput + totalOutput;
      if RatioAbove(total, maxContext, 7, 10) {
        recs := recs + [HighUsage];
      }
      var head := recs;
      var i := 0;
      while i < |order|
        invariant i <= |order|
        invariant recs == head + LargeStages(stages, order, i)
      {
        var u := stages[order[i]];
        if u.TotalTokens() > LARGE_STAGE {
          recs := recs + [SplitStage(order[i], u.TotalTokens())];
        }
        i := i + 1;
      }
      var readCount := 0;
      i := 0;
      while i < |order|
        invariant i <= |order|
        invariant readCount == TotalReads(stages, order, i)
      {
        readCount := readCount + |stages[order[i]].filesRead|;
        i := i + 1;
      }
      if readCount > MANY_READS {
        recs := recs + [TargetedSearches(readCount)];
      }
    }

    /** `track_context`: adds the given tokens, or the operation's
        estimate when none are given, as input. */
    method TrackContext(stage: string, operation: string, tokens: Option<int>) returns (ok: bool)
      requires Valid()
      modifies this
      ensures Valid() && stage in stages
      ensures totalInput == old(totalInput) + (if tokens.Some? then tokens.value else EstimateOperation(operation))
      ensures totalOutput == old(totalOutput)
      ensures ok == WithinBudget(Usage(), maxContext)
    {
      var n := if tokens.Some? then tokens.value else EstimateOperation(operation);
      ok := AddInput(stage, n);
    }
  }

  /** A stage's usage after any sequence of additions is what was added
      to it: the input and output counters add up to its total. */
  lemma UsageTotals(u: ContextUsage, input: int, output: int)
    ensures u.(inputTokens := u.inputTokens + input, outputTokens := u.outputTokens + output).TotalTokens()
            == u.TotalTokens() + input + output
  {
  }

  /** Over the default context, 180000 tokens are within budget and
      180001 are not; 140001 only warn. */
  lemma BudgetThresholds()
    ensures WithinBudget(180000, MAX_CONTEXT) && !WithinBudget(180001, MAX_CONTEXT)
    ensures WithinBudget(140001, MAX_CONTEXT) && RatioAbove(140001, MAX_CONTEXT, 7, 10)
    ensures Fits(0, 179999, MAX_CONTEXT) && !Fits(0, 180000, MAX_CONTEXT)
  {
  }
}

/** The pipeline manifest of utils/manifest.py: the stages completed and
    failed, each stage's outputs and the error records, kept in memory and
    written to the manifest file after every change. The file is modelled
    by its last written content (`stored`); times are passed in. */
module Manifest {
  import opened Wrappers
  import opened Text
  import opened Json

  const BRAND_VOICE_PATH: string := ".demo/templates/narration-voice.md"

  datatype ErrorRecord = ErrorRecord(
    stage: int,
    step: Option<string>,
    errorType: string,
    errorMessage: string,
    suggestedFix: Option<string>,
    partialResults: Option<Json>,
    screenshotPath: Option<string>,
    domSnapshotPath: Option<string>,
    timestamp: string)

  datatype ManifestData = ManifestData(
    demoId: string,
    linearIssue: Option<string>,
    gitSha: Option<string>,
    gitBranch: Option<string>,
    createdAt: string,
    currentStage: int,
    completedStages: seq<int>,
    failedStages: seq<int>,
    stageOutputs: map<string, Json>,
    errors: seq<ErrorRecord>,
    brandVoicePath: string,
    lastRefreshed: Option<string>)

  /** Why a manifest operation raises. */
  datatype ManifestError = FileNotFound | NotInitialized

  /** The data `initialize` writes. */
  function InitialData(demoId: string, linearIssue: Option<string>, gitSha: Option<string>,
                       gitBranch: Option<string>, createdAt: string): (d: ManifestData)
    ensures d.currentStage == 0 && d.completedStages == [] && d.failedStages == []
    ensures d.stageOutputs == map[] && d.errors == [] && d.lastRefreshed == None
    ensures d.demoId == demoId && d.linearIssue == linearIssue && d.gitSha == gitSha && d.gitBranch == gitBranch
  {
    ManifestData(demoId, linearIssue, gitSha, gitBranch, createdAt, 0, [], [], map[], [], BRAND_VOICE_PATH, None)
  }

  /** `list.remove`: drops the first occurrence; the caller checks that
      there is one. */
  function RemoveFirst(xs: seq<int>, x: int): (r: seq<int>)
    ensures x in xs ==> |r| == |xs| - 1 && multiset(r) == multiset(xs) - multiset{x}
    ensures x !in xs ==> r == xs
    ensures forall y :: y in r ==> y in xs
  {
    if xs == [] then []
    else
      assert xs == [xs[0]] + xs[1..];
      if xs[0] == x then xs[1..]
      else [xs[0]] + RemoveFirst(xs[1..], x)
  }

  predicate NoDuplicates(xs: seq<int>)
  {
    forall i, j :: 0 <= i < j < |xs| ==> xs[i] != xs[j]
  }

  /** The key of a stage's outputs: `str(stage)`. */
  function StageKey(stage: int): string
  {
    IntToString(stage)
  }

  /** `complete_stage` on the data. */
  function CompleteStageData(d: ManifestData, stage: int, outputs: Json): ManifestData
  {
    d.(completedStages := if stage in d.completedStages then d.completedStages else d.completedStages + [stage],
       failedStages := if stage in d.failedStages then RemoveFirst(d.failedStages, stage) else d.failedStages,
       stageOutputs := d.stageOutputs[StageKey(stage) := outputs])
  }

  /** `fail_stage` on the data. */
  function FailStageData(d: ManifestData, record: ErrorRecord): ManifestData
  {
    d.(failedStages := if record.stage in d.failedStages then d.failedStages else d.failedStages + [record.stage],
       errors := d.errors + [record])
  }

  /** `get_stage_output` on the data. */
  function StageOutput(d: ManifestData, stage: int): Option<Json>
  {
    if StageKey(stage) in d.stageOutputs then Some(d.stageOutputs[StageKey(stage)]) else None
  }

  /** Completing a stage: it is completed once, no longer failed (when
      the failed list had no repeats), its outputs are the new ones, and
      the lists keep having no repeats. */
  lemma CompleteStageSpec(d: ManifestData, stage: int, outputs: Json)
    requires NoDuplicates(d.completedStages) && NoDuplicates(d.failedStages)
    ensures var d' := CompleteStageData(d, stage, outputs);
      && stage in d'.completedStages
      && stage !in d'.failedStages
      && NoDuplicates(d'.completedStages) && NoDuplicates(d'.failedStages)
      && StageOutput(d', stage) == Some(outputs)
      && (forall s :: s in d.completedStages ==> s in d'.completedStages)
      && (forall s :: s != stage ==> (s in d'.failedStages <==> s in d.failedStages))
      && d'.errors == d.errors && d'.currentStage == d.currentStage
  {
    var d' := CompleteStageData(d, stage, outputs);
    if stage in d.failedStages {
      RemoveFirstNoDuplicates(d.failedStages, stage);
    }
    forall s | s != stage
      ensures s in d'.failedStages <==> s in d.failedStages
    {
      if stage in d.failedStages {
        assert multiset(d'.failedStages) == multiset(d.failedStages) - multiset{stage};
        assert s in d'.failedStages <==> s in multiset(d'.failedStages);
        assert s in d.failedStages <==> s in multiset(d.failedStages);
      }
    }
  }

  lemma {:induction false} RemoveFirstNoDuplicates(xs: seq<int>, x: int)
    requires NoDuplicates(xs) && x in xs
    ensures x !in RemoveFirst(xs, x) && NoDuplicates(RemoveFirst(xs, x))
  {
    if xs[0] == x {
      assert forall k :: 0 <= k < |xs[1..]| ==> xs[1..][k] == xs[k + 1];
    } else {
      var rest := RemoveFirst(xs[1..], x);
      RemoveFirstNoDuplicates(xs[1..], x);
      assert xs[0] !in xs[1..];
      assert xs[0] !in rest;
      var r := [xs[0]] + rest;
      forall i, j | 0 <= i < j < |r|
        ensures r[i] != r[j]
      {
        if i == 0 {
          assert r[j] == rest[j - 1];
        } else {
          assert r[i] == rest[i - 1] && r[j] == rest[j - 1];
        }
      }
    }
  }

  /** Failing a stage: it is failed once, exactly one error record is
      added, and nothing else changes. */
  lemma FailStageSpec(d: ManifestData, record: ErrorRecord)
    requires NoDuplicates(d.failedStages)
    ensures var d' := FailStageData(d, record);
      && record.stage in d'.failedStages && NoDuplicates(d'.failedStages)
      && d'.errors == d.errors + [record] && |d'.errors| == |d.errors| + 1
      && d'.completedStages == d.completedStages && d'.stageOutputs == d.stageOutputs
  {
  }

  /** `str` is one-to-one on integers, so one stage's outputs never land
      under another stage's key. */
  lemma StageKeyInjective(a: int, b: int)
    requires StageKey(a) == StageKey(b)
    ensures a == b
  {
    if a >= 0 && b >= 0 {
      NatToStringValue(a);
      NatToStringValue(b);
    } else if a < 0 && b < 0 {
      assert StageKey(a)[1..] == NatToString(-a);
      assert StageKey(b)[1..] == NatToString(-b);
      NatToStringValue(-a);
      NatToStringValue(-b);
    } else {
      KeySign(a);
      KeySign(b);
      assert false;
    }
  }

  /** Only negative stages have keys that start with a minus sign. */
  lemma KeySign(stage: int)
    ensures |StageKey(stage)| >= 1 && (StageKey(stage)[0] == '-' <==> stage < 0)
  {
    if stage >= 0 {
      assert IsDigit(NatToString(stage)[0]);
    }
  }

  /** Completing one stage leaves every other stage's outputs as they
      were. */
  lemma CompleteKeepsOtherOutputs(d: ManifestData, stage: int, outputs: Json, other: int)
    requires other != stage
    ensures StageOutput(CompleteStageData(d, stage, outputs), other) == StageOutput(d, other)
  {
    if StageKey(other) == StageKey(stage) {
      StageKeyInjective(other, stage);
    }
  }

  class Manifest {
    const demoId: string
    /** The in-memory `_data`. */
    var data: Option<ManifestData>
    /** The manifest file: its content as last written, or none. */
    var stored: Option<ManifestData>

    constructor (demoId: string, stored: Option<ManifestData>)
      ensures this.demoId == demoId && data == None && this.stored == stored
    {
      this.demoId := demoId;
      data := None;
      this.stored := stored;
    }

    /** `initialize` */
    method Initialize(linearIssue: Option<string>, gitSha: Option<string>, gitBranch: Option<string>, now: string)
      modifies this
      ensures data == Some(InitialData(demoId, linearIssue, gitSha, gitBranch, now)) && stored == data
    {
      data := Some(InitialData(demoId, linearIssue, gitSha, gitBranch, now));
      var _ := Save();
    }

    /** `load`: FileNotFound when there is no manifest file. */
    method Load() returns (r: Result<ManifestData, ManifestError>)
      modifies this
      ensures old(stored).None? ==> r == Failure(FileNotFound) && data == old(data)
      ensures old(stored).Some? ==> r == Success(old(stored).value) && data == old(stored)
      ensures stored == old(stored)
    {
      if stored.None? {
        return Failure(FileNotFound);
      }
      data := stored;
      return Success(stored.value);
    }

    /** `_save`: NotInitialized before `initialize` or `load`. */
    method Save() returns (err: Option<ManifestError>)
      modifies this
      ensures old(data).None? ==> err == Some(NotInitialized) && stored == old(stored)
      ensures old(data).Some? ==> err == None && stored == old(data)
      ensures data == old(data)
    {
      if data.None? {
        return Some(NotInitialized);
      }
      stored := data;
      return None;
    }

    /** The `data` property: the data, loading it first when needed. */
    method Data() returns (r: Result<ManifestData, ManifestError>)
      modifies this
      ensures old(data).Some? ==> r == Success(old(data).value) && data == old(data)
      ensures old(data).None? && old(stored).None? ==> r == Failure(FileNotFound) && data == None
      ensures old(data).None? && old(stored).Some? ==> r == Success(old(stored).value) && data == old(stored)
      ensures stored == old(stored)
      ensures r.Success? ==> data == Some(r.value)
    {
      if data.None? {
        r := Load();
        return;
      }
      return Success(data.value);
    }

    /** Replaces the data and writes it out. */
    method Update(d: ManifestData)
      modifies this
      ensures data == Some(d) && stored == Some(d)
    {
      data := Some(d);
      var _ := Save();
    }

    /** `start_stage` */
    method StartStage(stage: int) returns (err: Option<ManifestError>)
      modifies this
      ensures var cur := if old(data).Some? then old(data) else old(stored);
        && (cur.None? ==> err == Some(FileNotFound) && data == old(data) && stored == old(stored))
        && (cur.Some? ==> err == None && data == Some(cur.value.(currentStage := stage)) && stored == data)
    {
      var r := Data();
      if r.Failure? {
        return Some(r.error);
      }
      Update(r.value.(currentStage := stage));
      return None;
    }

    /** `complete_stage` */
    method CompleteStage(stage: int, outputs: Json) returns (err: Option<ManifestError>)
      modifies this
      ensures var cur := if old(data).Some? then old(data) else old(stored);
        && (cur.None? ==> err == Some(FileNotFound) && data == old(data) && stored == old(stored))
        && (cur.Some? ==> err == None && data == Some(CompleteStageData(cur.value, stage, outputs)) && stored == data)
    {
      var r := Data();
      if r.Failure? {
        return Some(r.error);
      }
      var d := r.value;
      var completed := d.completedStages;
      if stage !in completed {
        completed := completed + [stage];
      }
      var failed := d.failedStages;
      if stage in failed {
        failed := RemoveFirst(failed, stage);
      }
      Update(d.(completedStages := completed, failedStages := failed,
                stageOutputs := d.stageOutputs[StageKey(stage) := outputs]));
      return None;
    }

    /** `fail_stage`: `now` stamps the error record. */
    method FailStage(stage: int, errorType: string, errorMessage: string, step: Option<string>,
                     suggestedFix: Option<string>, partialResults: Option<Json>,
                     screenshotPath: Option<string>, domSnapshotPath: Option<string>, now: string)
      returns (err: Option<ManifestError>)
      modifies this
      ensures var cur := if old(data).Some? then old(data) else old(stored);
        var record := ErrorRecord(stage, step, errorType, errorMessage, suggestedFix, partialResults,
                                  screenshotPath, domSnapshotPath, now);
        && (cur.None? ==> err == Some(FileNotFound) && data == old(data) && stored == old(stored))
        && (cur.Some? ==> err == None && data == Some(FailStageData(cur.value, record)) && stored == data)
    {
      var r := Data();
      if r.Failure? {
        return Some(r.error);
      }
      var d := r.value;
      var failed := d.failedStages;
      if stage !in failed {
        failed := failed + [stage];
      }
      var record := ErrorRecord(stage, step, errorType, errorMessage, suggestedFix, partialResults,
                                screenshotPath, domSnapshotPath, now);
      Update(d.(failedStages := failed, errors := d.errors + [record]));
      return None;
    }

    /** `get_stage_output` */
    method GetStageOutput(stage: int) returns (r: Result<Option<Json>, ManifestError>)
      modifies this
      ensures var cur := if old(data).Some? then old(data) else old(stored);
        && (cur.None? ==> r == Failure(FileNotFound))
        && (cur.Some? ==> r == Success(StageOutput(cur.value, stage)))
      ensures stored == old(stored)
    {
      var d := Data();
      if d.Failure? {
        return Failure(d.error);
      }
      var key := StageKey(stage);
      if key in d.value.stageOutputs {
        return Success(Some(d.value.stageOutputs[key]));
      }
      return Success(None);
    }

    /** `is_stage_completed` */
    method IsStageCompleted(stage: int) returns (r: Result<bool, ManifestError>)
      modifies this
      ensures var cur := if old(data).Some? then old(data) else old(stored);
        && (cur.None? ==> r == Failure(FileNotFound))
        && (cur.Some? ==> r == Success(stage in cur.value.completedStages))
      ensures stored == old(stored)
    {
      var d := Data();
      if d.Failure? {
        return Failure(d.error);
      }
      return Success(stage in d.value.completedStages);
    }

    /** `update_brand_voice_cache`: the refresh time defaults to now. */
    method UpdateBrandVoiceCache(refreshTime: Option<string>, now: string) returns (err: Option<ManifestError>)
      modifies this
      ensures var cur := if old(data).Some? then old(data) else old(stored);
        && (cur.None? ==> err == Some(FileNotFound) && data == old(data) && stored == old(stored))
        && (cur.Some? ==>
              && err == None && stored == data
              && data == Some(cur.value.(lastRefreshed := Some(if refreshTime.Some? then refreshTime.value else now))))
    {
      var r := Data();
      if r.Failure? {
        return Some(r.error);
      }
      Update(r.value.(lastRefreshed := Some(if refreshTime.Some? then refreshTime.value else now)));
      return None;
    }
  }

  /** `get_or_create_manifest`: loads an existing manifest, otherwise
      initialises a new one. */
  method GetOrCreateManifest(demoId: string, stored: Option<ManifestData>, linearIssue: Option<string>,
                             gitSha: Option<string>, gitBranch: Option<string>, now: string)
    returns (m: Manifest)
    ensures fresh(m) && m.demoId == demoId
    ensures stored.Some? ==> m.data == stored && m.stored == stored
    ensures stored.None? ==> m.data == Some(InitialData(demoId, linearIssue, gitSha, gitBranch, now)) && m.stored == m.data
  {
    m := new Manifest(demoId, stored);
    if stored.Some? {
      var _ := m.Load();
    } else {
      m.Initialize(linearIssue, gitSha, gitBranch, now);
    }
  }
}

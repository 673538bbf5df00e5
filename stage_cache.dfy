/** Stage caching of utils/stage_cache.py: a table from stage name to the
    signature of the inputs the stage last completed with, consulted to
    skip stages whose inputs are unchanged. SHA-256 and `json.dumps` are
    parameters; the signature file on disk and the existence of output
    files are left to the caller (`existing` is the set of paths that
    exist). */
module StageCache {
  import opened Wrappers
  import opened Text
  import opened Json

  /** The standard order of the demo pipeline's stages. */
  const STAGE_ORDER: seq<string> := ["outline", "discover_selectors", "script", "validate", "record",
                                     "narration", "preview", "adjust", "audio", "avatar", "composite", "upload"]

  /** The length of a stage input hash. */
  const HASH_LENGTH: nat := 16

  datatype StageSignature = StageSignature(
    stageName: string,
    inputHash: string,
    outputFiles: seq<string>,
    timestamp: string)

  // ---------------------------------------------------------------------
  // Signatures as dictionaries

  function StringsJson(ss: seq<string>): (j: Json)
    ensures j.JArr? && |j.items| == |ss|
  {
    JArr(seq(|ss|, i requires 0 <= i < |ss| => JStr(ss[i])))
  }

  /** The strings of a JSON array of strings; None for anything else. */
  function JsonStrings(j: Json): Option<seq<string>>
  {
    if j.JArr? && forall i :: 0 <= i < |j.items| ==> j.items[i].JStr? then
      Some(seq(|j.items|, i requires 0 <= i < |j.items| => j.items[i].s))
    else None
  }

  /** `StageSignature.to_dict` */
  function SignatureToDict(sig: StageSignature): (j: Json)
    ensures j.JObj? && Keys(j.fields) == ["stage_name", "input_hash", "output_files", "timestamp"]
  {
    JObj([("stage_name", JStr(sig.stageName)), ("input_hash", JStr(sig.inputHash)),
          ("output_files", StringsJson(sig.outputFiles)), ("timestamp", JStr(sig.timestamp))])
  }

  /** `StageSignature.from_dict`: the name and hash are required (a
      missing one is the KeyError); the output list defaults to [] and the
      timestamp to "". */
  function SignatureFromDict(j: Json): (r: Result<StageSignature, string>)
    ensures r.Success? ==> j.JObj? && HasKey(j, "stage_name") && HasKey(j, "input_hash")
    ensures j.JObj? && !HasKey(j, "stage_name") ==> r == Failure("stage_name")
    ensures r.Success? && j.JObj? ==>
      && Get(j.fields, "stage_name") == Some(JStr(r.value.stageName))
      && Get(j.fields, "input_hash") == Some(JStr(r.value.inputHash))
      && (Get(j.fields, "output_files").None? ==> r.value.outputFiles == [])
      && (Get(j.fields, "timestamp").None? ==> r.value.timestamp == "")
    ensures j.JObj? && Get(j.fields, "output_files").None? && Get(j.fields, "timestamp").None? ==>
      forall name, hash :: Get(j.fields, "stage_name") == Some(JStr(name)) && Get(j.fields, "input_hash") == Some(JStr(hash))
        ==> r == Success(StageSignature(name, hash, [], ""))
  {
    if !j.JObj? then Failure("not a dict")
    else
      var name := Get(j.fields, "stage_name");
      var hash := Get(j.fields, "input_hash");
      if name.None? then Failure("stage_name")
      else if hash.None? then Failure("input_hash")
      else if !name.value.JStr? || !hash.value.JStr? then Failure("field type")
      else
        var o := Get(j.fields, "output_files");
        var outputs := if o.None? then Some([]) else JsonStrings(o.value);
        var t := Get(j.fields, "timestamp");
        var timestamp := if t.None? then Some("") else if t.value.JStr? then Some(t.value.s) else None;
        if outputs.None? || timestamp.None? then Failure("field type")
        else Success(StageSignature(name.value.s, hash.value.s, outputs.value, timestamp.value))
  }

  /** `from_dict(to_dict(sig))` gives back the same signature. */
  lemma SignatureRoundTrip(sig: StageSignature)
    ensures SignatureFromDict(SignatureToDict(sig)) == Success(sig)
  {
    SignatureFields(sig);
    StringsRoundTrip(sig.outputFiles);
    ReadsFields(SignatureToDict(sig), sig, StringsJson(sig.outputFiles));
  }

  /** A dictionary holding a signature's four fields reads back as it. */
  lemma ReadsFields(j: Json, sig: StageSignature, outputs: Json)
    requires j.JObj?
    requires Get(j.fields, "stage_name") == Some(JStr(sig.stageName))
    requires Get(j.fields, "input_hash") == Some(JStr(sig.inputHash))
    requires Get(j.fields, "output_files") == Some(outputs)
    requires JsonStrings(outputs) == Some(sig.outputFiles)
    requires Get(j.fields, "timestamp") == Some(JStr(sig.timestamp))
    ensures SignatureFromDict(j) == Success(sig)
  {
  }

  lemma StringsRoundTrip(ss: seq<string>)
    ensures JsonStrings(StringsJson(ss)) == Some(ss)
  {
    var items := StringsJson(ss).items;
    assert forall i :: 0 <= i < |items| ==> items[i] == JStr(ss[i]);
    assert seq(|items|, i requires 0 <= i < |items| => items[i].s) == ss;
  }

  lemma SignatureFields(sig: StageSignature)
    ensures var fields := SignatureToDict(sig).fields;
      && Get(fields, "stage_name") == Some(JStr(sig.stageName))
      && Get(fields, "input_hash") == Some(JStr(sig.inputHash))
      && Get(fields, "output_files") == Some(StringsJson(sig.outputFiles))
      && Get(fields, "timestamp") == Some(JStr(sig.timestamp))
  {
    var fields := SignatureToDict(sig).fields;
    GetFirst(fields, 0);
    GetFirst(fields, 1);
    GetFirst(fields, 2);
    GetFirst(fields, 3);
  }

  // ---------------------------------------------------------------------
  // Input hashing

  /** The dictionary built from key/value pairs: a later pair overrides
      an earlier one with the same key. */
  function InputsMap(inputs: seq<(string, Json)>): map<string, Json>
  {
    if inputs == [] then map[]
    else InputsMap(inputs[..|inputs| - 1])[inputs[|inputs| - 1].0 := inputs[|inputs| - 1].1]
  }

  predicate DistinctKeys(inputs: seq<(string, Json)>)
  {
    forall i, j :: 0 <= i < j < |inputs| ==> inputs[i].0 != inputs[j].0
  }

  /** `compute_hash`: the first 16 hexadecimal digits of the SHA-256 of
      the inputs serialised with sorted keys. Sorting the keys makes the
      serialisation a function of the dictionary, not of its insertion
      order, so `serialize` takes the dictionary as a map. */
  function ComputeHash(sha: string -> string, serialize: map<string, Json> -> string,
                       inputs: seq<(string, Json)>): (h: string)
    ensures |h| <= HASH_LENGTH && |h| <= |sha(serialize(InputsMap(inputs)))|
    ensures h == sha(serialize(InputsMap(inputs)))[..|h|]
    ensures |sha(serialize(InputsMap(inputs)))| >= HASH_LENGTH ==> |h| == HASH_LENGTH
  {
    Take(sha(serialize(InputsMap(inputs))), HASH_LENGTH)
  }

  /** With distinct keys, the dictionary maps a key to a value exactly
      when the pair is among the inputs. */
  lemma {:induction false} InputsMapSpec(inputs: seq<(string, Json)>)
    requires DistinctKeys(inputs)
    ensures forall k :: k in InputsMap(inputs) <==> exists v :: (k, v) in inputs
    ensures forall k, v :: (k, v) in inputs ==> k in InputsMap(inputs) && InputsMap(inputs)[k] == v
  {
    if inputs != [] {
      var init := inputs[..|inputs| - 1];
      var last := inputs[|inputs| - 1];
      assert DistinctKeys(init);
      InputsMapSpec(init);
      assert inputs == init + [last];
      forall k, v | (k, v) in inputs
        ensures k in InputsMap(inputs) && InputsMap(inputs)[k] == v
      {
        if (k, v) != last {
          var i :| 0 <= i < |inputs| && inputs[i] == (k, v);
          assert i < |inputs| - 1;
          assert init[i] == (k, v);
          assert k != last.0;
        }
      }
      forall k | k in InputsMap(inputs)
        ensures exists v :: (k, v) in inputs
      {
        if k != last.0 {
          assert InputsMap(inputs) == InputsMap(init)[last.0 := last.1];
          assert k in InputsMap(init);
          var v :| (k, v) in init;
          assert (k, v) in inputs;
        } else {
          assert (k, last.1) in inputs;
        }
      }
    }
  }

  /** The hash does not depend on the order the inputs were given in:
      two input lists with the same pairs hash alike. */
  lemma HashOrderIndependent(sha: string -> string, serialize: map<string, Json> -> string,
                             a: seq<(string, Json)>, b: seq<(string, Json)>)
    requires DistinctKeys(a) && DistinctKeys(b)
    requires forall p :: p in a <==> p in b
    ensures ComputeHash(sha, serialize, a) == ComputeHash(sha, serialize, b)
  {
    InputsMapSpec(a);
    InputsMapSpec(b);
    assert forall k :: k in InputsMap(a) <==> k in InputsMap(b);
    forall k | k in InputsMap(a)
      ensures InputsMap(a)[k] == InputsMap(b)[k]
    {
      var v :| (k, v) in a;
      assert (k, v) in b;
    }
    assert InputsMap(a) == InputsMap(b);
  }

  // ---------------------------------------------------------------------
  // StageCache

  /** Whether a stage can be skipped: it has a signature, its input hash
      is the one recorded, and every required output file exists. */
  predicate Skippable(signatures: map<string, StageSignature>, stage: string, hash: string,
                      outputFiles: seq<string>, existing: set<string>)
  {
    stage in signatures && signatures[stage].inputHash == hash &&
    forall i :: 0 <= i < |outputFiles| ==> outputFiles[i] in existing
  }

  /** The position of the first occurrence of `x`. */
  function IndexOf(xs: seq<string>, x: string): (i: nat)
    requires x in xs
    ensures i < |xs| && xs[i] == x && x !in xs[..i]
  {
    if xs[0] == x then 0 else 1 + IndexOf(xs[1..], x)
  }

  lemma {:induction false} IndexOfAt(xs: seq<string>, i: nat)
    requires i < |xs| && xs[i] !in xs[..i]
    ensures IndexOf(xs, xs[i]) == i
  {
    if i > 0 {
      assert xs[0] != xs[i];
      assert xs[1..][i - 1] == xs[i];
      assert xs[1..][..i - 1] == xs[..i][1..];
      IndexOfAt(xs[1..], i - 1);
    }
  }

  /** The stages `invalidate_downstream` removes: the stage and every
      stage after its first occurrence in the order; none when the stage
      is not in the order. */
  function Downstream(stage: string, order: seq<string>): set<string>
  {
    if stage in order then Elems(order[IndexOf(order, stage)..]) else {}
  }

  function Elems(xs: seq<string>): set<string>
  {
    set x | x in xs
  }

  class StageCache {
    const sha: string -> string
    const serialize: map<string, Json> -> string
    var signatures: map<string, StageSignature>

    /** A cache whose signature file held `loaded` (empty when there was
        no file or it could not be read). */
    constructor (sha: string -> string, serialize: map<string, Json> -> string,
                 loaded: map<string, StageSignature>)
      ensures this.sha == sha && this.serialize == serialize && signatures == loaded
    {
      this.sha := sha;
      this.serialize := serialize;
      signatures := loaded;
    }

    function Hash(inputs: seq<(string, Json)>): string
    {
      ComputeHash(sha, serialize, inputs)
    }

    /** `should_skip`: `outputFiles` is [] when none are given. */
    method ShouldSkip(stage: string, inputs: seq<(string, Json)>, outputFiles: seq<string>,
                      existing: set<string>) returns (skip: bool)
      ensures skip == Skippable(signatures, stage, Hash(inputs), outputFiles, existing)
    {
      var inputHash := Hash(inputs);
      if stage !in signatures {
        return false;
      }
      var cached := signatures[stage];
      if cached.inputHash != inputHash {
        return false;
      }
      var i := 0;
      while i < |outputFiles|
        invariant i <= |outputFiles|
        invariant forall k :: 0 <= k < i ==> outputFiles[k] in existing
      {
        if outputFiles[i] !in existing {
          return false;
        }
        i := i + 1;
      }
      return true;
    }

    /** `record_completion`: the stage's signature becomes the hash of
        these inputs and these outputs; `timestamp` is the current time. */
    method RecordCompletion(stage: string, inputs: seq<(string, Json)>, outputFiles: seq<string>,
                            timestamp: string)
      modifies this
      ensures signatures == old(signatures)[stage := StageSignature(stage, Hash(inputs), outputFiles, timestamp)]
    {
      signatures := signatures[stage := StageSignature(stage, Hash(inputs), outputFiles, timestamp)];
    }

    /** `invalidate` */
    method Invalidate(stage: string)
      modifies this
      ensures signatures == old(signatures) - {stage}
    {
      if stage in signatures {
        signatures := signatures - {stage};
      }
    }

    /** `invalidate_downstream` */
    method InvalidateDownstream(stage: string, order: seq<string>)
      modifies this
      ensures signatures == old(signatures) - Downstream(stage, order)
    {
      if stage !in order {
        return;
      }
      var start := IndexOf(order, stage);
      var i := start;
      while i < |order|
        invariant start <= i <= |order|
        invariant signatures == old(signatures) - Elems(order[start..i])
      {
        assert Elems(order[start..i + 1]) == Elems(order[start..i]) + {order[i]} by {
          assert order[start..i + 1] == order[start..i] + [order[i]];
        }
        Invalidate(order[i]);
        i := i + 1;
      }
    }

    /** `clear` */
    method Clear()
      modifies this
      ensures signatures == map[]
    {
      signatures := map[];
    }

    /** `get_cached_stages` */
    method CachedStages() returns (stages: set<string>)
      ensures stages == signatures.Keys
    {
      stages := signatures.Keys;
    }
  }

  /** Right after a completion is recorded, the stage is skipped for the
      same inputs whenever its required outputs exist — in particular when
      none are required. */
  lemma RecordThenSkip(signatures: map<string, StageSignature>, stage: string, hash: string,
                       recorded: seq<string>, required: seq<string>, existing: set<string>, timestamp: string)
    requires forall i :: 0 <= i < |required| ==> required[i] in existing
    ensures Skippable(signatures[stage := StageSignature(stage, hash, recorded, timestamp)],
                      stage, hash, required, existing)
  {
  }

  /** A stage is never skipped without a signature, with changed inputs,
      or with a missing output file. */
  lemma SkipNeedsAll(signatures: map<string, StageSignature>, stage: string, hash: string,
                     outputFiles: seq<string>, existing: set<string>)
    ensures stage !in signatures ==> !Skippable(signatures, stage, hash, outputFiles, existing)
    ensures stage in signatures && signatures[stage].inputHash != hash ==>
      !Skippable(signatures, stage, hash, outputFiles, existing)
    ensures (exists i :: 0 <= i < |outputFiles| && outputFiles[i] !in existing) ==>
      !Skippable(signatures, stage, hash, outputFiles, existing)
  {
  }

  /** Invalidating downstream removes the stage and every later stage in
      the order and keeps every stage that occurs only before it; a stage
      outside the order changes nothing. */
  lemma {:induction false} DownstreamSpec(stage: string, order: seq<string>)
    ensures stage !in order ==> Downstream(stage, order) == {}
    ensures stage in order ==> stage in Downstream(stage, order)
    ensures stage in order ==> forall j :: IndexOf(order, stage) <= j < |order| ==> order[j] in Downstream(stage, order)
    ensures stage in order ==>
      forall s :: s in order[..IndexOf(order, stage)] && s !in order[IndexOf(order, stage)..] ==>
        s !in Downstream(stage, order)
  {
    if stage in order {
      var i := IndexOf(order, stage);
      assert order[i..][0] == stage;
      forall j | i <= j < |order|
        ensures order[j] in Downstream(stage, order)
      {
        assert order[i..][j - i] == order[j];
      }
    }
  }

  /** With the standard order, a failure at "record" invalidates it and
      the seven stages after it and keeps the four before it. */
  lemma RecordFailureInvalidates()
    ensures IndexOf(STAGE_ORDER, "record") == 4
    ensures forall j :: 4 <= j < |STAGE_ORDER| ==> STAGE_ORDER[j] in Downstream("record", STAGE_ORDER)
    ensures forall j :: 0 <= j < 4 ==> STAGE_ORDER[j] !in Downstream("record", STAGE_ORDER)
  {
    RecordSplitsOrder();
    DownstreamAt(STAGE_ORDER, 4);
  }

  /** "record" is the fifth stage, and none of the four before it comes
      again after it (their first letters do not occur there). */
  lemma RecordSplitsOrder()
    ensures |STAGE_ORDER| > 4 && STAGE_ORDER[4] == "record"
    ensures forall j :: 0 <= j < 4 ==> STAGE_ORDER[j] !in STAGE_ORDER[4..]
  {
    var late := STAGE_ORDER[4..];
    assert late == ["record", "narration", "preview", "adjust", "audio", "avatar", "composite", "upload"];
    assert forall k :: 0 <= k < |late| ==> |late[k]| > 0 && late[k][0] in "rnpacu";
    NotAmong("outline", late, "rnpacu");
    NotAmong("discover_selectors", late, "rnpacu");
    NotAmong("script", late, "rnpacu");
    NotAmong("validate", late, "rnpacu");
  }

  /** A name whose first letter starts none of the names is not among them. */
  lemma NotAmong(x: string, names: seq<string>, letters: string)
    requires |x| > 0 && x[0] !in letters
    requires forall k :: 0 <= k < |names| ==> |names[k]| > 0 && names[k][0] in letters
    ensures x !in names
  {
  }

  /** A stage none of whose predecessors comes again after it invalidates
      exactly itself and what follows. */
  lemma DownstreamAt(order: seq<string>, i: nat)
    requires i < |order|
    requires forall j :: 0 <= j < i ==> order[j] !in order[i..]
    ensures IndexOf(order, order[i]) == i
    ensures forall j :: i <= j < |order| ==> order[j] in Downstream(order[i], order)
    ensures forall j :: 0 <= j < i ==> order[j] !in Downstream(order[i], order)
  {
    assert order[i..][0] == order[i];
    assert order[i] !in order[..i] by {
      forall j | 0 <= j < i ensures order[..i][j] != order[i] {
        assert order[..i][j] == order[j];
      }
    }
    IndexOfAt(order, i);
    DownstreamSpec(order[i], order);
    forall j | 0 <= j < i
      ensures order[j] !in Downstream(order[i], order)
    {
      assert order[..i][j] == order[j];
    }
  }

  /** The response of a skipped stage. */
  const SKIPPED: Json := JObj([("status", JStr("skipped")), ("cached", JBool(true))])

  /** `CachedStageRunner` */
  class CachedStageRunner {
    const cache: StageCache

    constructor (cache: StageCache)
      ensures this.cache == cache
    {
      this.cache := cache;
    }

    /** `run_stage`: `outcome` is what the stage runner returns or raises
        when called. Returns the result and whether the runner was called. */
    method RunStage(stage: string, inputs: seq<(string, Json)>, outcome: Result<Json, string>,
                    outputFiles: seq<string>, force: bool, existing: set<string>, timestamp: string)
      returns (result: Result<Json, string>, called: bool)
      modifies cache
      ensures var skip := !force && Skippable(old(cache.signatures), stage, cache.Hash(inputs), outputFiles, existing);
        && called == !skip
        && (skip ==> result == Success(SKIPPED) && cache.signatures == old(cache.signatures))
        && (!skip && outcome.Success? ==>
              && result == outcome
              && cache.signatures == old(cache.signatures)[stage := StageSignature(stage, cache.Hash(inputs), outputFiles, timestamp)])
        && (!skip && outcome.Failure? ==>
              && result == outcome
              && cache.signatures == old(cache.signatures) - Downstream(stage, STAGE_ORDER))
    {
      if !force {
        var skip := cache.ShouldSkip(stage, inputs, outputFiles, existing);
        if skip {
          return Success(SKIPPED), false;
        }
      }
      called := true;
      if outcome.Success? {
        cache.RecordCompletion(stage, inputs, outputFiles, timestamp);
        result := outcome;
      } else {
        cache.InvalidateDownstream(stage, STAGE_ORDER);
        result := outcome;
      }
    }

    /** `should_run` */
    method ShouldRun(stage: string, inputs: seq<(string, Json)>, outputFiles: seq<string>, existing: set<string>)
      returns (run: bool)
      ensures run == !Skippable(cache.signatures, stage, cache.Hash(inputs), outputFiles, existing)
    {
      var skip := cache.ShouldSkip(stage, inputs, outputFiles, existing);
      run := !skip;
    }

    /** `mark_complete` */
    method MarkComplete(stage: string, inputs: seq<(string, Json)>, outputFiles: seq<string>, timestamp: string)
      modifies cache
      ensures cache.signatures ==
        old(cache.signatures)[stage := StageSignature(stage, cache.Hash(inputs), outputFiles, timestamp)]
    {
      cache.RecordCompletion(stage, inputs, outputFiles, timestamp);
    }

    /** `reset` */
    method Reset()
      modifies cache
      ensures cache.signatures == map[]
    {
      cache.Clear();
    }
  }
}

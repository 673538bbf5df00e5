/** Credentials for the external services (ElevenLabs, HeyGen, Google Cloud
    Storage, Slack, Linear): their validity, the lists of missing ones, and
    the credentials file, which is loaded with environment variables taking
    precedence and saved with only the values that are set.

    The environment is a map from variable name to value, the file system
    is a `pathExists` oracle, and the YAML document of the credentials file
    is a `Json` value (`None` when the file is absent or cannot be parsed). */
module Credentials {
  import opened Wrappers
  import opened Json

  datatype ElevenLabsCredentials = ElevenLabsCredentials(apiKey: Option<string>, defaultVoiceId: Option<string>)
  datatype HeyGenCredentials = HeyGenCredentials(apiKey: Option<string>, defaultAvatarId: Option<string>)
  datatype GcsCredentials = GcsCredentials(credentialsPath: Option<string>, defaultBucket: Option<string>)
  datatype SlackCredentials = SlackCredentials(defaultWebhookUrl: Option<string>)
  datatype LinearCredentials = LinearCredentials(apiKey: Option<string>)

  datatype Credentials = Credentials(
    elevenlabs: ElevenLabsCredentials,
    heygen: HeyGenCredentials,
    gcs: GcsCredentials,
    slack: SlackCredentials,
    linear: LinearCredentials)

  /** `Credentials()`: every field unset. */
  const NO_CREDENTIALS := Credentials(
    ElevenLabsCredentials(None, None),
    HeyGenCredentials(None, None),
    GcsCredentials(None, None),
    SlackCredentials(None),
    LinearCredentials(None))

  /** `os.getenv(name)`. */
  function Getenv(env: map<string, string>, name: string): (r: Option<string>)
    ensures r.Some? <==> name in env
    ensures r.Some? ==> r.value == env[name]
  {
    if name in env then Some(env[name]) else None
  }

  // ---------------------------------------------------------------------
  // Validity and status

  predicate ElevenLabsValid(c: ElevenLabsCredentials) { Truthy(c.apiKey) }
  predicate HeyGenValid(c: HeyGenCredentials) { Truthy(c.apiKey) }
  predicate SlackValid(c: SlackCredentials) { Truthy(c.defaultWebhookUrl) }
  predicate LinearValid(c: LinearCredentials) { Truthy(c.apiKey) }

  /** A configured credentials path must exist; without one, application
      default credentials named by the environment are accepted. */
  predicate GcsValid(c: GcsCredentials, env: map<string, string>, pathExists: string -> bool)
  {
    if Truthy(c.credentialsPath) then pathExists(c.credentialsPath.value)
    else Truthy(Getenv(env, "GOOGLE_APPLICATION_CREDENTIALS"))
  }

  /** `get_status`: one entry per service, in this order. */
  function Status(c: Credentials, env: map<string, string>, pathExists: string -> bool): (r: seq<(string, bool)>)
    ensures |r| == 5
  {
    [ ("elevenlabs", ElevenLabsValid(c.elevenlabs)),
      ("heygen", HeyGenValid(c.heygen)),
      ("gcs", GcsValid(c.gcs, env, pathExists)),
      ("slack", SlackValid(c.slack)),
      ("linear", LinearValid(c.linear)) ]
  }

  const ELEVENLABS_MISSING := "ElevenLabs API key (for voice narration)"
  const GCS_MISSING := "GCS credentials (for video upload)"
  const HEYGEN_MISSING := "HeyGen API key (for avatar generation)"
  const SLACK_MISSING := "Slack webhook (for notifications)"
  const LINEAR_MISSING := "Linear API key (for issue updates)"

  /** `get_missing`: the required services that are not configured. */
  function GetMissing(c: Credentials, env: map<string, string>, pathExists: string -> bool): (r: seq<string>)
    ensures ELEVENLABS_MISSING in r <==> !ElevenLabsValid(c.elevenlabs)
    ensures GCS_MISSING in r <==> !GcsValid(c.gcs, env, pathExists)
    ensures |r| <= 2
  {
    assert ELEVENLABS_MISSING[0] != GCS_MISSING[0];
    (if ElevenLabsValid(c.elevenlabs) then [] else [ELEVENLABS_MISSING])
    + (if GcsValid(c.gcs, env, pathExists) then [] else [GCS_MISSING])
  }

  /** `get_optional_missing`: the optional services that are not configured. */
  function GetOptionalMissing(c: Credentials): (r: seq<string>)
    ensures HEYGEN_MISSING in r <==> !HeyGenValid(c.heygen)
    ensures SLACK_MISSING in r <==> !SlackValid(c.slack)
    ensures LINEAR_MISSING in r <==> !LinearValid(c.linear)
    ensures |r| <= 3
  {
    assert HEYGEN_MISSING[0] != SLACK_MISSING[0] && HEYGEN_MISSING[0] != LINEAR_MISSING[0]
      && SLACK_MISSING[0] != LINEAR_MISSING[0];
    (if HeyGenValid(c.heygen) then [] else [HEYGEN_MISSING])
    + (if SlackValid(c.slack) then [] else [SLACK_MISSING])
    + (if LinearValid(c.linear) then [] else [LINEAR_MISSING])
  }

  /** The status recorded for a service name, if it has one. */
  function StatusOf(status: seq<(string, bool)>, name: string): Option<bool>
  {
    if status == [] then None
    else if status[0].0 == name then Some(status[0].1)
    else StatusOf(status[1..], name)
  }

  /** The message reported for a service that is not configured. */
  function Description(name: string): string
  {
    if name == "elevenlabs" then ELEVENLABS_MISSING
    else if name == "gcs" then GCS_MISSING
    else if name == "heygen" then HEYGEN_MISSING
    else if name == "slack" then SLACK_MISSING
    else if name == "linear" then LINEAR_MISSING
    else name
  }

  /** Reference definition of a missing list: the descriptions of the
      given services, in the given order, whose status is false. */
  function MissingAmong(status: seq<(string, bool)>, names: seq<string>): seq<string>
  {
    if names == [] then []
    else
      var here := if StatusOf(status, names[0]) == Some(false) then [Description(names[0])] else [];
      here + MissingAmong(status, names[1..])
  }

  const REQUIRED := ["elevenlabs", "gcs"]
  const OPTIONAL := ["heygen", "slack", "linear"]

  /** The status of the `i`-th entry is found under its name when no
      earlier entry has that name. */
  lemma {:induction false} StatusOfAt(status: seq<(string, bool)>, i: nat)
    requires i < |status| && forall j :: 0 <= j < i ==> status[j].0 != status[i].0
    ensures StatusOf(status, status[i].0) == Some(status[i].1)
  {
    if i > 0 {
      StatusOfAt(status[1..], i - 1);
    }
  }

  /** The required missing list is exactly the required services whose
      status is false. */
  lemma MissingFromStatus(c: Credentials, env: map<string, string>, pathExists: string -> bool)
    ensures GetMissing(c, env, pathExists) == MissingAmong(Status(c, env, pathExists), REQUIRED)
  {
    var s := Status(c, env, pathExists);
    assert StatusOf(s, "elevenlabs") == Some(ElevenLabsValid(c.elevenlabs)) by { StatusOfAt(s, 0); }
    assert StatusOf(s, "gcs") == Some(GcsValid(c.gcs, env, pathExists)) by {
      SectionNamesDiffer();
      StatusOfAt(s, 2);
    }
    assert Description("gcs") == GCS_MISSING by { SectionNamesDiffer(); }
    assert MissingAmong(s, ["gcs"])
      == (if StatusOf(s, "gcs") == Some(false) then [GCS_MISSING] else []) + MissingAmong(s, []);
    assert REQUIRED[1..] == ["gcs"];
    assert MissingAmong(s, REQUIRED)
      == (if StatusOf(s, "elevenlabs") == Some(false) then [ELEVENLABS_MISSING] else []) + MissingAmong(s, ["gcs"]);
  }

  /** The optional missing list is exactly the optional services whose
      status is false. */
  lemma OptionalMissingFromStatus(c: Credentials, env: map<string, string>, pathExists: string -> bool)
    ensures GetOptionalMissing(c) == MissingAmong(Status(c, env, pathExists), OPTIONAL)
  {
    var s := Status(c, env, pathExists);
    assert StatusOf(s, "heygen") == Some(HeyGenValid(c.heygen)) by {
      SectionNamesDiffer();
      StatusOfAt(s, 1);
    }
    assert StatusOf(s, "slack") == Some(SlackValid(c.slack)) by {
      SectionNamesDiffer();
      StatusOfAt(s, 3);
    }
    assert StatusOf(s, "linear") == Some(LinearValid(c.linear)) by {
      SectionNamesDiffer();
      StatusOfAt(s, 4);
    }
    OptionalAmong(s);
  }

  /** The optional missing list of any status, service by service. */
  lemma OptionalAmong(s: seq<(string, bool)>)
    ensures MissingAmong(s, OPTIONAL)
      == (if StatusOf(s, "heygen") == Some(false) then [HEYGEN_MISSING] else [])
         + ((if StatusOf(s, "slack") == Some(false) then [SLACK_MISSING] else [])
         + (if StatusOf(s, "linear") == Some(false) then [LINEAR_MISSING] else []))
  {
    assert Description("heygen") == HEYGEN_MISSING by { SectionNamesDiffer(); }
    assert Description("slack") == SLACK_MISSING by { SectionNamesDiffer(); }
    assert Description("linear") == LINEAR_MISSING by { SectionNamesDiffer(); }
    assert MissingAmong(s, ["linear"])
      == (if StatusOf(s, "linear") == Some(false) then [LINEAR_MISSING] else []) + MissingAmong(s, []);
    assert ["slack", "linear"][1..] == ["linear"];
    assert MissingAmong(s, ["slack", "linear"])
      == (if StatusOf(s, "slack") == Some(false) then [SLACK_MISSING] else []) + MissingAmong(s, ["linear"]);
    assert OPTIONAL[1..] == ["slack", "linear"];
    assert MissingAmong(s, OPTIONAL)
      == (if StatusOf(s, "heygen") == Some(false) then [HEYGEN_MISSING] else []) + MissingAmong(s, ["slack", "linear"]);
  }

  // ---------------------------------------------------------------------
  // Loading

  const SECTIONS := ["elevenlabs", "heygen", "gcs", "slack", "linear"]

  /** `section.get(key)` for a credential value: a string, or unset. */
  function Field(section: seq<(string, Json)>, key: string): (r: Option<string>)
    ensures r.Some? ==> Get(section, key) == Some(JStr(r.value))
  {
    match Get(section, key)
    case Some(JStr(s)) => Some(s)
    case _ => None
  }

  /** Replaces the whole sub-credential named `name` by the values of its
      section; fields the section lacks become unset. */
  function ReplaceSection(c: Credentials, name: string, section: seq<(string, Json)>): Credentials
  {
    if name == "elevenlabs" then
      c.(elevenlabs := ElevenLabsCredentials(Field(section, "api_key"), Field(section, "default_voice_id")))
    else if name == "heygen" then
      c.(heygen := HeyGenCredentials(Field(section, "api_key"), Field(section, "default_avatar_id")))
    else if name == "gcs" then
      c.(gcs := GcsCredentials(Field(section, "credentials_path"), Field(section, "default_bucket")))
    else if name == "slack" then
      c.(slack := SlackCredentials(Field(section, "default_webhook_url")))
    else if name == "linear" then
      c.(linear := LinearCredentials(Field(section, "api_key")))
    else c
  }

  /** The sections of the file, in order. A present section that is not a
      mapping raises inside the `try`, so it and every later section are
      not loaded, while the earlier ones stay. */
  function LoadSections(c: Credentials, data: seq<(string, Json)>, names: seq<string>): Credentials
    decreases |names|
  {
    if names == [] then c
    else match Get(data, names[0])
      case None => LoadSections(c, data, names[1..])
      case Some(JObj(section)) => LoadSections(ReplaceSection(c, names[0], section), data, names[1..])
      case Some(_) => c
  }

  /** The credentials the file alone gives. A missing or unparseable file,
      an empty one and a document that is not a mapping give no values. */
  function FileCredentials(file: Option<Json>): Credentials
  {
    match file
    case Some(JObj(data)) => LoadSections(NO_CREDENTIALS, data, SECTIONS)
    case _ => NO_CREDENTIALS
  }

  /** A set environment variable decides the loaded value; otherwise the
      file's value stays. */
  predicate EnvOverrides(env: map<string, string>, name: string, fromFile: Option<string>, loaded: Option<string>)
  {
    loaded == if Truthy(Getenv(env, name)) then Getenv(env, name) else fromFile
  }

  /** One `if os.getenv(name): field = os.getenv(name)` of the loader. */
  function EnvOr(env: map<string, string>, name: string, current: Option<string>): Option<string>
  {
    if Truthy(Getenv(env, name)) then Getenv(env, name) else current
  }

  /** `load_credentials`: the file first, then every non-empty
      environment variable overrides its field. */
  method LoadCredentials(file: Option<Json>, env: map<string, string>) returns (creds: Credentials)
    ensures var f := FileCredentials(file);
      && EnvOverrides(env, "ELEVENLABS_API_KEY", f.elevenlabs.apiKey, creds.elevenlabs.apiKey)
      && EnvOverrides(env, "ELEVENLABS_VOICE_ID", f.elevenlabs.defaultVoiceId, creds.elevenlabs.defaultVoiceId)
      && EnvOverrides(env, "HEYGEN_API_KEY", f.heygen.apiKey, creds.heygen.apiKey)
      && EnvOverrides(env, "HEYGEN_AVATAR_ID", f.heygen.defaultAvatarId, creds.heygen.defaultAvatarId)
      && EnvOverrides(env, "GOOGLE_APPLICATION_CREDENTIALS", f.gcs.credentialsPath, creds.gcs.credentialsPath)
      && EnvOverrides(env, "GCS_BUCKET_NAME", f.gcs.defaultBucket, creds.gcs.defaultBucket)
      && EnvOverrides(env, "SLACK_WEBHOOK_URL", f.slack.defaultWebhookUrl, creds.slack.defaultWebhookUrl)
      && EnvOverrides(env, "LINEAR_API_KEY", f.linear.apiKey, creds.linear.apiKey)
  {
    creds := FileCredentials(file);

    creds := creds.(elevenlabs := creds.elevenlabs.(apiKey := EnvOr(env, "ELEVENLABS_API_KEY", creds.elevenlabs.apiKey)));
    creds := creds.(elevenlabs := creds.elevenlabs.(defaultVoiceId := EnvOr(env, "ELEVENLABS_VOICE_ID", creds.elevenlabs.defaultVoiceId)));

    creds := creds.(heygen := creds.heygen.(apiKey := EnvOr(env, "HEYGEN_API_KEY", creds.heygen.apiKey)));
    creds := creds.(heygen := creds.heygen.(defaultAvatarId := EnvOr(env, "HEYGEN_AVATAR_ID", creds.heygen.defaultAvatarId)));

    creds := creds.(gcs := creds.gcs.(credentialsPath := EnvOr(env, "GOOGLE_APPLICATION_CREDENTIALS", creds.gcs.credentialsPath)));
    creds := creds.(gcs := creds.gcs.(defaultBucket := EnvOr(env, "GCS_BUCKET_NAME", creds.gcs.defaultBucket)));

    creds := creds.(slack := creds.slack.(defaultWebhookUrl := EnvOr(env, "SLACK_WEBHOOK_URL", creds.slack.defaultWebhookUrl)));

    creds := creds.(linear := creds.linear.(apiKey := EnvOr(env, "LINEAR_API_KEY", creds.linear.apiKey)));
  }

  /** A file whose elevenlabs section is a mapping and whose heygen section
      is not: the elevenlabs values are loaded, and nothing after the broken
      section is. */
  lemma BrokenSectionStopsLoading(data: seq<(string, Json)>, e: seq<(string, Json)>, h: Json)
    requires Get(data, "elevenlabs") == Some(JObj(e))
    requires Get(data, "heygen") == Some(h) && !h.JObj?
    ensures FileCredentials(Some(JObj(data)))
      == NO_CREDENTIALS.(elevenlabs := ElevenLabsCredentials(Field(e, "api_key"), Field(e, "default_voice_id")))
  {
    assert SECTIONS[1..][0] == "heygen";
  }

  /** With GOOGLE_APPLICATION_CREDENTIALS set, the loaded GCS credentials
      are valid exactly when that path exists, whatever the file says. */
  lemma GcsValidAfterLoad(f: Credentials, creds: Credentials, env: map<string, string>, pathExists: string -> bool)
    requires EnvOverrides(env, "GOOGLE_APPLICATION_CREDENTIALS", f.gcs.credentialsPath, creds.gcs.credentialsPath)
    requires Truthy(Getenv(env, "GOOGLE_APPLICATION_CREDENTIALS"))
    ensures GcsValid(creds.gcs, env, pathExists) <==> pathExists(env["GOOGLE_APPLICATION_CREDENTIALS"])
  {
  }

  // ---------------------------------------------------------------------
  // Saving

  /** A `key: value` entry written only when the value is set. */
  function Entry(key: string, v: Option<string>): (r: seq<(string, Json)>)
    ensures |r| <= 1
  {
    if Truthy(v) then [(key, JStr(v.value))] else []
  }

  /** A section of the document, written only when `present`. */
  function Section(name: string, fields: seq<(string, Json)>, present: bool): (r: seq<(string, Json)>)
    ensures Keys(r) == if present then [name] else []
  {
    if present then [(name, JObj(fields))] else []
  }

  function ElevenLabsSection(c: ElevenLabsCredentials): seq<(string, Json)>
  {
    Section("elevenlabs", Entry("api_key", c.apiKey) + Entry("default_voice_id", c.defaultVoiceId), Truthy(c.apiKey))
  }

  function HeyGenSection(c: HeyGenCredentials): seq<(string, Json)>
  {
    Section("heygen", Entry("api_key", c.apiKey) + Entry("default_avatar_id", c.defaultAvatarId), Truthy(c.apiKey))
  }

  function GcsSection(c: GcsCredentials): seq<(string, Json)>
  {
    Section("gcs", Entry("credentials_path", c.credentialsPath) + Entry("default_bucket", c.defaultBucket),
      Truthy(c.credentialsPath))
  }

  function SlackSection(c: SlackCredentials): seq<(string, Json)>
  {
    Section("slack", Entry("default_webhook_url", c.defaultWebhookUrl), Truthy(c.defaultWebhookUrl))
  }

  function LinearSection(c: LinearCredentials): seq<(string, Json)>
  {
    Section("linear", Entry("api_key", c.apiKey), Truthy(c.apiKey))
  }

  const VERSION_FIELD: seq<(string, Json)> := [("version", JInt(1))]

  /** The fields of the document `save_credentials` writes: the version,
      then a section for each service whose main value is set, holding the
      values that are set. */
  function SavedFields(c: Credentials): seq<(string, Json)>
  {
    VERSION_FIELD + (ElevenLabsSection(c.elevenlabs) + (HeyGenSection(c.heygen)
      + (GcsSection(c.gcs) + (SlackSection(c.slack) + LinearSection(c.linear)))))
  }

  lemma AppendAssoc(a: seq<(string, Json)>, b: seq<(string, Json)>, c: seq<(string, Json)>)
    ensures a + b + c == a + (b + c)
  {
  }

  lemma SavedInOrder(c: Credentials, data: seq<(string, Json)>)
    requires data == VERSION_FIELD + ElevenLabsSection(c.elevenlabs) + HeyGenSection(c.heygen)
      + GcsSection(c.gcs) + SlackSection(c.slack) + LinearSection(c.linear)
    ensures data == SavedFields(c)
  {
    var e, h, g, s, l := ElevenLabsSection(c.elevenlabs), HeyGenSection(c.heygen), GcsSection(c.gcs),
      SlackSection(c.slack), LinearSection(c.linear);
    AppendAssoc(VERSION_FIELD + e + h + g, s, l);
    AppendAssoc(VERSION_FIELD + e + h, g, s + l);
    AppendAssoc(VERSION_FIELD + e, h, g + (s + l));
    AppendAssoc(VERSION_FIELD, e, h + (g + (s + l)));
  }

  /** `save_credentials`: builds the document section by section. */
  method SaveCredentials(creds: Credentials) returns (doc: Json)
    ensures doc == JObj(SavedFields(creds))
  {
    var data: seq<(string, Json)> := [("version", JInt(1))];

    if Truthy(creds.elevenlabs.apiKey) {
      var section := [("api_key", JStr(creds.elevenlabs.apiKey.value))];
      if Truthy(creds.elevenlabs.defaultVoiceId) {
        section := section + [("default_voice_id", JStr(creds.elevenlabs.defaultVoiceId.value))];
      }
      assert section == Entry("api_key", creds.elevenlabs.apiKey) + Entry("default_voice_id", creds.elevenlabs.defaultVoiceId);
      data := data + [("elevenlabs", JObj(section))];
    }
    assert data == VERSION_FIELD + ElevenLabsSection(creds.elevenlabs);

    if Truthy(creds.heygen.apiKey) {
      var section := [("api_key", JStr(creds.heygen.apiKey.value))];
      if Truthy(creds.heygen.defaultAvatarId) {
        section := section + [("default_avatar_id", JStr(creds.heygen.defaultAvatarId.value))];
      }
      assert section == Entry("api_key", creds.heygen.apiKey) + Entry("default_avatar_id", creds.heygen.defaultAvatarId);
      data := data + [("heygen", JObj(section))];
    }
    assert data == VERSION_FIELD + ElevenLabsSection(creds.elevenlabs) + HeyGenSection(creds.heygen);

    if Truthy(creds.gcs.credentialsPath) {
      var section := [("credentials_path", JStr(creds.gcs.credentialsPath.value))];
      if Truthy(creds.gcs.defaultBucket) {
        section := section + [("default_bucket", JStr(creds.gcs.defaultBucket.value))];
      }
      assert section == Entry("credentials_path", creds.gcs.credentialsPath) + Entry("default_bucket", creds.gcs.defaultBucket);
      data := data + [("gcs", JObj(section))];
    }
    assert data == VERSION_FIELD + ElevenLabsSection(creds.elevenlabs) + HeyGenSection(creds.heygen)
      + GcsSection(creds.gcs);

    if Truthy(creds.slack.defaultWebhookUrl) {
      data := data + [("slack", JObj([("default_webhook_url", JStr(creds.slack.defaultWebhookUrl.value))]))];
    }
    assert data == VERSION_FIELD + ElevenLabsSection(creds.elevenlabs) + HeyGenSection(creds.heygen)
      + GcsSection(creds.gcs) + SlackSection(creds.slack);

    if Truthy(creds.linear.apiKey) {
      data := data + [("linear", JObj([("api_key", JStr(creds.linear.apiKey.value))]))];
    }
    assert data == VERSION_FIELD + ElevenLabsSection(creds.elevenlabs) + HeyGenSection(creds.heygen)
      + GcsSection(creds.gcs) + SlackSection(creds.slack) + LinearSection(creds.linear);
    SavedInOrder(creds, data);

    doc := JObj(data);
  }

  /** A value as it survives a save: kept when set, unset otherwise. */
  function Kept(v: Option<string>): Option<string>
  {
    if Truthy(v) then v else None
  }

  /** What survives a save and a load: the set values of every service
      whose main value is set. */
  function Persisted(c: Credentials): Credentials
  {
    Credentials(
      if Truthy(c.elevenlabs.apiKey) then ElevenLabsCredentials(c.elevenlabs.apiKey, Kept(c.elevenlabs.defaultVoiceId))
      else NO_CREDENTIALS.elevenlabs,
      if Truthy(c.heygen.apiKey) then HeyGenCredentials(c.heygen.apiKey, Kept(c.heygen.defaultAvatarId))
      else NO_CREDENTIALS.heygen,
      if Truthy(c.gcs.credentialsPath) then GcsCredentials(c.gcs.credentialsPath, Kept(c.gcs.defaultBucket))
      else NO_CREDENTIALS.gcs,
      SlackCredentials(Kept(c.slack.defaultWebhookUrl)),
      LinearCredentials(Kept(c.linear.apiKey)))
  }

  lemma {:induction false} KeysAppend(a: seq<(string, Json)>, b: seq<(string, Json)>)
    ensures Keys(a + b) == Keys(a) + Keys(b)
  {
  }

  /** The first letters of the section names and of "version" differ, so
      no two of these names are equal. */
  lemma SectionNamesDiffer()
    ensures "version"[0] != "elevenlabs"[0] && "version"[0] != "heygen"[0] && "version"[0] != "gcs"[0]
    ensures "version"[0] != "slack"[0] && "version"[0] != "linear"[0]
    ensures "elevenlabs"[0] != "heygen"[0] && "elevenlabs"[0] != "gcs"[0] && "elevenlabs"[0] != "slack"[0]
    ensures "heygen"[0] != "gcs"[0] && "heygen"[0] != "slack"[0] && "gcs"[0] != "slack"[0]
    ensures "linear"[0] != "elevenlabs"[0] && "linear"[0] != "heygen"[0]
    ensures "linear"[0] != "gcs"[0] && "linear"[0] != "slack"[0]
    ensures Keys(VERSION_FIELD) == ["version"]
  {
  }

  /** Fields before a key that they lack do not change its lookup. */
  lemma GetSkip(a: seq<(string, Json)>, b: seq<(string, Json)>, key: string)
    requires key !in Keys(a)
    ensures Get(a + b, key) == Get(b, key)
  {
    GetAppend(a, b, key);
  }

  /** A key that the later fields lack is looked up in the first part. */
  lemma GetLast(a: seq<(string, Json)>, b: seq<(string, Json)>, key: string)
    requires key !in Keys(b)
    ensures Get(a + b, key) == Get(a, key)
  {
    GetAppend(a, b, key);
  }

  lemma NotInJoined(key: string, a: seq<(string, Json)>, b: seq<(string, Json)>)
    requires key !in Keys(a) && key !in Keys(b)
    ensures key !in Keys(a + b)
  {
    KeysAppend(a, b);
  }

  lemma SavedElevenLabs(c: Credentials)
    ensures Get(SavedFields(c), "elevenlabs") == Get(ElevenLabsSection(c.elevenlabs), "elevenlabs")
  {
    var e, h, g, s, l := ElevenLabsSection(c.elevenlabs), HeyGenSection(c.heygen), GcsSection(c.gcs),
      SlackSection(c.slack), LinearSection(c.linear);
    assert "elevenlabs" !in Keys(VERSION_FIELD) && "elevenlabs" !in Keys(h) && "elevenlabs" !in Keys(g)
      && "elevenlabs" !in Keys(s) && "elevenlabs" !in Keys(l) by { SectionNamesDiffer(); }
    NotInJoined("elevenlabs", s, l);
    NotInJoined("elevenlabs", g, s + l);
    NotInJoined("elevenlabs", h, g + (s + l));
    GetSkip(VERSION_FIELD, e + (h + (g + (s + l))), "elevenlabs");
    GetLast(e, h + (g + (s + l)), "elevenlabs");
  }

  lemma SavedHeyGen(c: Credentials)
    ensures Get(SavedFields(c), "heygen") == Get(HeyGenSection(c.heygen), "heygen")
  {
    var e, h, g, s, l := ElevenLabsSection(c.elevenlabs), HeyGenSection(c.heygen), GcsSection(c.gcs),
      SlackSection(c.slack), LinearSection(c.linear);
    assert "heygen" !in Keys(VERSION_FIELD) && "heygen" !in Keys(e) by { SectionNamesDiffer(); }
    assert "heygen" !in Keys(g + (s + l)) by {
      SectionNamesDiffer();
      KeysAppend(s, l);
      KeysAppend(g, s + l);
    }
    GetSkip(VERSION_FIELD, e + (h + (g + (s + l))), "heygen");
    GetSkip(e, h + (g + (s + l)), "heygen");
    GetLast(h, g + (s + l), "heygen");
  }

  lemma SavedGcs(c: Credentials)
    ensures Get(SavedFields(c), "gcs") == Get(GcsSection(c.gcs), "gcs")
  {
    var e, h, g, s, l := ElevenLabsSection(c.elevenlabs), HeyGenSection(c.heygen), GcsSection(c.gcs),
      SlackSection(c.slack), LinearSection(c.linear);
    assert "gcs" !in Keys(VERSION_FIELD) && "gcs" !in Keys(e) && "gcs" !in Keys(h) by { SectionNamesDiffer(); }
    assert "gcs" !in Keys(s + l) by {
      SectionNamesDiffer();
      KeysAppend(s, l);
    }
    GetSkip(VERSION_FIELD, e + (h + (g + (s + l))), "gcs");
    GetSkip(e, h + (g + (s + l)), "gcs");
    GetSkip(h, g + (s + l), "gcs");
    GetLast(g, s + l, "gcs");
  }

  lemma SavedSlack(c: Credentials)
    ensures Get(SavedFields(c), "slack") == Get(SlackSection(c.slack), "slack")
  {
    var e, h, g, s, l := ElevenLabsSection(c.elevenlabs), HeyGenSection(c.heygen), GcsSection(c.gcs),
      SlackSection(c.slack), LinearSection(c.linear);
    assert "slack" !in Keys(VERSION_FIELD) && "slack" !in Keys(e) && "slack" !in Keys(h)
      && "slack" !in Keys(g) && "slack" !in Keys(l) by { SectionNamesDiffer(); }
    GetSkip(VERSION_FIELD, e + (h + (g + (s + l))), "slack");
    GetSkip(e, h + (g + (s + l)), "slack");
    GetSkip(h, g + (s + l), "slack");
    GetSkip(g, s + l, "slack");
    GetLast(s, l, "slack");
  }

  lemma SavedLinear(c: Credentials)
    ensures Get(SavedFields(c), "linear") == Get(LinearSection(c.linear), "linear")
  {
    var e, h, g, s, l := ElevenLabsSection(c.elevenlabs), HeyGenSection(c.heygen), GcsSection(c.gcs),
      SlackSection(c.slack), LinearSection(c.linear);
    assert "linear" !in Keys(VERSION_FIELD) && "linear" !in Keys(e) && "linear" !in Keys(h)
      && "linear" !in Keys(g) && "linear" !in Keys(s) by { SectionNamesDiffer(); }
    GetSkip(VERSION_FIELD, e + (h + (g + (s + l))), "linear");
    GetSkip(e, h + (g + (s + l)), "linear");
    GetSkip(h, g + (s + l), "linear");
    GetSkip(g, s + l, "linear");
    GetSkip(s, l, "linear");
  }

  /** The two values of a saved section read back: the main one as it
      was, the other one as it survives a save. */
  lemma PairFields(k1: string, v1: Option<string>, k2: string, v2: Option<string>)
    requires k1 != "" && k2 != "" && k1[0] != k2[0] && Truthy(v1)
    ensures Field(Entry(k1, v1) + Entry(k2, v2), k1) == v1
    ensures Field(Entry(k1, v1) + Entry(k2, v2), k2) == Kept(v2)
  {
    var both := Entry(k1, v1) + Entry(k2, v2);
    assert both[0] == (k1, JStr(v1.value));
    assert both[1..] == Entry(k2, v2);
    assert k1 != k2;
    assert Get(both, k2) == Get(Entry(k2, v2), k2);
  }

  /** The one value of a saved section reads back as it survives a save. */
  lemma SingleField(k: string, v: Option<string>)
    ensures Field(Entry(k, v), k) == Kept(v)
  {
  }

  /** A section that is a mapping is loaded and the loader moves on. */
  lemma LoadPresent(x: Credentials, data: seq<(string, Json)>, names: seq<string>, section: seq<(string, Json)>)
    requires names != [] && Get(data, names[0]) == Some(JObj(section))
    ensures LoadSections(x, data, names) == LoadSections(ReplaceSection(x, names[0], section), data, names[1..])
  {
  }

  /** A missing section is skipped. */
  lemma LoadAbsent(x: Credentials, data: seq<(string, Json)>, names: seq<string>)
    requires names != [] && Get(data, names[0]) == None
    ensures LoadSections(x, data, names) == LoadSections(x, data, names[1..])
  {
  }

  /** A section written only when `present` is found exactly then. */
  lemma SectionLookup(name: string, fields: seq<(string, Json)>, present: bool)
    ensures Get(Section(name, fields, present), name) == if present then Some(JObj(fields)) else None
  {
  }

  /** Loading each section of a saved document sets exactly the persisted
      values of that service; `data` is the saved document, of which only
      the lookup of that section matters. */
  lemma LoadSavedElevenLabs(c: Credentials, x: Credentials, names: seq<string>, data: seq<(string, Json)>)
    requires names != [] && names[0] == "elevenlabs" && x.elevenlabs == NO_CREDENTIALS.elevenlabs
    requires Get(data, "elevenlabs") == Get(ElevenLabsSection(c.elevenlabs), "elevenlabs")
    ensures LoadSections(x, data, names) == LoadSections(x.(elevenlabs := Persisted(c).elevenlabs), data, names[1..])
  {
    var e := c.elevenlabs;
    var fields := Entry("api_key", e.apiKey) + Entry("default_voice_id", e.defaultVoiceId);
    SectionLookup("elevenlabs", fields, Truthy(e.apiKey));
    if Truthy(e.apiKey) {
      LoadPresent(x, data, names, fields);
      PairFields("api_key", e.apiKey, "default_voice_id", e.defaultVoiceId);
    } else {
      LoadAbsent(x, data, names);
    }
  }

  lemma LoadSavedHeyGen(c: Credentials, x: Credentials, names: seq<string>, data: seq<(string, Json)>)
    requires names != [] && names[0] == "heygen" && x.heygen == NO_CREDENTIALS.heygen
    requires Get(data, "heygen") == Get(HeyGenSection(c.heygen), "heygen")
    ensures LoadSections(x, data, names) == LoadSections(x.(heygen := Persisted(c).heygen), data, names[1..])
  {
    var h := c.heygen;
    var fields := Entry("api_key", h.apiKey) + Entry("default_avatar_id", h.defaultAvatarId);
    SectionLookup("heygen", fields, Truthy(h.apiKey));
    if Truthy(h.apiKey) {
      LoadPresent(x, data, names, fields);
      assert "heygen"[0] != "elevenlabs"[0];
      PairFields("api_key", h.apiKey, "default_avatar_id", h.defaultAvatarId);
    } else {
      LoadAbsent(x, data, names);
    }
  }

  lemma LoadSavedGcs(c: Credentials, x: Credentials, names: seq<string>, data: seq<(string, Json)>)
    requires names != [] && names[0] == "gcs" && x.gcs == NO_CREDENTIALS.gcs
    requires Get(data, "gcs") == Get(GcsSection(c.gcs), "gcs")
    ensures LoadSections(x, data, names) == LoadSections(x.(gcs := Persisted(c).gcs), data, names[1..])
  {
    var g := c.gcs;
    var fields := Entry("credentials_path", g.credentialsPath) + Entry("default_bucket", g.defaultBucket);
    SectionLookup("gcs", fields, Truthy(g.credentialsPath));
    if Truthy(g.credentialsPath) {
      LoadPresent(x, data, names, fields);
      assert "gcs"[0] != "elevenlabs"[0] && "gcs"[0] != "heygen"[0];
      PairFields("credentials_path", g.credentialsPath, "default_bucket", g.defaultBucket);
    } else {
      LoadAbsent(x, data, names);
    }
  }

  lemma LoadSavedSlack(c: Credentials, x: Credentials, names: seq<string>, data: seq<(string, Json)>)
    requires names != [] && names[0] == "slack" && x.slack == NO_CREDENTIALS.slack
    requires Get(data, "slack") == Get(SlackSection(c.slack), "slack")
    ensures LoadSections(x, data, names) == LoadSections(x.(slack := Persisted(c).slack), data, names[1..])
  {
    var fields := Entry("default_webhook_url", c.slack.defaultWebhookUrl);
    SectionLookup("slack", fields, Truthy(c.slack.defaultWebhookUrl));
    if Truthy(c.slack.defaultWebhookUrl) {
      LoadPresent(x, data, names, fields);
      assert "slack"[0] != "elevenlabs"[0] && "slack"[0] != "heygen"[0] && "slack"[0] != "gcs"[0];
      SingleField("default_webhook_url", c.slack.defaultWebhookUrl);
    } else {
      LoadAbsent(x, data, names);
    }
  }

  lemma LoadSavedLinear(c: Credentials, x: Credentials, names: seq<string>, data: seq<(string, Json)>)
    requires names != [] && names[0] == "linear" && x.linear == NO_CREDENTIALS.linear
    requires Get(data, "linear") == Get(LinearSection(c.linear), "linear")
    ensures LoadSections(x, data, names) == LoadSections(x.(linear := Persisted(c).linear), data, names[1..])
  {
    var fields := Entry("api_key", c.linear.apiKey);
    SectionLookup("linear", fields, Truthy(c.linear.apiKey));
    if Truthy(c.linear.apiKey) {
      LoadPresent(x, data, names, fields);
      assert "linear"[0] != "elevenlabs"[0] && "linear"[0] != "heygen"[0];
      assert "linear"[0] != "gcs"[0] && "linear"[0] != "slack"[0];
      SingleField("api_key", c.linear.apiKey);
    } else {
      LoadAbsent(x, data, names);
    }
  }

  /** Loading the saved document back, with no environment variables,
      gives exactly the persisted values. */
  lemma SaveThenLoad(c: Credentials)
    ensures FileCredentials(Some(JObj(SavedFields(c)))) == Persisted(c)
  {
    SavedElevenLabs(c);
    SavedHeyGen(c);
    SavedGcs(c);
    SavedSlack(c);
    SavedLinear(c);
    LoadsPersisted(c, SavedFields(c));
  }

  /** A document whose sections look up as the saved ones do loads as the
      persisted values. */
  lemma LoadsPersisted(c: Credentials, data: seq<(string, Json)>)
    requires Get(data, "elevenlabs") == Get(ElevenLabsSection(c.elevenlabs), "elevenlabs")
    requires Get(data, "heygen") == Get(HeyGenSection(c.heygen), "heygen")
    requires Get(data, "gcs") == Get(GcsSection(c.gcs), "gcs")
    requires Get(data, "slack") == Get(SlackSection(c.slack), "slack")
    requires Get(data, "linear") == Get(LinearSection(c.linear), "linear")
    ensures LoadSections(NO_CREDENTIALS, data, SECTIONS) == Persisted(c)
  {
    var p := Persisted(c);
    var x1 := NO_CREDENTIALS.(elevenlabs := p.elevenlabs);
    var x2 := x1.(heygen := p.heygen);
    var x3 := x2.(gcs := p.gcs);
    var x4 := x3.(slack := p.slack);
    SectionsInOrder();
    LoadSavedElevenLabs(c, NO_CREDENTIALS, SECTIONS, data);
    LoadSavedHeyGen(c, x1, SECTIONS[1..], data);
    LoadSavedGcs(c, x2, SECTIONS[2..], data);
    LoadSavedSlack(c, x3, SECTIONS[3..], data);
    LoadSavedLinear(c, x4, SECTIONS[4..], data);
  }

  lemma SectionsInOrder()
    ensures SECTIONS[0] == "elevenlabs" && SECTIONS[1..][0] == "heygen" && SECTIONS[2..][0] == "gcs"
    ensures SECTIONS[3..][0] == "slack" && SECTIONS[4..][0] == "linear"
    ensures SECTIONS[1..][1..] == SECTIONS[2..] && SECTIONS[2..][1..] == SECTIONS[3..]
    ensures SECTIONS[3..][1..] == SECTIONS[4..] && SECTIONS[4..][1..] == []
  {
  }

  /** A key taken from the environment is written to the file like any
      other: nothing records where a value came from. */
  lemma SaveWritesEnvironmentKey(f: Credentials, c: Credentials, env: map<string, string>)
    requires EnvOverrides(env, "ELEVENLABS_API_KEY", f.elevenlabs.apiKey, c.elevenlabs.apiKey)
    requires Truthy(Getenv(env, "ELEVENLABS_API_KEY"))
    ensures Get(SavedFields(c), "elevenlabs")
      == Some(JObj(Entry("api_key", Getenv(env, "ELEVENLABS_API_KEY")) + Entry("default_voice_id", c.elevenlabs.defaultVoiceId)))
  {
    SavedElevenLabs(c);
  }

  /** A save and a load keep every service's status. */
  lemma SaveKeepsStatus(c: Credentials, env: map<string, string>, pathExists: string -> bool)
    ensures Status(Persisted(c), env, pathExists) == Status(c, env, pathExists)
  {
  }
}

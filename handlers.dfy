/** `HandleProfiles`, the HTTP entry point for a profile submission: decode,
    validate, create the Job, and answer with a status and a body. The
    decision is `ProfilesResponse`, a pure function of the decode result and
    of the job creator; the `HandleProfiles` method wires it to
    `ValidateProfile` and the older `CreateJob`. */
module Handlers {
  import opened Wrappers
  import Strings
  import UuidText
  import JsonText
  import opened Profiles
  import Kube
  import LegacyRun
  import Repository

  const StatusCreated: int := 201
  const StatusBadRequest: int := 400
  const StatusInternalServerError: int := 500

  const DeserializationError: string := "Deserialization error"
  const CreateFailedMessage: string := "Error creating Kubernetes Job"

  /** What the handler writes: a status code and a body. */
  datatype Response = Response(status: int, body: string)

  /** `http.Error`: the message as the whole body, followed by a newline. */
  function ErrorResponse(msg: string, code: int): (resp: Response)
    ensures resp.status == code
    ensures |resp.body| == |msg| + 1 && resp.body[..|msg|] == msg && resp.body[|msg|] == '\n'
  {
    Response(code, msg + "\n")
  }

  /** What the JSON encoder writes for `profileResp{id}`: the object with its
      one field "id", then a newline. */
  function IdBody(id: string): (body: string)
    ensures body == "{\"id\":\"" + JsonText.Escape(id) + "\"}\n"
  {
    var open, close := "{\"id\":", "}\n";
    Regroup(open, JsonText.Escape(id), close);
    assert open + "\"" == "{\"id\":\"" && "\"" + close == "\"}\n";
    open + JsonText.Quote(id) + close
  }

  /** Moving the quotes of a literal into the text around it. */
  lemma Regroup(open: string, e: string, close: string)
    ensures open + ("\"" + e + "\"") + close == (open + "\"") + e + ("\"" + close)
  {
  }

  /** Reading the id back out of a success body: the literal between
      `{"id":"` and `"}` and a newline, unescaped. `None` for any other text. */
  function IdOfBody(body: string): Option<string>
  {
    if 10 <= |body| && body[..7] == "{\"id\":\"" && body[|body| - 3..] == "\"}\n" then
      JsonText.Unescape(body[7..|body| - 3])
    else
      None
  }

  /** The success body holds exactly the id it was written for, and ends with
      a newline. */
  lemma IdBodyRoundTrip(id: string)
    ensures IdOfBody(IdBody(id)) == Some(id)
    ensures IdBody(id)[|IdBody(id)| - 1] == '\n'
  {
    var e := JsonText.Escape(id);
    var body := IdBody(id);
    assert body == "{\"id\":\"" + e + "\"}\n";
    assert body[..7] == "{\"id\":\"";
    assert body[|body| - 3..] == "\"}\n";
    assert body[7..|body| - 3] == e;
    JsonText.UnescapeEscape(id);
  }

  /** An id with nothing to escape, such as a Job name, is written verbatim. */
  lemma IdBodyPlain(id: string)
    requires forall i | 0 <= i < |id| :: !JsonText.NeedsEscape(id[i])
    ensures IdBody(id) == "{\"id\":\"" + id + "\"}\n"
  {
    JsonText.EscapePlain(id);
  }

  /** The answer when the request is turned away before any Job is created:
      the decoder's error, or the validation messages joined by ", ". */
  function Rejection(decoded: Result<Profile, string>): (r: Option<Response>)
    ensures r.Some? <==> decoded.Err? || decoded.value.text.None?
    ensures decoded.Err? ==> r == Some(Response(StatusBadRequest, DeserializationError + ": " + decoded.error + "\n"))
    ensures decoded.Ok? && decoded.value.text.None? ==> r == Some(Response(StatusBadRequest, TextRequired + "\n"))
  {
    if decoded.Err? then
      Strings.JoinTwo(DeserializationError, decoded.error, ": ");
      Some(ErrorResponse(Strings.Join([DeserializationError, decoded.error], ": "), StatusBadRequest))
    else
      var errMsgs := ValidationErrors(decoded.value);
      if |errMsgs| > 0 then Some(ErrorResponse(Strings.Join(errMsgs, ", "), StatusBadRequest))
      else None
  }

  /** The answer once the creator has run: a fixed message on failure, whatever
      the error; the created id on success. */
  function CreationResponse<E>(created: Result<string, E>): (resp: Response)
    ensures created.Err? ==> resp == Response(StatusInternalServerError, CreateFailedMessage + "\n")
    ensures created.Ok? ==> resp.status == StatusCreated && IdOfBody(resp.body) == Some(created.value)
    ensures created.Ok? ==> resp.body == IdBody(created.value)
  {
    if created.Err? then ErrorResponse(CreateFailedMessage, StatusInternalServerError)
    else
      IdBodyRoundTrip(created.value);
      Response(StatusCreated, IdBody(created.value))
  }

  /** The handler's decision, for a decoded request and an injected job
      creator: decode, then validate, then create; exactly one answer. */
  function ProfilesResponse<E>(decoded: Result<Profile, string>, create: Profile -> Result<string, E>): (resp: Response)
    ensures resp.status == StatusBadRequest <==> decoded.Err? || decoded.value.text.None?
    ensures resp.status == StatusInternalServerError <==>
      decoded.Ok? && decoded.value.text.Some? && create(decoded.value).Err?
    ensures resp.status == StatusCreated <==>
      decoded.Ok? && decoded.value.text.Some? && create(decoded.value).Ok?
    ensures decoded.Err? ==> resp.body == DeserializationError + ": " + decoded.error + "\n"
    ensures decoded.Ok? && decoded.value.text.None? ==> resp.body == TextRequired + "\n"
    ensures resp.status == StatusInternalServerError ==> resp.body == CreateFailedMessage + "\n"
    ensures resp.status == StatusCreated ==> IdOfBody(resp.body) == Some(create(decoded.value).value)
    ensures resp.status == StatusCreated ==> resp.body == IdBody(create(decoded.value).value)
    ensures |resp.body| > 0 && resp.body[|resp.body| - 1] == '\n'
  {
    match Rejection(decoded)
    case Some(rejected) => rejected
    case None =>
      var created := create(decoded.value);
      if created.Ok? then
        IdBodyRoundTrip(created.value);
        CreationResponse(created)
      else
        CreationResponse(created)
  }

  /** A rejected request never reaches the creator: any two creators give the
      same answer. */
  lemma RejectedBeforeCreate<E>(decoded: Result<Profile, string>, c1: Profile -> Result<string, E>, c2: Profile -> Result<string, E>)
    requires decoded.Err? || decoded.value.text.None?
    ensures ProfilesResponse(decoded, c1) == ProfilesResponse(decoded, c2)
  {
  }

  /** The creator's error text never reaches the client: two failing creators
      give the same answer. */
  lemma CreateErrorHidden<E>(p: Profile, c1: Profile -> Result<string, E>, c2: Profile -> Result<string, E>)
    requires c1(p).Err? && c2(p).Err?
    ensures ProfilesResponse(Ok(p), c1) == ProfilesResponse(Ok(p), c2)
  {
  }

  const TestJobName: string := "assessor-cfe8eb87-b9d1-4a84-a253-510228a6241c"
  const TestProfile: Profile := Profile(Some("foo"), map["id" := JNumber(1)])

  /** A creator that always reports the Job `TestJobName`. */
  function FakeJobRepo(p: Profile): Result<string, string>
  {
    Ok(TestJobName)
  }

  /** A creator that always fails. */
  function FakeErroringJobRepo(p: Profile): Result<string, string>
  {
    Err("Job backend go boom!")
  }

  /** A valid request whose creator returns `id` is answered 201 with `id`'s
      body. */
  lemma CreatedResponse<E>(p: Profile, create: Profile -> Result<string, E>, id: string)
    requires p.text.Some? && create(p) == Ok(id)
    ensures ProfilesResponse(Ok(p), create) == Response(StatusCreated, IdBody(id))
  {
  }

  /** Every character of a DNS label is written verbatim by the encoder. */
  lemma DnsLabelPlain(s: string)
    requires UuidText.IsDnsLabel(s)
    ensures forall i | 0 <= i < |s| :: !JsonText.NeedsEscape(s[i])
  {
  }

  /** The names the sequencers give their Jobs, a bare uuid and "assessor-"
      followed by one, come back verbatim in the success body
      `{"id":"<name>"}`. */
  lemma JobNamesVerbatim(uuid: string)
    requires UuidText.IsUuidText(uuid)
    ensures IdBody(uuid) == "{\"id\":\"" + uuid + "\"}\n"
    ensures var name := Repository.ResourceName(uuid);
      IdBody(name) == "{\"id\":\"" + name + "\"}\n"
  {
    UuidText.UuidIsDnsLabel(uuid);
    DnsLabelPlain(uuid);
    IdBodyPlain(uuid);
    Repository.ResourceNameIsDnsLabel(uuid);
    DnsLabelPlain(Repository.ResourceName(uuid));
    IdBodyPlain(Repository.ResourceName(uuid));
  }

  /** A valid request answered by `FakeJobRepo`: 201 and `{"id":"<TestJobName>"}`
      and a newline, the name written verbatim. */
  lemma ServeCreated()
    ensures ProfilesResponse(Ok(TestProfile), FakeJobRepo)
      == Response(201, "{\"id\":\"" + TestJobName + "\"}\n")
  {
    TestJobNamePlain();
    CreatedVerbatim(TestProfile, FakeJobRepo, TestJobName);
  }

  /** A valid request whose creator returns an id with nothing to escape is
      answered 201 with that id written verbatim. */
  lemma CreatedVerbatim<E>(p: Profile, create: Profile -> Result<string, E>, id: string)
    requires p.text.Some? && create(p) == Ok(id)
    requires forall i | 0 <= i < |id| :: !JsonText.NeedsEscape(id[i])
    ensures ProfilesResponse(Ok(p), create) == Response(StatusCreated, "{\"id\":\"" + id + "\"}\n")
  {
    CreatedResponse(p, create, id);
    IdBodyPlain(id);
  }

  /** No character of the test's Job name needs escaping: the name is checked
      in short pieces, each of which Dafny evaluates outright. */
  lemma TestJobNamePlain()
    ensures forall i | 0 <= i < |TestJobName| :: !JsonText.NeedsEscape(TestJobName[i])
  {
    var a, b, c, d, e := "assessor-", "cfe8eb87-", "b9d1-4a84-", "a253-", "510228a6241c";
    PiecesPlain();
    AllPlainConcat(a, b);
    AllPlainConcat(a + b, c);
    AllPlainConcat(a + b + c, d);
    AllPlainConcat(a + b + c + d, e);
    TestJobNameSplit();
  }

  /** The pieces of the test's Job name, each short enough to evaluate. */
  lemma PiecesPlain()
    ensures AllPlain("assessor-") && AllPlain("cfe8eb87-") && AllPlain("b9d1-4a84-")
    ensures AllPlain("a253-") && AllPlain("510228a6241c")
  {
  }

  /** The test's Job name is those pieces in order. */
  lemma TestJobNameSplit()
    ensures TestJobName == "assessor-" + "cfe8eb87-" + "b9d1-4a84-" + "a253-" + "510228a6241c"
  {
  }

  /** Nothing in `s` needs escaping. */
  predicate AllPlain(s: string)
  {
    forall i | 0 <= i < |s| :: !JsonText.NeedsEscape(s[i])
  }

  lemma AllPlainConcat(s: string, t: string)
    requires AllPlain(s) && AllPlain(t)
    ensures AllPlain(s + t)
  {
    forall i | 0 <= i < |s + t| ensures !JsonText.NeedsEscape((s + t)[i]) {
      if i >= |s| {
        assert (s + t)[i] == t[i - |s|];
      }
    }
  }

  /** Malformed JSON: 400 and the decoder's message after the fixed prefix. */
  lemma ServeBadJson()
    ensures var msg := "invalid character 't' looking for beginning of object key string";
      ProfilesResponse(Err(msg), FakeJobRepo) == Response(400, "Deserialization error: " + msg + "\n")
  {
    assert DeserializationError + ": " == "Deserialization error: ";
  }

  /** A request without "text": 400 and the one validation message. */
  lemma ServeBadSchema()
    ensures ProfilesResponse(Ok(Profile(None, map["id" := JNumber(1)])),
                             FakeJobRepo)
      == Response(400, "The field \"text\" is required\n")
  {
  }

  /** A failing creator: 500 and the fixed message, not the creator's error. */
  lemma ServeCreateFailed()
    ensures ProfilesResponse(Ok(TestProfile), FakeErroringJobRepo)
      == Response(500, "Error creating Kubernetes Job\n")
  {
  }

  /** `HandleProfiles` itself: validate with `ValidateProfile`, then create the
      Job with `CreateJob`. A rejected request leaves the control plane as it
      was; otherwise the answer is the one `ProfilesResponse` gives for the
      outcome `CreateJob` reports, and a created Job is named by the uuid the
      body returns. */
  method HandleProfiles(
    cluster: Kube.ControlPlane, conn: Kube.Connection, uuid: string, cfg: LegacyRun.Config,
    decoded: Result<Profile, string>)
    returns (resp: Response, ghost created: Result<string, LegacyRun.CreateError>)
    requires cluster.Valid()
    modifies cluster
    ensures cluster.Valid()
    ensures Rejection(decoded).Some? ==> resp == Rejection(decoded).value && unchanged(cluster)
    ensures Rejection(decoded).None? ==>
      && resp == CreationResponse(created)
      && (conn.Unreachable? ==> created == Err(LegacyRun.ClientsetFailed(conn.reason)) && unchanged(cluster))
      && (conn.Connected? ==>
            LegacyRun.Outcome(cluster.State(), created)
              == LegacyRun.Provision(old(cluster.State()), cluster.faults, uuid, cfg, decoded.value.text.value))
    ensures resp.status == StatusCreated ==>
      && IdOfBody(resp.body) == Some(uuid)
      && LegacyRun.CreatedAndReadable(cluster.State(), uuid, cfg, decoded.value.text.value)
  {
    created := Err(LegacyRun.ClientsetFailed(""));
    if decoded.Err? {
      var msg := Strings.Join([DeserializationError, decoded.error], ": ");
      return ErrorResponse(msg, StatusBadRequest), created;
    }
    var profile := decoded.value;
    var errMsgs := ValidateProfile(profile);
    if |errMsgs| > 0 {
      return ErrorResponse(Strings.Join(errMsgs, ", "), StatusBadRequest), created;
    }
    var jobId := LegacyRun.CreateJob(cluster, conn, uuid, cfg, profile);
    created := jobId;
    if jobId.Err? {
      return ErrorResponse(CreateFailedMessage, StatusInternalServerError), created;
    }
    IdBodyRoundTrip(jobId.value);
    resp := Response(StatusCreated, IdBody(jobId.value));
  }
}

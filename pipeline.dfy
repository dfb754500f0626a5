/**
 * The caption pipeline orchestrator of the upload page: four remote steps run
 * in a fixed order (obtain a presigned upload URL, PUT the image bytes to it,
 * register the uploaded image, generate captions), with a status event before
 * and after each step and every failure reported and re-raised.
 *
 * The network is a transport function from the request issued to what `fetch`
 * settles with; response bodies are abstract (`json()` and `text()` results).
 */
module Pipeline {
  import opened Wrappers
  import opened Text
  import opened Seqs

  const BaseUrl := "https://api.almostcrackd.ai"
  const PresignPath := "/pipeline/generate-presigned-url"
  const RegisterPath := "/pipeline/upload-image-from-url"
  const CaptionsPath := "/pipeline/generate-captions"

  const MissingTokenMessage := "Missing access token. Please sign in again."
  const InvalidCaptionsMessage := "Invalid captions response returned by API."
  const UnknownErrorMessage := "Unknown error"
  const UploadFailedMessage := "Upload failed"

  /** `PipelineStep`: 1 presign, 2 upload, 3 register, 4 captions. */
  type Step = s: int | 1 <= s <= 4 witness 1

  /** `PipelineStepStatus`; `Idle` is the state of a step that has not started and is never emitted. */
  datatype Status = Idle | Running | Success | Error

  /** `PipelineStepUpdate`: the argument of one `onStepUpdate` call. */
  datatype StepUpdate = StepUpdate(step: Step, status: Status, message: Option<string>)

  /** A decoded JSON value (numbers as integers). */
  datatype Json =
    | JNull
    | JBool(b: bool)
    | JNum(n: int)
    | JStr(s: string)
    | JArray(items: seq<Json>)
    | JObject(fields: map<string, Json>)

  /** What the host throws: an `Error` object with its message, or some value that is not an `Error`. */
  datatype HostFailure = ErrorObject(message: string) | NonErrorValue

  /** Everything a step can throw: the pipeline's own error, tagged with its step, or a host failure. */
  datatype Thrown = PipelineError(step: Step, message: string) | Host(failure: HostFailure)

  /** The value of an expression that either completes or throws. */
  datatype Attempt<+T> = Value(value: T) | Throws(error: Thrown) {
    predicate IsFailure() { Throws? }

    function PropagateFailure<U>(): Attempt<U>
      requires Throws?
    {
      Throws(error)
    }

    function Extract(): T
      requires Value?
    {
      value
    }
  }

  /** A host call such as `response.json()` or `response.text()`: a value, or a host failure. */
  datatype HostResult<+T> = Got(value: T) | HostThrew(failure: HostFailure)

  /**
   * A settled `fetch` response: status line, the `content-type` header when
   * present, and what reading its body as JSON or as text would give.
   */
  datatype Response = Response(
    status: nat,
    statusText: string,
    contentType: Option<string>,
    jsonBody: HostResult<Json>,
    textBody: HostResult<string>)
  {
    /** `response.ok` */
    predicate Ok() { 200 <= status <= 299 }
  }

  /** What awaiting `fetch(...)` gives: a response, or a rejection. */
  datatype FetchOutcome = Responded(response: Response) | Rejected(failure: HostFailure)

  /** The requests the pipeline issues: bearer-authenticated JSON POSTs and the unauthenticated PUT of the file. */
  datatype Request =
    | Post(url: string, authorization: string, body: Json)
    | Put(url: string, contentType: string)

  datatype PipelineResult = PipelineResult(cdnUrl: string, imageId: string, captions: seq<Json>)

  /** `error instanceof Error ? error.message : "Unknown error"` */
  function MessageOf(e: Thrown): string {
    match e
    case PipelineError(_, m) => m
    case Host(ErrorObject(m)) => m
    case Host(NonErrorValue) => UnknownErrorMessage
  }

  /** `value.<key>` on a value that is not `null`: the property of an object, `undefined` (None) otherwise. */
  function Field(json: Json, key: string): (r: Option<Json>)
    ensures r.Some? <==> json.JObject? && key in json.fields
    ensures r.Some? ==> r.value == json.fields[key]
  {
    if json.JObject? && key in json.fields then Some(json.fields[key]) else None
  }

  /** The TypeError thrown by reading property `key` of `null`, in V8's wording. */
  function NullAccess(key: string): Thrown {
    Host(ErrorObject("Cannot read properties of null (reading '" + key + "')"))
  }

  /**
   * `json.<key>` when it holds a string. Reading a property of `null` throws
   * inside the extractor's `try`, which gives the fallback just as a missing
   * string does, so `null` needs no case of its own here.
   */
  function StringField(json: Json, key: string): Option<string> {
    var v := Field(json, key);
    if v.Some? && v.value.JStr? then Some(v.value.s) else None
  }

  /** `typeof json.<key> === "string" && json.<key>.trim()` */
  predicate HasNonBlankString(json: Json, key: string) {
    StringField(json, key).Some? && !IsBlank(StringField(json, key).value)
  }

  /** `(response.headers.get("content-type") ?? "").includes("application/json")` */
  predicate IsJsonResponse(response: Response) {
    Contains(response.contentType.GetOr(""), "application/json")
  }

  /** The fallback message: the status code, a space and the status text, trimmed. */
  function Fallback(response: Response): (r: string)
    ensures !IsBlank(r)
  {
    var raw := NatToDecimal(response.status) + " " + response.statusText;
    NotBlank(raw, 0);
    TrimIdempotent(raw);
    Trim(raw)
  }

  /**
   * `readErrorMessage`: a display string for a failed response that never
   * throws and is never blank.
   */
  function ReadErrorMessage(response: Response): (message: string)
    ensures !IsBlank(message)
  {
    var fallback := Fallback(response);
    if IsJsonResponse(response) then
      match response.jsonBody
      case HostThrew(_) => fallback
      case Got(json) =>
        var m := StringField(json, "message");
        var e := StringField(json, "error");
        if m.Some? && !IsBlank(m.value) then m.value
        else if e.Some? && !IsBlank(e.value) then e.value
        else fallback
    else
      match response.textBody
      case HostThrew(_) => fallback
      case Got(text) =>
        if IsBlank(text) then fallback
        else
          TrimIdempotent(text);
          Trim(text)
  }

  /** `postJson` after the request is sent: the decoded body, or the failure attributed to `step`. */
  function PostJson(outcome: FetchOutcome, step: Step): (r: Attempt<Json>)
    ensures r.Value? <==> outcome.Responded? && outcome.response.Ok() && outcome.response.jsonBody.Got?
    ensures r.Value? ==> r.value == outcome.response.jsonBody.value
    ensures outcome.Responded? && !outcome.response.Ok() ==>
      r == Throws(PipelineError(step, ReadErrorMessage(outcome.response)))
    ensures r.Throws? && r.error.PipelineError? ==> r.error.step == step && !IsBlank(r.error.message)
    ensures outcome.Rejected? ==> r == Throws(Host(outcome.failure))
    ensures outcome.Responded? && outcome.response.Ok() && outcome.response.jsonBody.HostThrew? ==>
      r == Throws(Host(outcome.response.jsonBody.failure))
  {
    match outcome
    case Rejected(f) => Throws(Host(f))
    case Responded(response) =>
      if !response.Ok() then Throws(PipelineError(step, ReadErrorMessage(response)))
      else
        match response.jsonBody
        case HostThrew(f) => Throws(Host(f))
        case Got(json) => Value(json)
  }

  /** The message of `assertString`'s error for the field `fieldName`. */
  function InvalidFieldMessage(fieldName: string): string {
    "Invalid " + fieldName + " returned by API."
  }

  /** `assertString`: accepts exactly a string that is not blank, and returns it untrimmed. */
  function AssertString(value: Option<Json>, fieldName: string, step: Step): (r: Attempt<string>)
    ensures r.Value? <==> value.Some? && value.value.JStr? && !IsBlank(value.value.s)
    ensures r.Value? ==> value == Some(JStr(r.value))
    ensures r.Throws? ==> r.error == PipelineError(step, InvalidFieldMessage(fieldName))
  {
    if value.Some? && value.value.JStr? && !IsBlank(value.value.s) then Value(value.value.s)
    else Throws(PipelineError(step, InvalidFieldMessage(fieldName)))
  }

  /** `typeof item === "object" && item !== null`: objects and arrays. */
  predicate IsRecord(item: Json) {
    item.JObject? || item.JArray?
  }

  /** The caption filter: the records of the array, all of them, in order. */
  function FilterCaptions(items: seq<Json>): (captions: seq<Json>)
    ensures forall c :: c in captions <==> c in items && IsRecord(c)
    ensures forall c {:trigger multiset(captions)[c]} ::
      multiset(captions)[c] == if IsRecord(c) then multiset(items)[c] else 0
  {
    var r := Filter(IsRecord, items);
    forall c ensures c in r <==> c in items && IsRecord(c) {
      FilterMembership(IsRecord, items, c);
    }
    forall c ensures multiset(r)[c] == if IsRecord(c) then multiset(items)[c] else 0 {
      FilterCount(IsRecord, items, c);
    }
    r
  }

  function Bearer(token: string): string {
    "Bearer " + token
  }

  function PresignRequest(fileType: string, token: string): Request {
    Post(BaseUrl + PresignPath, Bearer(token), JObject(map["contentType" := JStr(fileType)]))
  }

  function UploadRequest(presignedUrl: string, fileType: string): Request {
    Put(presignedUrl, fileType)
  }

  function RegisterRequest(cdnUrl: string, token: string): Request {
    Post(BaseUrl + RegisterPath, Bearer(token),
      JObject(map["imageUrl" := JStr(cdnUrl), "isCommonUse" := JBool(false)]))
  }

  function CaptionsRequest(imageId: string, token: string): Request {
    Post(BaseUrl + CaptionsPath, Bearer(token), JObject(map["imageId" := JStr(imageId)]))
  }

  /**
   * The body of step 1's `try`: the `presignedUrl` and `cdnUrl` fields of the
   * answer, each validated in that order; a failure of `postJson` comes back
   * unchanged, and a `null` answer throws when its first field is read.
   */
  function Presign(outcome: FetchOutcome): (r: Attempt<(string, string)>)
    ensures PostJson(outcome, 1).Throws? ==> r == Throws(PostJson(outcome, 1).error)
    ensures r.Value? <==>
      PostJson(outcome, 1).Value? &&
      HasNonBlankString(PostJson(outcome, 1).value, "presignedUrl") &&
      HasNonBlankString(PostJson(outcome, 1).value, "cdnUrl")
    ensures r.Value? ==>
      r.value == (StringField(PostJson(outcome, 1).value, "presignedUrl").value,
                  StringField(PostJson(outcome, 1).value, "cdnUrl").value)
    ensures PostJson(outcome, 1) == Value(JNull) ==> r == Throws(NullAccess("presignedUrl"))
    ensures var p := PostJson(outcome, 1);
      p.Value? && !p.value.JNull? && !HasNonBlankString(p.value, "presignedUrl") ==>
      r == Throws(PipelineError(1, InvalidFieldMessage("presignedUrl")))
    ensures var p := PostJson(outcome, 1);
      p.Value? && HasNonBlankString(p.value, "presignedUrl") && !HasNonBlankString(p.value, "cdnUrl") ==>
      r == Throws(PipelineError(1, InvalidFieldMessage("cdnUrl")))
    ensures r.Value? ==> !IsBlank(r.value.0) && !IsBlank(r.value.1)
    ensures r.Throws? && r.error.PipelineError? ==> r.error.step == 1
  {
    var presigned :- PostJson(outcome, 1);
    if presigned.JNull? then Throws(NullAccess("presignedUrl"))
    else
      var presignedUrl :- AssertString(Field(presigned, "presignedUrl"), "presignedUrl", 1);
      var cdnUrl :- AssertString(Field(presigned, "cdnUrl"), "cdnUrl", 1);
      Value((presignedUrl, cdnUrl))
  }

  /** The body of step 2's `try`: the PUT must settle with an ok response. */
  function Upload(outcome: FetchOutcome): (r: Attempt<()>)
    ensures r.Value? <==> outcome.Responded? && outcome.response.Ok()
    ensures outcome.Responded? && !outcome.response.Ok() ==>
      r == Throws(PipelineError(2, ReadErrorMessage(outcome.response)))
    ensures outcome.Rejected? ==> r == Throws(Host(outcome.failure))
    ensures r.Throws? && r.error.PipelineError? ==> r.error.step == 2 && !IsBlank(r.error.message)
  {
    match outcome
    case Rejected(f) => Throws(Host(f))
    case Responded(response) =>
      if response.Ok() then Value(()) else Throws(PipelineError(2, ReadErrorMessage(response)))
  }

  /** What step 2's `catch` re-throws: a `PipelineError` as it is, anything else wrapped as a step-2 error. */
  function UploadRethrown(e: Thrown): (r: Thrown)
    ensures r.PipelineError? && (e.Host? ==> r.step == 2)
    ensures e.PipelineError? ==> r == e
  {
    match e
    case PipelineError(_, _) => e
    case Host(ErrorObject(m)) => PipelineError(2, m)
    case Host(NonErrorValue) => PipelineError(2, UploadFailedMessage)
  }

  /**
   * The body of step 3's `try`: the validated `imageId` field of the answer; a
   * failure of `postJson` comes back unchanged.
   */
  function Register(outcome: FetchOutcome): (r: Attempt<string>)
    ensures PostJson(outcome, 3).Throws? ==> r == Throws(PostJson(outcome, 3).error)
    ensures r.Value? <==> PostJson(outcome, 3).Value? && HasNonBlankString(PostJson(outcome, 3).value, "imageId")
    ensures r.Value? ==> r.value == StringField(PostJson(outcome, 3).value, "imageId").value
    ensures PostJson(outcome, 3) == Value(JNull) ==> r == Throws(NullAccess("imageId"))
    ensures var p := PostJson(outcome, 3);
      p.Value? && !p.value.JNull? && !HasNonBlankString(p.value, "imageId") ==>
      r == Throws(PipelineError(3, InvalidFieldMessage("imageId")))
    ensures r.Value? ==> !IsBlank(r.value)
    ensures r.Throws? && r.error.PipelineError? ==> r.error.step == 3
  {
    var registered :- PostJson(outcome, 3);
    if registered.JNull? then Throws(NullAccess("imageId"))
    else AssertString(Field(registered, "imageId"), "imageId", 3)
  }

  /** The body of step 4's `try`: the body must be an array, and its records are the captions. */
  function Captions(outcome: FetchOutcome): (r: Attempt<seq<Json>>)
    ensures PostJson(outcome, 4).Throws? ==> r == Throws(PostJson(outcome, 4).error)
    ensures PostJson(outcome, 4).Value? && PostJson(outcome, 4).value.JArray? ==>
      r == Value(FilterCaptions(PostJson(outcome, 4).value.items))
    ensures r.Value? ==>
      (PostJson(outcome, 4).Value? && PostJson(outcome, 4).value.JArray? &&
       r.value == FilterCaptions(PostJson(outcome, 4).value.items))
    ensures PostJson(outcome, 4).Value? && !PostJson(outcome, 4).value.JArray? ==>
      r == Throws(PipelineError(4, InvalidCaptionsMessage))
    ensures r.Throws? && r.error.PipelineError? ==> r.error.step == 4
  {
    var raw :- PostJson(outcome, 4);
    if raw.JArray? then Value(FilterCaptions(raw.items))
    else Throws(PipelineError(4, InvalidCaptionsMessage))
  }

  function Started(k: Step): StepUpdate { StepUpdate(k, Running, None) }
  function Succeeded(k: Step): StepUpdate { StepUpdate(k, Success, None) }
  function Failed(k: Step, message: string): StepUpdate { StepUpdate(k, Error, Some(message)) }

  /** The events of steps 1 to n when all of them succeed. */
  function Completed(n: nat): (events: seq<StepUpdate>)
    requires n <= 4
    ensures |events| == 2 * n
  {
    if n == 0 then [] else Completed(n - 1) + [Started(n), Succeeded(n)]
  }

  /** What one run produces: its result, the events emitted, and the requests issued, in order. */
  datatype RunOutcome = RunOutcome(result: Attempt<PipelineResult>, events: seq<StepUpdate>, requests: seq<Request>)

  /** A run that stopped at step k: steps before k succeeded, step k started and reported the error it caught. */
  function StoppedAt(k: Step, caught: Thrown, rethrown: Thrown, requests: seq<Request>): RunOutcome {
    RunOutcome(Throws(rethrown), Completed(k - 1) + [Started(k), Failed(k, MessageOf(caught))], requests)
  }

  /** The behaviour of `runCaptionPipeline`, as a value. */
  function Run(fileType: string, token: string, transport: Request -> FetchOutcome): RunOutcome {
    if IsBlank(token) then RunOutcome(Throws(PipelineError(1, MissingTokenMessage)), [], [])
    else RunPresign(fileType, token, transport)
  }

  /** Step 1 and what follows it. */
  function RunPresign(fileType: string, token: string, transport: Request -> FetchOutcome): RunOutcome {
    var sent := [PresignRequest(fileType, token)];
    match Presign(transport(sent[0]))
    case Throws(e) => StoppedAt(1, e, e, sent)
    case Value(urls) => RunUpload(fileType, token, transport, urls.0, urls.1, sent)
  }

  /** Step 2 and what follows it, after step 1 gave both URLs. */
  function RunUpload(fileType: string, token: string, transport: Request -> FetchOutcome,
                     presignedUrl: string, cdnUrl: string, sent: seq<Request>): RunOutcome
  {
    var request := UploadRequest(presignedUrl, fileType);
    match Upload(transport(request))
    case Throws(e) => StoppedAt(2, e, UploadRethrown(e), sent + [request])
    case Value(_) => RunRegister(token, transport, cdnUrl, sent + [request])
  }

  /** Step 3 and what follows it, after the upload. */
  function RunRegister(token: string, transport: Request -> FetchOutcome, cdnUrl: string, sent: seq<Request>): RunOutcome {
    var request := RegisterRequest(cdnUrl, token);
    match Register(transport(request))
    case Throws(e) => StoppedAt(3, e, e, sent + [request])
    case Value(imageId) => RunCaptions(token, transport, cdnUrl, imageId, sent + [request])
  }

  /** Step 4 and the assembled result. */
  function RunCaptions(token: string, transport: Request -> FetchOutcome, cdnUrl: string, imageId: string,
                       sent: seq<Request>): RunOutcome
  {
    var request := CaptionsRequest(imageId, token);
    match Captions(transport(request))
    case Throws(e) => StoppedAt(4, e, e, sent + [request])
    case Value(captions) => RunOutcome(Value(PipelineResult(cdnUrl, imageId, captions)), Completed(4), sent + [request])
  }

  /**
   * `runCaptionPipeline`. `events` are the arguments passed to `onStepUpdate`
   * in order (a missing callback receives nothing and changes nothing else);
   * `requests` are the calls made through the transport, in order. Each
   * `try`/`catch` block of the source is one method below, which ends the run
   * on a failure and otherwise continues with the next block.
   */
  method RunCaptionPipeline(fileType: string, token: string, transport: Request -> FetchOutcome)
    returns (result: Attempt<PipelineResult>, events: seq<StepUpdate>, requests: seq<Request>)
    ensures RunOutcome(result, events, requests) == Run(fileType, token, transport)
  {
    if IsBlank(token) {
      result, events, requests := Throws(PipelineError(1, MissingTokenMessage)), [], [];
      return;
    }
    result, events, requests := PresignStep(fileType, token, transport);
  }

  /** Step 1: emits its events, then continues with step 2 when both URLs are valid. */
  method PresignStep(fileType: string, token: string, transport: Request -> FetchOutcome)
    returns (result: Attempt<PipelineResult>, events: seq<StepUpdate>, requests: seq<Request>)
    ensures RunOutcome(result, events, requests) == RunPresign(fileType, token, transport)
  {
    events := [Started(1)];
    var request := PresignRequest(fileType, token);
    requests := [request];
    var urls := Presign(transport(request));
    if urls.Throws? {
      events := events + [Failed(1, MessageOf(urls.error))];
      result := Throws(urls.error);
      return;
    }
    events := events + [Succeeded(1)];
    result, events, requests := UploadStep(fileType, token, transport, urls.value.0, urls.value.1, events, requests);
  }

  /** Step 2, after the events and requests of step 1. */
  method UploadStep(fileType: string, token: string, transport: Request -> FetchOutcome,
                    presignedUrl: string, cdnUrl: string, events0: seq<StepUpdate>, requests0: seq<Request>)
    returns (result: Attempt<PipelineResult>, events: seq<StepUpdate>, requests: seq<Request>)
    requires events0 == Completed(1)
    ensures RunOutcome(result, events, requests) == RunUpload(fileType, token, transport, presignedUrl, cdnUrl, requests0)
  {
    events := events0 + [Started(2)];
    var request := UploadRequest(presignedUrl, fileType);
    requests := requests0 + [request];
    var uploaded := Upload(transport(request));
    if uploaded.Throws? {
      events := events + [Failed(2, MessageOf(uploaded.error))];
      result := Throws(UploadRethrown(uploaded.error));
      return;
    }
    events := events + [Succeeded(2)];
    result, events, requests := RegisterStep(token, transport, cdnUrl, events, requests);
  }

  /** Step 3, after the events and requests of steps 1 and 2. */
  method RegisterStep(token: string, transport: Request -> FetchOutcome, cdnUrl: string,
                      events0: seq<StepUpdate>, requests0: seq<Request>)
    returns (result: Attempt<PipelineResult>, events: seq<StepUpdate>, requests: seq<Request>)
    requires events0 == Completed(2)
    ensures RunOutcome(result, events, requests) == RunRegister(token, transport, cdnUrl, requests0)
  {
    events := events0 + [Started(3)];
    var request := RegisterRequest(cdnUrl, token);
    requests := requests0 + [request];
    var registered := Register(transport(request));
    if registered.Throws? {
      events := events + [Failed(3, MessageOf(registered.error))];
      result := Throws(registered.error);
      return;
    }
    events := events + [Succeeded(3)];
    result, events, requests := CaptionsStep(token, transport, cdnUrl, registered.value, events, requests);
  }

  /** Step 4, after the events and requests of steps 1 to 3, and the assembled result. */
  method CaptionsStep(token: string, transport: Request -> FetchOutcome, cdnUrl: string, imageId: string,
                      events0: seq<StepUpdate>, requests0: seq<Request>)
    returns (result: Attempt<PipelineResult>, events: seq<StepUpdate>, requests: seq<Request>)
    requires events0 == Completed(3)
    ensures RunOutcome(result, events, requests) == RunCaptions(token, transport, cdnUrl, imageId, requests0)
  {
    events := events0 + [Started(4)];
    var request := CaptionsRequest(imageId, token);
    requests := requests0 + [request];
    var generated := Captions(transport(request));
    if generated.Throws? {
      events := events + [Failed(4, MessageOf(generated.error))];
      result := Throws(generated.error);
      return;
    }
    events := events + [Succeeded(4)];
    result := Value(PipelineResult(cdnUrl, imageId, generated.value));
  }
}

/**
 * Delivery of a job's result to the Asset Service: one multipart POST carrying the
 * job's fields and, when the output image exists, the image itself, repeated up to
 * `asset_service.retries` times with exponential backoff until a response has
 * status 200.
 *
 * The network is the function `net`: `net(k)` is the outcome of attempt k (a
 * response, or the exception the HTTP client raised). Waiting is not performed; the
 * delays the loop would sleep are returned in order.
 */
module AssetCallback {
  import opened Wrappers
  import opened Text
  import opened Python
  import opened Files
  import Config

  const Provider := "qwen"
  const AttachmentField := "output_image"
  const AttachmentType := "image/png"

  /** The fields every callback carries, whatever the outcome of the job. */
  const RequiredKeys: set<string> :=
    {"job_id", "user_id", "session_id", "provider", "node_id", "model_version", "inference_time_ms"}

  /** The outcome of one POST. */
  datatype Outcome = Response(statusCode: int, text: string) | Raised(message: string)

  /** Only status 200 counts as delivered; any other status is retried. */
  predicate IsSuccess(o: Outcome) {
    o.Response? && o.statusCode == 200
  }

  /** What `last_error` becomes after a failed attempt. */
  function ErrorText(o: Outcome): string {
    match o
    case Response(code, text) => "HTTP " + DecimalString(code) + ": " + text
    case Raised(message) => message
  }

  /** What one call of the retry loop did. */
  datatype Delivery = Delivery(success: bool, attempts: nat, lastError: Option<string>, delays: seq<nat>)

  /** The waits 1, 2, 4, ... before attempts 2, 3, 4, ... */
  function Backoff(n: nat): (r: seq<nat>)
    ensures |r| == n
    ensures forall i :: 0 <= i < n ==> r[i] == Pow2(i)
  {
    if n == 0 then [] else Backoff(n - 1) + [Pow2(n - 1)]
  }

  /**
   * The retry loop from iteration `attempt` on, with the `last_error` and the
   * delays accumulated so far.
   */
  function DeliverFrom(net: nat -> Outcome, maxRetries: int, attempt: nat,
                       lastError: Option<string>, delays: seq<nat>): Delivery
    decreases maxRetries - attempt
  {
    if attempt >= maxRetries then Delivery(false, attempt, lastError, delays)
    else if IsSuccess(net(attempt)) then Delivery(true, attempt + 1, lastError, delays)
    else
      DeliverFrom(net, maxRetries, attempt + 1, Some(ErrorText(net(attempt))),
                  if attempt < maxRetries - 1 then delays + [Pow2(attempt)] else delays)
  }

  /** `for attempt in range(max_retries)` from the start. */
  function Deliver(net: nat -> Outcome, maxRetries: int): Delivery {
    DeliverFrom(net, maxRetries, 0, None, [])
  }

  /** The retry loop of `send_callback`. */
  method RetryLoop(net: nat -> Outcome, maxRetries: int) returns (d: Delivery)
    ensures d == Deliver(net, maxRetries)
  {
    var lastError: Option<string> := None;
    var delays: seq<nat> := [];
    var attempt: nat := 0;
    while attempt < maxRetries
      invariant DeliverFrom(net, maxRetries, attempt, lastError, delays) == Deliver(net, maxRetries)
      decreases maxRetries - attempt
    {
      var outcome := net(attempt);
      if outcome.Response? && outcome.statusCode == 200 {
        return Delivery(true, attempt + 1, lastError, delays);
      }
      lastError := Some(ErrorText(outcome));
      if attempt < maxRetries - 1 {
        delays := delays + [Pow2(attempt)];
      }
      attempt := attempt + 1;
    }
    d := Delivery(false, attempt, lastError, delays);
  }

  lemma {:induction false} DeliverFromFacts(net: nat -> Outcome, m: int, attempt: nat,
                                            lastError: Option<string>, delays: seq<nat>)
    requires attempt < m && delays == Backoff(attempt)
    ensures var d := DeliverFrom(net, m, attempt, lastError, delays);
      && (d.success <==> exists k :: attempt <= k < m && IsSuccess(net(k)))
      && (d.success ==>
            && attempt < d.attempts <= m
            && IsSuccess(net(d.attempts - 1))
            && (forall j :: attempt <= j < d.attempts - 1 ==> !IsSuccess(net(j)))
            && d.delays == Backoff(d.attempts - 1))
      && (!d.success ==>
            && d.attempts == m
            && d.delays == Backoff(m - 1)
            && d.lastError == Some(ErrorText(net(m - 1))))
    decreases m - attempt
  {
    if !IsSuccess(net(attempt)) && attempt < m - 1 {
      DeliverFromFacts(net, m, attempt + 1, Some(ErrorText(net(attempt))), delays + [Pow2(attempt)]);
    }
  }

  /**
   * The delivery contract: success exactly when some attempt within the budget gets
   * status 200, and then it stops at the first such attempt; otherwise every attempt
   * is made (none when the budget is not positive); after failed attempt k it waits
   * 2^k, except after the last attempt.
   */
  lemma DeliverContract(net: nat -> Outcome, m: int)
    ensures var d := Deliver(net, m);
      && (d.success <==> exists k :: 0 <= k < m && IsSuccess(net(k)))
      && (d.success ==>
            && 0 < d.attempts <= m
            && IsSuccess(net(d.attempts - 1))
            && forall j :: 0 <= j < d.attempts - 1 ==> !IsSuccess(net(j)))
      && (!d.success ==> d.attempts == if m > 0 then m else 0)
      && |d.delays| == (if d.success then d.attempts - 1 else if m > 0 then m - 1 else 0)
      && (forall i :: 0 <= i < |d.delays| ==> d.delays[i] == Pow2(i))
      && (!d.success && m > 0 ==> d.lastError == Some(ErrorText(net(m - 1))))
      && (m <= 0 ==> d == Delivery(false, 0, None, []))
  {
    if m > 0 {
      DeliverFromFacts(net, m, 0, None, []);
    }
  }

  /** With three attempts that all fail: three attempts, waits of 1 and 2, failure. */
  lemma ThreeFailedAttempts(net: nat -> Outcome)
    requires forall k :: !IsSuccess(net(k))
    ensures Deliver(net, 3) == Delivery(false, 3, Some(ErrorText(net(2))), [1, 2])
  {
    DeliverContract(net, 3);
    var d := Deliver(net, 3);
    assert d.delays[0] == Pow2(0) && d.delays[1] == Pow2(1);
  }

  /** A first attempt with status 200 is the only attempt. */
  lemma FirstAttemptDelivers(net: nat -> Outcome, m: int)
    requires m >= 1 && IsSuccess(net(0))
    ensures Deliver(net, m) == Delivery(true, 1, None, [])
  {
  }

  // ----------------------------------------------------------- the request

  /** The configuration values `send_callback` reads, in the order it reads them. */
  datatype Settings = Settings(callbackUrl: Value, authToken: Value, timeout: Value,
                               retries: Value, nodeId: Value, modelVersion: Value)

  function SettingsOf(config: Value): Result<Settings, Exception> {
    var url :- Config.AssetCallbackUrl(config);
    var token :- Config.AssetAuthToken(config);
    var timeout :- Config.AssetTimeout(config);
    var retries :- Config.AssetRetries(config);
    var node :- Config.NodeId(config);
    var version :- Config.ModelVersion(config);
    Ok(Settings(url, token, timeout, retries, node, version))
  }

  /** `range(max_retries)` accepts an int (a bool counts as 0 or 1) and raises otherwise. */
  function RangeBound(v: Value): Result<int, Exception> {
    match v
    case VInt(i) => Ok(i)
    case VBool(b) => Ok(if b then 1 else 0)
    case _ => Err(Exception("TypeError", "'" + TypeName(v) + "' object cannot be interpreted as an integer"))
  }

  /** `if error:` on an optional string. */
  predicate ErrorGiven(error: Option<string>) {
    error.Some? && error.value != ""
  }

  /**
   * The form fields: the seven fields every callback carries, `error` when an error
   * text is given, `meta` (JSON-encoded by `dumps`) when the metadata is truthy.
   */
  function FormData(jobId: string, userId: string, sessionId: string, nodeId: Value, modelVersion: Value,
                    inferenceTimeMs: real, error: Option<string>, meta: Value, dumps: Value -> string)
    : (r: map<string, Value>)
    ensures r.Keys == RequiredKeys + (if ErrorGiven(error) then {"error"} else {})
                                   + (if Truthy(meta) then {"meta"} else {})
    ensures r["job_id"] == VStr(jobId) && r["user_id"] == VStr(userId) && r["session_id"] == VStr(sessionId)
    ensures r["provider"] == VStr(Provider) && r["node_id"] == nodeId && r["model_version"] == modelVersion
    ensures r["inference_time_ms"].VStr? && ParseInt(r["inference_time_ms"].s) == Some(Truncate(inferenceTimeMs))
    ensures ErrorGiven(error) ==> r["error"] == VStr(error.value)
    ensures Truthy(meta) ==> r["meta"] == VStr(dumps(meta))
  {
    DecimalStringRoundTrip(Truncate(inferenceTimeMs));
    var data := map[
      "job_id" := VStr(jobId),
      "user_id" := VStr(userId),
      "session_id" := VStr(sessionId),
      "provider" := VStr(Provider),
      "node_id" := nodeId,
      "model_version" := modelVersion,
      "inference_time_ms" := VStr(DecimalString(Truncate(inferenceTimeMs)))
    ];
    var withError := if ErrorGiven(error) then data["error" := VStr(error.value)] else data;
    if Truthy(meta) then withError["meta" := VStr(dumps(meta))] else withError
  }

  /** The uploaded file: its name, the path of the open handle, and its content type. */
  datatype Attachment = Attachment(fileName: string, path: string, contentType: string)

  /** The `files` part: the output image, only when a path is given and the file exists. */
  function FilesPart(outputImagePath: string, existing: set<string>): (r: map<string, Attachment>)
    ensures AttachmentField in r <==> outputImagePath != "" && outputImagePath in existing
    ensures r.Keys <= {AttachmentField}
    ensures AttachmentField in r ==>
              r[AttachmentField] == Attachment(BaseName(outputImagePath), outputImagePath, AttachmentType)
  {
    if outputImagePath != "" && outputImagePath in existing then
      map[AttachmentField := Attachment(BaseName(outputImagePath), outputImagePath, AttachmentType)]
    else map[]
  }

  /** One POST as sent: the URL, the form fields, the files and the headers. */
  datatype Request = Request(url: Value, data: map<string, Value>, files: map<string, Attachment>,
                             headers: map<string, Value>)

  /** What a completed `send_callback` sent and how delivery went; it returns `delivery.success`. */
  datatype Sent = Sent(request: Request, delivery: Delivery)

  /** Everything `send_callback` does, as a function of its inputs and the files that exist. */
  function CallbackOutcome(config: Value, net: nat -> Outcome, dumps: Value -> string,
                           jobId: string, userId: string, sessionId: string, outputImagePath: string,
                           inferenceTimeMs: real, error: Option<string>, meta: Value, existing: set<string>)
    : Result<Sent, Exception>
  {
    var s :- SettingsOf(config);
    var request := Request(
      s.callbackUrl,
      FormData(jobId, userId, sessionId, s.nodeId, s.modelVersion, inferenceTimeMs, error, meta, dumps),
      FilesPart(outputImagePath, existing),
      map["X-Internal-Auth" := s.authToken]);
    var bound :- RangeBound(s.retries);
    Ok(Sent(request, Deliver(net, bound)))
  }

  /**
   * Every request carries the configured Asset Service token in X-Internal-Auth, and
   * the delivery runs with the configured retry budget.
   */
  lemma CallbackUsesConfiguredSettings(config: Value, net: nat -> Outcome, dumps: Value -> string,
                                       jobId: string, userId: string, sessionId: string, outputImagePath: string,
                                       inferenceTimeMs: real, error: Option<string>, meta: Value, existing: set<string>)
    requires CallbackOutcome(config, net, dumps, jobId, userId, sessionId, outputImagePath,
                             inferenceTimeMs, error, meta, existing).Ok?
    ensures var sent := CallbackOutcome(config, net, dumps, jobId, userId, sessionId, outputImagePath,
                                        inferenceTimeMs, error, meta, existing).value;
      && Config.AssetAuthToken(config).Ok?
      && sent.request.headers == map["X-Internal-Auth" := Config.AssetAuthToken(config).value]
      && Config.AssetRetries(config).Ok?
      && RangeBound(Config.AssetRetries(config).value).Ok?
      && sent.delivery == Deliver(net, RangeBound(Config.AssetRetries(config).value).value)
  {
  }

  /**
   * `send_callback`. Settings are read first (a missing key raises before anything is
   * opened); the output image is opened if it exists; the retry loop runs; the handle
   * is closed however the loop ends, including when `range` raises.
   */
  method SendCallback(fs: FileSystem, config: Value, net: nat -> Outcome, dumps: Value -> string,
                      jobId: string, userId: string, sessionId: string, outputImagePath: string,
                      inferenceTimeMs: real, error: Option<string> := None, meta: Value := VNone)
    returns (r: Result<Sent, Exception>)
    modifies fs
    ensures fs.present == old(fs.present) && fs.openHandles == old(fs.openHandles)
    ensures r == CallbackOutcome(config, net, dumps, jobId, userId, sessionId, outputImagePath,
                                 inferenceTimeMs, error, meta, old(fs.present))
  {
    var settings := SettingsOf(config);
    if settings.Err? {
      return Err(settings.error);
    }
    var s := settings.value;
    var data := FormData(jobId, userId, sessionId, s.nodeId, s.modelVersion, inferenceTimeMs, error, meta, dumps);
    var files: map<string, Attachment> := map[];
    var handleOpen := false;
    if outputImagePath != "" && outputImagePath in fs.present {
      fs.Open(outputImagePath);
      handleOpen := true;
      files := files[AttachmentField := Attachment(BaseName(outputImagePath), outputImagePath, AttachmentType)];
    }
    var request := Request(s.callbackUrl, data, files, map["X-Internal-Auth" := s.authToken]);
    // try: the loop; finally: close the handle.
    var bound := RangeBound(s.retries);
    var delivery := Delivery(false, 0, None, []);
    if bound.Ok? {
      delivery := RetryLoop(net, bound.value);
    }
    if handleOpen {
      fs.Close(outputImagePath);
    }
    if bound.Err? {
      return Err(bound.error);
    }
    return Ok(Sent(request, delivery));
  }

  /**
   * `send_error_callback`: `send_callback` with no image path, zero time and the
   * error text.
   */
  method SendErrorCallback(fs: FileSystem, config: Value, net: nat -> Outcome, dumps: Value -> string,
                           jobId: string, userId: string, sessionId: string, error: string)
    returns (r: Result<Sent, Exception>)
    modifies fs
    ensures fs.present == old(fs.present) && fs.openHandles == old(fs.openHandles)
    ensures r == CallbackOutcome(config, net, dumps, jobId, userId, sessionId, "", 0.0, Some(error), VNone,
                                 old(fs.present))
  {
    r := SendCallback(fs, config, net, dumps, jobId, userId, sessionId, "", 0.0, Some(error));
  }

  /**
   * An error callback never attaches a file, reports time "0", carries the error
   * field exactly when the text is non-empty, and carries no metadata.
   */
  lemma ErrorCallbackShape(config: Value, net: nat -> Outcome, dumps: Value -> string,
                           jobId: string, userId: string, sessionId: string, error: string, existing: set<string>)
    requires CallbackOutcome(config, net, dumps, jobId, userId, sessionId, "", 0.0, Some(error), VNone, existing).Ok?
    ensures var req := CallbackOutcome(config, net, dumps, jobId, userId, sessionId, "", 0.0, Some(error),
                                       VNone, existing).value.request;
      && req.files == map[]
      && req.data["inference_time_ms"] == VStr("0")
      && ("error" in req.data <==> error != "")
      && (error != "" ==> req.data["error"] == VStr(error))
      && "meta" !in req.data
  {
    assert Truncate(0.0) == 0;
  }
}

/**
 * The `/tryon` endpoint and the background job it starts.
 *
 * The handler is a chain of guards over the scheduler's state: authentication, the
 * provider, a free slot, the slot taken, the optional JSON configuration read with
 * defaults, and the 202 response. `Tryon` gives the state it leaves, the job it
 * starts (if any) and what it returns or raises. `race` stands for another request's
 * `accept_job` running between this request's `can_accept_job` and `accept_job`.
 *
 * `ProcessInference` is the background job: save both uploads, validate them, run
 * inference, send the callback; on any exception send an error callback; always
 * delete the temporary files and release the slot.
 */
module Tryon {
  import opened Wrappers
  import opened Text
  import opened Python
  import opened Http
  import opened Scheduler
  import opened Files
  import opened AssetCallback
  import Auth
  import Config

  const Provider := "qwen"
  const BusyMessage := "GPU is busy. Try another node."
  const DefaultPrompt: string := "将图片 1 中的绿色遮罩区域仅用于判断服装属于上半身或下半身，不要将服装限制在遮罩范围内。\n\n将图片 2 中的服装自然地穿戴到图片 1 中的人物身上，保持图片 2 中服装的完整形状、袖长和轮廓。无论图片 2 是单独的服装图还是人物穿着该服装的图，都应准确地转移服装，同时保留其原始面料质感、材质细节和颜色准确性。\n\n确保图片 1 中人物的面部、头发和皮肤完全保持不变。光照与阴影应自然匹配图片 1 的环境，但服装的材质外观必须忠实于图片 2。\n\n保持边缘平滑融合、阴影逼真，整体效果自然且不改变人物的身份特征"

  /** The form fields of a request; the two uploads are not represented. */
  datatype Form = Form(jobId: string, userId: string, sessionId: string, provider: string, config: Option<string>)

  /** The inference settings handed to the job. */
  datatype Params = Params(prompt: Value, seed: Value, steps: Value, cfg: Value)

  const DefaultParams := Params(VStr(DefaultPrompt), VNone, VInt(4), VFloat(1.0))

  /** The job a successful request starts. */
  datatype Job = Job(jobId: string, userId: string, sessionId: string, params: Params)

  /** The 202 body. */
  datatype TryonResponse = TryonResponse(jobId: string, status: string, nodeId: Value)

  /** The scheduler state after the handler, the job it started, and its response. */
  datatype HandlerResult = HandlerResult(state: Status, task: Option<Job>, outcome: Result<TryonResponse, Raised>)

  /** The 429 raised while the slot is taken; reading the node id may itself raise. */
  function Busy(jobId: string, config: Value): (r: Raised)
    ensures Config.NodeId(config).Err? ==> r == Unhandled(Config.NodeId(config).error)
    ensures Config.NodeId(config).Ok? ==>
              && r.HttpException? && r.statusCode == 429
              && r.headers == map["Retry-After" := VStr("1"), "X-Node-Id" := Config.NodeId(config).value]
              && r.detail.VDict? && r.detail.entries.Keys == {"job_id", "status", "node_id", "message"}
              && r.detail.entries["status"] == VStr("REJECTED_BUSY")
              && r.detail.entries["job_id"] == VStr(jobId)
              && r.detail.entries["node_id"] == Config.NodeId(config).value
  {
    match Config.NodeId(config)
    case Err(e) => Unhandled(e)
    case Ok(node) =>
      HttpException(
        429,
        VDict(map["job_id" := VStr(jobId), "status" := VStr("REJECTED_BUSY"),
                  "node_id" := node, "message" := VStr(BusyMessage)]),
        map["Retry-After" := VStr("1"), "X-Node-Id" := node])
  }

  /** The exception `json.loads` raises on text that is not JSON: the only one the handler catches. */
  const JsonDecodeError := "JSONDecodeError"

  /**
   * `inference_config`: `{}` unless the field is non-empty; then what `json.loads`
   * returns, `{}` when it raises JSONDecodeError, and any other exception it raises
   * (RecursionError on deeply nested input, say) propagates. `parseJson` is `json.loads`.
   */
  function InferenceConfig(field: Option<string>, parseJson: string -> Result<Value, Exception>)
    : (r: Result<Value, Exception>)
    ensures field.None? || field == Some("") ==> r == Ok(VDict(map[]))
    ensures field.Some? && field.value != "" && parseJson(field.value).Ok? ==> r == parseJson(field.value)
    ensures field.Some? && field.value != "" && parseJson(field.value).Err? ==>
              (r.Ok? <==> parseJson(field.value).error.kind == JsonDecodeError)
    ensures r.Err? ==> field.Some? && r == parseJson(field.value) && r.error.kind != JsonDecodeError
    ensures r.Ok? && (field.None? || field == Some("") || parseJson(field.value).Err?) ==> r == Ok(VDict(map[]))
  {
    if field.Some? && field.value != "" then
      match parseJson(field.value)
      case Ok(v) => Ok(v)
      case Err(e) => if e.kind == JsonDecodeError then Ok(VDict(map[])) else Err(e)
    else Ok(VDict(map[]))
  }

  /** The four `.get` calls with their defaults, in argument order. */
  function Parameters(inferenceConfig: Value): (r: Result<Params, Exception>)
    ensures r.Ok? <==> inferenceConfig.VDict?
    ensures !inferenceConfig.VDict? ==>
              r == Err(NoAttribute(inferenceConfig, "get"))
    ensures inferenceConfig == VDict(map[]) ==> r == Ok(DefaultParams)
    ensures r.Ok? ==>
              var e := inferenceConfig.entries;
              && r.value.prompt == (if "prompt" in e then e["prompt"] else VStr(DefaultPrompt))
              && r.value.seed == (if "seed" in e then e["seed"] else VNone)
              && r.value.steps == (if "steps" in e then e["steps"] else VInt(4))
              && r.value.cfg == (if "cfg" in e then e["cfg"] else VFloat(1.0))
  {
    // The first `.get` raises on a non-dictionary; once it has not, none of the others does.
    var prompt :- Get(inferenceConfig, "prompt", VStr(DefaultPrompt));
    Ok(Params(prompt, Get(inferenceConfig, "seed", VNone).value, Get(inferenceConfig, "steps", VInt(4)).value,
              Get(inferenceConfig, "cfg", VFloat(1.0)).value))
  }

  /**
   * The guard chain, given the inference parameters the handler would compute once
   * the slot is taken.
   */
  function Admit(headers: map<string, string>, config: Value, s: Status, race: Option<string>,
                 form: Form, params: Result<Params, Exception>): (r: HandlerResult)
    ensures Auth.RequireInternalAuth(headers, config).Err? ==>
              r == HandlerResult(s, None, Err(Auth.RequireInternalAuth(headers, config).error))
    ensures Auth.RequireInternalAuth(headers, config).Ok? && form.provider != Provider ==>
              r == HandlerResult(s, None, Err(HttpException(400,
                     VStr("Invalid provider: " + form.provider + ". Must be 'qwen'"), map[])))
    ensures Auth.RequireInternalAuth(headers, config).Ok? && form.provider == Provider && s.busy ==>
              r == HandlerResult(s, None, Err(Busy(form.jobId, config)))
    ensures r.task.Some? <==>
              Auth.RequireInternalAuth(headers, config).Ok? && form.provider == Provider && !s.busy
              && race.None? && params.Ok?
    ensures r.task.Some? ==>
              r.state == Accept(s, form.jobId).0
              && r.task.value == Job(form.jobId, form.userId, form.sessionId, params.value)
    ensures r.outcome.Ok? <==> r.task.Some? && Config.NodeId(config).Ok?
    ensures r.outcome.Ok? ==> r.outcome.value == TryonResponse(form.jobId, "ACCEPTED", Config.NodeId(config).value)
  {
    match Auth.RequireInternalAuth(headers, config)
    case Err(e) => HandlerResult(s, None, Err(e))
    case Ok(_) =>
      if form.provider != Provider then
        HandlerResult(s, None, Err(HttpException(400,
          VStr("Invalid provider: " + form.provider + ". Must be 'qwen'"), map[])))
      else if s.busy then HandlerResult(s, None, Err(Busy(form.jobId, config)))
      else
        var before := if race.Some? then Accept(s, race.value).0 else s;
        var (after, accepted) := Accept(before, form.jobId);
        if !accepted then HandlerResult(after, None, Err(Busy(form.jobId, config)))
        else
          match params
          case Err(e) => HandlerResult(after, None, Err(Unhandled(e)))
          case Ok(p) =>
            var task := Some(Job(form.jobId, form.userId, form.sessionId, p));
            match Config.NodeId(config)
            case Err(e) => HandlerResult(after, task, Err(Unhandled(e)))
            case Ok(node) => HandlerResult(after, task, Ok(TryonResponse(form.jobId, "ACCEPTED", node)))
  }

  /** The parameters as written: `.get` is called on whatever `json.loads` returned, if it returned. */
  function WrittenParameters(field: Option<string>, parseJson: string -> Result<Value, Exception>)
    : (r: Result<Params, Exception>)
    ensures InferenceConfig(field, parseJson).Err? ==> r == Err(InferenceConfig(field, parseJson).error)
    ensures InferenceConfig(field, parseJson).Ok? ==> r == Parameters(InferenceConfig(field, parseJson).value)
  {
    var inferenceConfig :- InferenceConfig(field, parseJson);
    Parameters(inferenceConfig)
  }

  /**
   * The handler as written: once the guards pass and no other request won the race,
   * the slot is taken before the configuration is read, so a failure to read it
   * leaves the slot taken with no job.
   */
  function Tryon(headers: map<string, string>, config: Value, s: Status, race: Option<string>,
                 form: Form, parseJson: string -> Result<Value, Exception>): (r: HandlerResult)
    ensures (Auth.RequireInternalAuth(headers, config).Ok? && form.provider == Provider && !s.busy && race.None?) ==>
              r.state == Accept(s, form.jobId).0
    ensures r.task.Some? <==>
              && Auth.RequireInternalAuth(headers, config).Ok? && form.provider == Provider && !s.busy
              && race.None? && WrittenParameters(form.config, parseJson).Ok?
    ensures r.task.Some? ==> r.task.value.params == WrittenParameters(form.config, parseJson).value
    ensures (Auth.RequireInternalAuth(headers, config).Ok? && form.provider == Provider && !s.busy && race.None?
             && WrittenParameters(form.config, parseJson).Err?) ==>
              r.outcome == Err(Unhandled(WrittenParameters(form.config, parseJson).error))
  {
    Admit(headers, config, s, race, form, WrittenParameters(form.config, parseJson))
  }

  /**
   * A configuration that parses to something other than an object takes the slot,
   * raises AttributeError before any job starts, and nothing ever releases the slot.
   */
  lemma NonObjectConfigLeaksSlot(headers: map<string, string>, config: Value, form: Form,
                                 parseJson: string -> Result<Value, Exception>)
    requires Auth.VerifyInternalAuth(headers, config) == Ok(true)
    requires form.provider == Provider && form.config.Some? && form.config.value != ""
    requires parseJson(form.config.value) == Ok(VList([]))
    ensures var r := Tryon(headers, config, Initial, None, form, parseJson);
      && r.state == Status(true, Some(form.jobId), 1)
      && r.task.None?
      && r.outcome == Err(Unhandled(NoAttribute(VList([]), "get")))
  {
    assert InferenceConfig(form.config, parseJson) == Ok(VList([]));
  }

  /**
   * Likewise a parser exception other than JSONDecodeError: it leaves the handler
   * after the slot is taken, and no job is started to release it.
   */
  lemma ParserErrorLeaksSlot(headers: map<string, string>, config: Value, form: Form,
                             parseJson: string -> Result<Value, Exception>, e: Exception)
    requires Auth.VerifyInternalAuth(headers, config) == Ok(true)
    requires form.provider == Provider && form.config.Some? && form.config.value != ""
    requires parseJson(form.config.value) == Err(e) && e.kind != JsonDecodeError
    ensures var r := Tryon(headers, config, Initial, None, form, parseJson);
      && r.state == Status(true, Some(form.jobId), 1)
      && r.task.None?
      && r.outcome == Err(Unhandled(e))
  {
    assert InferenceConfig(form.config, parseJson) == Err(e);
  }

  /** The configuration as the handler evidently means it: anything but an object counts as none. */
  function ObjectOrEmpty(v: Value): (r: Value)
    ensures r.VDict?
    ensures v.VDict? ==> r == v
  {
    if v.VDict? then v else VDict(map[])
  }

  /**
   * The configuration read as the handler's "using defaults" warning means it: any
   * failure to parse, and any document that is not an object, gives `{}`.
   */
  function CheckedConfig(field: Option<string>, parseJson: string -> Result<Value, Exception>): (r: Value)
    ensures r.VDict?
    ensures InferenceConfig(field, parseJson).Ok? && InferenceConfig(field, parseJson).value.VDict? ==>
              r == InferenceConfig(field, parseJson).value
    ensures !(InferenceConfig(field, parseJson).Ok? && InferenceConfig(field, parseJson).value.VDict?) ==>
              r == VDict(map[])
  {
    match InferenceConfig(field, parseJson)
    case Ok(v) => ObjectOrEmpty(v)
    case Err(_) => VDict(map[])
  }

  /** The corrected handler: the configuration is read through `CheckedConfig`. */
  function TryonChecked(headers: map<string, string>, config: Value, s: Status, race: Option<string>,
                        form: Form, parseJson: string -> Result<Value, Exception>): HandlerResult
  {
    Admit(headers, config, s, race, form, Parameters(CheckedConfig(form.config, parseJson)))
  }

  /**
   * In the corrected handler the slot is taken only together with a job that will
   * release it, whatever the parser does, and for configurations that parse to an
   * object the two handlers agree.
   */
  lemma CheckedHandlerNeverLeaks(headers: map<string, string>, config: Value, s: Status, form: Form,
                                 parseJson: string -> Result<Value, Exception>)
    ensures var r := TryonChecked(headers, config, s, None, form, parseJson);
      (r.state != s ==> r.task.Some?) && (r.task.Some? ==> r.state == Accept(s, form.jobId).0)
    ensures InferenceConfig(form.config, parseJson).Ok? && InferenceConfig(form.config, parseJson).value.VDict? ==>
              TryonChecked(headers, config, s, None, form, parseJson) == Tryon(headers, config, s, None, form, parseJson)
  {
  }

  /**
   * A request that loses the race between the check and the accept gets the same 429
   * and leaves the slot with the job that won.
   */
  lemma RaceLoserRejected(headers: map<string, string>, config: Value, s: Status, other: string, form: Form,
                          parseJson: string -> Result<Value, Exception>)
    requires Auth.VerifyInternalAuth(headers, config) == Ok(true)
    requires form.provider == Provider && !s.busy
    ensures var r := TryonChecked(headers, config, s, Some(other), form, parseJson);
      && r == HandlerResult(Accept(s, other).0, None, Err(Busy(form.jobId, config)))
      && r.state.currentJobId == Some(other)
  {
  }

  /**
   * An accepted job, once its background task completes it, leaves a consistent
   * scheduler free again: the slot goes back to its initial state.
   */
  lemma AcceptedJobIsReleased(headers: map<string, string>, config: Value, s: Status, form: Form,
                              parseJson: string -> Result<Value, Exception>)
    requires Consistent(s)
    requires TryonChecked(headers, config, s, None, form, parseJson).task.Some?
    ensures var r := TryonChecked(headers, config, s, None, form, parseJson);
      && r.state == Status(true, Some(form.jobId), 1)
      && Complete(r.state, r.task.value.jobId) == Initial
  {
  }

  /** A request without configuration runs with the default prompt, no seed, 4 steps, cfg 1.0. */
  lemma NoConfigUsesDefaults(headers: map<string, string>, config: Value, form: Form,
                             parseJson: string -> Result<Value, Exception>)
    requires Auth.VerifyInternalAuth(headers, config) == Ok(true)
    requires form.provider == Provider && form.config.None?
    ensures TryonChecked(headers, config, Initial, None, form, parseJson).task
         == Some(Job(form.jobId, form.userId, form.sessionId, DefaultParams))
  {
  }

  // ------------------------------------------------------- the background job

  /**
   * What `save_uploaded_file` did: the path it wrote and returned, or the exception
   * it raised together with the file its `open` had already created, if any.
   */
  datatype SaveOutcome = Saved(path: string) | SaveFailed(error: Exception, leftover: Option<string>)

  /**
   * What the job's collaborators do: the two saves, what `validate_image_file`
   * reports for each upload (`None` when valid), and what `run_inference` returns
   * (the output path and time) or raises.
   */
  datatype Steps = Steps(masked: SaveOutcome, garment: SaveOutcome,
                         maskedCheck: Option<string>, garmentCheck: Option<string>,
                         infer: Result<(string, real), Exception>)

  /** The exception the job's steps raise before the callback, if any. */
  function StepFailure(st: Steps): (r: Option<Exception>)
    ensures r.None? <==> && st.masked.Saved? && st.garment.Saved?
                         && st.maskedCheck.None? && st.garmentCheck.None? && st.infer.Ok?
    ensures st.masked.SaveFailed? ==> r == Some(st.masked.error)
    ensures st.masked.Saved? && st.garment.SaveFailed? ==> r == Some(st.garment.error)
    ensures st.masked.Saved? && st.garment.Saved? && st.maskedCheck.Some? ==>
              r == Some(Exception("ValueError", "Invalid masked_user_image: " + st.maskedCheck.value))
    ensures st.masked.Saved? && st.garment.Saved? && st.maskedCheck.None? && st.garmentCheck.Some? ==>
              r == Some(Exception("ValueError", "Invalid garment_image: " + st.garmentCheck.value))
    ensures (st.masked.Saved? && st.garment.Saved? && st.maskedCheck.None? && st.garmentCheck.None?
             && st.infer.Err?) ==> r == Some(st.infer.error)
  {
    if st.masked.SaveFailed? then Some(st.masked.error)
    else if st.garment.SaveFailed? then Some(st.garment.error)
    else if st.maskedCheck.Some? then Some(Exception("ValueError", "Invalid masked_user_image: " + st.maskedCheck.value))
    else if st.garmentCheck.Some? then Some(Exception("ValueError", "Invalid garment_image: " + st.garmentCheck.value))
    else if st.infer.Err? then Some(st.infer.error)
    else None
  }

  /** The file a failed save left behind, as a set. */
  function Leftover(save: SaveOutcome): set<string> {
    if save.SaveFailed? && save.leftover.Some? then {save.leftover.value} else {}
  }

  /**
   * The files the two saves leave: the garment is saved only after the masked image
   * was, and a failed save leaves what its `open` created.
   */
  function Uploaded(existing: set<string>, masked: SaveOutcome, garment: SaveOutcome): set<string> {
    if masked.SaveFailed? then existing + Leftover(masked)
    else if garment.SaveFailed? then existing + {masked.path} + Leftover(garment)
    else existing + {masked.path, garment.path}
  }

  /** A path as the `if temp_path:` test sees it: the empty path is skipped. */
  function Truthy(path: string): (r: set<string>)
    ensures path != "" <==> r == {path}
    ensures path == "" <==> r == {}
  {
    if path != "" then {path} else {}
  }

  /**
   * The paths the `finally` clause removes: those `temp_masked_path` and
   * `temp_garment_path` were assigned, that is, the saves that returned, and that
   * are not empty.
   */
  function TempPaths(masked: SaveOutcome, garment: SaveOutcome): (r: set<string>)
    ensures "" !in r
    ensures masked.Saved? && masked.path != "" ==> masked.path in r
    ensures masked.Saved? && garment.SaveFailed? ==> r == Truthy(masked.path)
    ensures masked.Saved? && garment.Saved? ==> r == Truthy(masked.path) + Truthy(garment.path)
    ensures masked.SaveFailed? ==> r == {}
  {
    if masked.SaveFailed? then {}
    else if garment.SaveFailed? then Truthy(masked.path)
    else Truthy(masked.path) + Truthy(garment.path)
  }

  /** The files present once the job's steps have run: the saves, and the output if inference returned. */
  function AfterSteps(existing: set<string>, st: Steps): set<string> {
    var uploaded := Uploaded(existing, st.masked, st.garment);
    if StepFailure(st).None? then uploaded + {st.infer.value.0} else uploaded
  }

  /** What the `try` block ends with: the exception it raised, or the result callback it sent. */
  function StepsOutcome(config: Value, net: nat -> AssetCallback.Outcome, dumps: Value -> string, job: Job,
                        st: Steps, afterSteps: set<string>): (Option<Exception>, Option<Sent>)
  {
    match StepFailure(st)
    case Some(e) => (Some(e), None)
    case None =>
      match CallbackOutcome(config, net, dumps, job.jobId, job.userId, job.sessionId, st.infer.value.0,
                            st.infer.value.1, None, VNone, afterSteps)
      case Err(e) => (Some(e), None)
      case Ok(sent) => (None, Some(sent))
  }

  /**
   * What a job did: the exception its `except` clause handled, the result callback
   * it sent, the error callback it sent, and an exception the error callback raised
   * (which leaves the task after the `finally` clause).
   */
  datatype JobReport = JobReport(caught: Option<Exception>, callback: Option<Sent>,
                                 errorCallback: Option<Sent>, escaped: Option<Exception>)

  /** The report, given how the `try` block ended: an error callback exactly when it raised. */
  function Report(config: Value, errorNet: nat -> AssetCallback.Outcome, dumps: Value -> string, job: Job,
                  steps: (Option<Exception>, Option<Sent>), afterSteps: set<string>): JobReport
  {
    var (caught, callback) := steps;
    if caught.None? then JobReport(None, callback, None, None)
    else
      match CallbackOutcome(config, errorNet, dumps, job.jobId, job.userId, job.sessionId, "", 0.0,
                            Some(caught.value.message), VNone, afterSteps)
      case Err(e) => JobReport(caught, None, None, Some(e))
      case Ok(sent) => JobReport(caught, None, Some(sent), None)
  }

  /** Everything a job reports, as a function of its inputs and the files that exist. */
  function JobOutcome(config: Value, net: nat -> AssetCallback.Outcome, errorNet: nat -> AssetCallback.Outcome,
                      dumps: Value -> string, job: Job, st: Steps, existing: set<string>): JobReport
  {
    var afterSteps := AfterSteps(existing, st);
    Report(config, errorNet, dumps, job, StepsOutcome(config, net, dumps, job, st, afterSteps), afterSteps)
  }

  /**
   * The `try` block of `process_inference_async`: save both uploads, validate them,
   * run inference (its output file is written when it returns) and send the callback.
   */
  method RunSteps(fs: FileSystem, config: Value, net: nat -> AssetCallback.Outcome, dumps: Value -> string,
                  job: Job, st: Steps)
    returns (caught: Option<Exception>, callback: Option<Sent>)
    modifies fs
    ensures fs.openHandles == old(fs.openHandles)
    ensures fs.present == AfterSteps(old(fs.present), st)
    ensures (caught, callback) == StepsOutcome(config, net, dumps, job, st, fs.present)
  {
    caught, callback := None, None;
    if st.masked.SaveFailed? {
      if st.masked.leftover.Some? {
        fs.Write(st.masked.leftover.value);
      }
      caught := Some(st.masked.error);
      return;
    }
    fs.Write(st.masked.path);
    if st.garment.SaveFailed? {
      if st.garment.leftover.Some? {
        fs.Write(st.garment.leftover.value);
      }
      caught := Some(st.garment.error);
      return;
    }
    fs.Write(st.garment.path);
    if st.maskedCheck.Some? {
      caught := Some(Exception("ValueError", "Invalid masked_user_image: " + st.maskedCheck.value));
    } else if st.garmentCheck.Some? {
      caught := Some(Exception("ValueError", "Invalid garment_image: " + st.garmentCheck.value));
    } else if st.infer.Err? {
      caught := Some(st.infer.error);
    } else {
      var (outputPath, inferenceTimeMs) := st.infer.value;
      fs.Write(outputPath);
      var sent := SendCallback(fs, config, net, dumps, job.jobId, job.userId, job.sessionId,
                               outputPath, inferenceTimeMs);
      if sent.Err? {
        caught := Some(sent.error);
      } else {
        callback := Some(sent.value);
      }
    }
  }

  /**
   * `process_inference_async`: the steps; on an exception, one error callback with
   * `str(e)`; finally the saved uploads deleted and the slot released for this job.
   */
  method ProcessInference(sched: GPUScheduler, fs: FileSystem, config: Value,
                          net: nat -> AssetCallback.Outcome, errorNet: nat -> AssetCallback.Outcome,
                          dumps: Value -> string, job: Job, st: Steps)
    returns (r: JobReport)
    requires sched.Valid()
    modifies sched, fs
    ensures sched.Valid() && sched.State() == Complete(old(sched.State()), job.jobId)
    ensures fs.openHandles == old(fs.openHandles)
    ensures fs.present == AfterSteps(old(fs.present), st) - TempPaths(st.masked, st.garment)
    ensures r == JobOutcome(config, net, errorNet, dumps, job, st, old(fs.present))
  {
    var caught, callback := RunSteps(fs, config, net, dumps, job, st);
    ghost var afterSteps := fs.present;
    // except Exception as e
    r := JobReport(caught, callback, None, None);
    if caught.Some? {
      var sent := SendErrorCallback(fs, config, errorNet, dumps, job.jobId, job.userId, job.sessionId,
                                    caught.value.message);
      if sent.Err? {
        r := JobReport(caught, None, None, Some(sent.error));
      } else {
        r := JobReport(caught, None, Some(sent.value), None);
      }
    }
    assert r == Report(config, errorNet, dumps, job, (caught, callback), afterSteps);
    // finally
    if st.masked.Saved? && st.masked.path != "" {
      fs.Remove(st.masked.path);
    }
    if st.masked.Saved? && st.garment.Saved? && st.garment.path != "" {
      fs.Remove(st.garment.path);
    }
    sched.CompleteJob(job.jobId);
  }

  /**
   * Every job sends exactly one callback: the result callback when its steps finish,
   * otherwise one error callback carrying `str(e)`, which has no attachment and
   * carries the error field exactly when that text is non-empty. An exception from
   * the error callback itself is the only thing that escapes.
   */
  lemma OneCallbackPerJob(config: Value, net: nat -> AssetCallback.Outcome, errorNet: nat -> AssetCallback.Outcome,
                          dumps: Value -> string, job: Job, st: Steps, existing: set<string>)
    ensures var r := JobOutcome(config, net, errorNet, dumps, job, st, existing);
      && (r.callback.Some? <==> r.caught.None?)
      && (r.callback.Some? ==> r.errorCallback.None? && r.escaped.None?)
      && (r.caught.Some? ==> (r.errorCallback.Some? <==> r.escaped.None?))
      && (r.errorCallback.Some? ==>
            var data := r.errorCallback.value.request.data;
            && r.errorCallback.value.request.files == map[]
            && ("error" in data <==> r.caught.value.message != "")
            && (r.caught.value.message != "" ==> data["error"] == VStr(r.caught.value.message)))
  {
    var r := JobOutcome(config, net, errorNet, dumps, job, st, existing);
    if r.errorCallback.Some? {
      ErrorCallbackShape(config, errorNet, dumps, job.jobId, job.userId, job.sessionId, r.caught.value.message,
                         AfterSteps(existing, st));
    }
  }

  /**
   * An invalid masked image stops the job before anything else is looked at: the
   * report is the same whatever the garment image and the inference would have done.
   */
  lemma InvalidMaskedStopsJob(config: Value, net: nat -> AssetCallback.Outcome, errorNet: nat -> AssetCallback.Outcome,
                              dumps: Value -> string, job: Job, st: Steps, message: string,
                              otherGarmentCheck: Option<string>, otherInfer: Result<(string, real), Exception>,
                              existing: set<string>)
    requires st.masked.Saved? && st.garment.Saved? && st.maskedCheck == Some(message)
    ensures var r := JobOutcome(config, net, errorNet, dumps, job, st, existing);
      && r.caught == Some(Exception("ValueError", "Invalid masked_user_image: " + message))
      && r.callback.None?
      && r == JobOutcome(config, net, errorNet, dumps, job,
                         st.(garmentCheck := otherGarmentCheck, infer := otherInfer), existing)
  {
  }

  /**
   * A failed save of the masked image is reported through the error callback with
   * its own exception, before the garment is saved or anything is validated.
   */
  lemma FailedSaveStopsJob(config: Value, net: nat -> AssetCallback.Outcome, errorNet: nat -> AssetCallback.Outcome,
                           dumps: Value -> string, job: Job, st: Steps, otherGarment: SaveOutcome,
                           otherMaskedCheck: Option<string>, otherInfer: Result<(string, real), Exception>,
                           existing: set<string>)
    requires st.masked.SaveFailed?
    ensures var r := JobOutcome(config, net, errorNet, dumps, job, st, existing);
      && r.caught == Some(st.masked.error)
      && r.callback.None?
      && r == JobOutcome(config, net, errorNet, dumps, job,
                         st.(garment := otherGarment, maskedCheck := otherMaskedCheck, infer := otherInfer), existing)
  {
  }

  /**
   * A job whose steps succeed, with a complete callback configuration, a positive
   * retry budget and a first POST answered 200, delivers the result in one attempt
   * with the output image attached, and sends no error callback.
   */
  lemma SuccessfulJobDelivers(config: Value, net: nat -> AssetCallback.Outcome, errorNet: nat -> AssetCallback.Outcome,
                              dumps: Value -> string, job: Job, maskedPath: string, garmentPath: string,
                              outputPath: string, inferenceTimeMs: real, retries: int, existing: set<string>)
    requires SettingsOf(config).Ok? && RangeBound(SettingsOf(config).value.retries) == Ok(retries)
    requires retries >= 1 && IsSuccess(net(0)) && outputPath != ""
    ensures var r := JobOutcome(config, net, errorNet, dumps, job,
                                Steps(Saved(maskedPath), Saved(garmentPath), None, None,
                                      Ok((outputPath, inferenceTimeMs))), existing);
      && r.caught.None? && r.errorCallback.None? && r.escaped.None?
      && r.callback.Some?
      && r.callback.value.delivery == Delivery(true, 1, None, [])
      && r.callback.value.request.files
         == map[AttachmentField := Attachment(BaseName(outputPath), outputPath, AttachmentType)]
      && ParseInt(r.callback.value.request.data["inference_time_ms"].s) == Some(Truncate(inferenceTimeMs))
  {
    FirstAttemptDelivers(net, retries);
  }

  /**
   * After the job no saved upload with a non-empty path remains; a file a failed
   * save created stays (its path was never recorded), and so does the output image;
   * nothing else is touched.
   */
  lemma JobFilesFacts(existing: set<string>, st: Steps, p: string)
    ensures var final := AfterSteps(existing, st) - TempPaths(st.masked, st.garment);
      && (p in TempPaths(st.masked, st.garment) ==> p !in final)
      && (st.masked.Saved? && st.masked.path != "" ==> st.masked.path !in final)
      && (st.masked.Saved? && st.garment.Saved? && st.garment.path != "" ==> st.garment.path !in final)
      && (p !in TempPaths(st.masked, st.garment) ==>
            (p in final <==> || p in existing
                             || p in Leftover(st.masked)
                             || (st.masked.Saved? && p in Leftover(st.garment))
                             || (p == "" && st.masked.Saved? && p == st.masked.path)
                             || (p == "" && st.masked.Saved? && st.garment.Saved? && p == st.garment.path)
                             || (StepFailure(st).None? && p == st.infer.value.0)))
  {
  }
}

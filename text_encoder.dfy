/**
 * The text-encoder microservice: two image paths are resolved against a fixed list
 * of places, ComfyUI encodes the prompts with the images, the conditioning tensors
 * are picked out of the encoder's output, and both may be saved under names made
 * of the request id and a timestamp.
 *
 * ComfyUI, the models and `torch.save` are opaque: `Encoder.run` maps the resolved
 * paths and settings to the raw positive and negative conditioning (or the
 * exception it raised). The disk is the set of regular files and directories that
 * exist, named by absolute paths.
 */
module TextEncoder {
  import opened Wrappers
  import opened Text
  import opened Python
  import opened Objects

  // ------------------------------------------------------------ conditioning

  function EncodingFailed(message: string): Exception {
    Exception("EncodingFailedError", message)
  }

  /** The tensor a dictionary holds: its "cond" entry, else its only entry. */
  function FromDict(entries: seq<(string, Obj)>): (r: Option<Obj>)
    ensures Find(entries, "cond").Some? ==> r == Find(entries, "cond")
    ensures Find(entries, "cond").None? ==> (r.Some? <==> |entries| == 1)
    ensures Find(entries, "cond").None? && |entries| == 1 ==> r == Some(entries[0].1)
  {
    match Find(entries, "cond")
    case Some(v) => Some(v)
    case None => if |entries| == 1 then Some(entries[0].1) else None
  }

  /**
   * `extract_conditioning_tensor`: a list or tuple is looked into through its first
   * element, then a dictionary through "cond" or its only entry, then a tensor is
   * taken as it is; anything else raises EncodingFailedError.
   */
  function ExtractConditioningTensor(output: Obj): (r: Result<Obj, Exception>)
    ensures output.Tensor? ==> r == Ok(output)
    ensures IsSequence(output) && |Items(output)| > 0 && Items(output)[0].Tensor? ==> r == Ok(Items(output)[0])
    ensures IsSequence(output) && |Items(output)| > 0 && Items(output)[0].Dict? ==>
              (r.Ok? <==> FromDict(Items(output)[0].entries).Some?)
              && (r.Ok? ==> r.value == FromDict(Items(output)[0].entries).value)
    ensures output.Dict? ==> (r.Ok? <==> FromDict(output.entries).Some?) && (r.Ok? ==> r.value == FromDict(output.entries).value)
    ensures IsSequence(output) && (|Items(output)| == 0 || !(Items(output)[0].Tensor? || Items(output)[0].Dict?)) ==> r.Err?
    ensures !(output.Tensor? || output.Dict? || IsSequence(output)) ==> r.Err?
    ensures r.Err? ==> r.error == EncodingFailed("Could not extract tensor from conditioning output: " + TypeRepr(output))
  {
    var fromFirst :=
      if IsSequence(output) && |Items(output)| > 0 then
        var first := Items(output)[0];
        if first.Tensor? then Some(first)
        else if first.Dict? then FromDict(first.entries)
        else None
      else None;
    if fromFirst.Some? then Ok(fromFirst.value)
    else if output.Dict? && FromDict(output.entries).Some? then Ok(FromDict(output.entries).value)
    else if output.Tensor? then Ok(output)
    else Err(EncodingFailed("Could not extract tensor from conditioning output: " + TypeRepr(output)))
  }

  /** For a dictionary, "cond" wins over the single-entry rule. */
  lemma CondTakesPrecedence(key: string, cond: Obj, other: Obj)
    requires key != "cond"
    ensures ExtractConditioningTensor(Dict([("cond", cond)])) == Ok(cond)
    ensures ExtractConditioningTensor(Dict([(key, other), ("cond", cond)])) == Ok(cond)
    ensures ExtractConditioningTensor(List([Dict([(key, other), ("cond", cond)])])) == Ok(cond)
    ensures ExtractConditioningTensor(Dict([(key, other)])) == Ok(other)
  {
    assert Find([(key, other), ("cond", cond)], "cond") == Some(cond);
  }

  /** The usual `[tensor, metadata]` conditioning yields its tensor. */
  lemma ConditioningPairYieldsTensor(shape: seq<nat>, metadata: seq<(string, Obj)>)
    ensures ExtractConditioningTensor(List([Tensor(shape), Dict(metadata)])) == Ok(Tensor(shape))
  {
  }

  // ------------------------------------------------------------ image paths

  /** What exists on disk, by absolute path. */
  datatype Disk = Disk(files: set<string>, dirs: set<string>)

  /** `Path(p).resolve()` without normalisation: relative paths are taken from the working directory. */
  function Absolute(cwd: string, p: string): (r: string)
    ensures IsAbsolute(p) ==> r == p
  {
    if IsAbsolute(p) then p else JoinPath(cwd, p)
  }

  /** `Path(p).exists()`. */
  predicate Exists(disk: Disk, cwd: string, p: string) {
    var a := Absolute(cwd, p);
    a in disk.files || a in disk.dirs
  }

  /** The grandparent of the service directory, where ComfyUI keeps its `input` directory. */
  function ComfyDir(serviceDir: string): string {
    Parent(Parent(serviceDir))
  }

  /** The places a path is looked for, in order: as given, then three fallbacks for a relative path. */
  function Candidates(serviceDir: string, imagePath: string): (r: seq<string>)
    ensures |r| >= 1 && r[0] == imagePath
    ensures IsAbsolute(imagePath) <==> |r| == 1
  {
    if IsAbsolute(imagePath) then [imagePath]
    else [imagePath,
          JoinPath(serviceDir, imagePath),
          JoinPath(ComfyDir(serviceDir), imagePath),
          JoinPath(JoinPath(ComfyDir(serviceDir), "input"), BaseName(imagePath))]
  }

  /** The first candidate that exists. */
  function FirstExisting(disk: Disk, cwd: string, candidates: seq<string>): (r: Option<string>)
    ensures r.Some? ==> r.value in candidates && Exists(disk, cwd, r.value)
    ensures r.Some? ==> exists i :: 0 <= i < |candidates| && candidates[i] == r.value
                                    && forall j :: 0 <= j < i ==> !Exists(disk, cwd, candidates[j])
    ensures r.None? <==> forall c :: c in candidates ==> !Exists(disk, cwd, c)
  {
    if candidates == [] then None
    else if Exists(disk, cwd, candidates[0]) then Some(candidates[0])
    else FirstExisting(disk, cwd, candidates[1..])
  }

  function ImageNotFound(message: string): Exception {
    Exception("ImageNotFoundError", message)
  }

  /** `resolve_image_path`. */
  function ResolveImagePath(disk: Disk, cwd: string, serviceDir: string, imagePath: string): (r: Result<string, Exception>)
    ensures r.Ok? ==> r.value in disk.files
  {
    var chosen :=
      if IsAbsolute(imagePath) || Exists(disk, cwd, imagePath) then imagePath
      else if Exists(disk, cwd, JoinPath(serviceDir, imagePath)) then JoinPath(serviceDir, imagePath)
      else if Exists(disk, cwd, JoinPath(ComfyDir(serviceDir), imagePath)) then JoinPath(ComfyDir(serviceDir), imagePath)
      else if Exists(disk, cwd, JoinPath(JoinPath(ComfyDir(serviceDir), "input"), BaseName(imagePath))) then
        JoinPath(JoinPath(ComfyDir(serviceDir), "input"), BaseName(imagePath))
      else imagePath;
    var resolved := Absolute(cwd, chosen);
    if resolved !in disk.files && resolved !in disk.dirs then
      Err(ImageNotFound("Image file not found: " + imagePath + " (resolved to: " + resolved + ")"))
    else if resolved !in disk.files then
      Err(ImageNotFound("Path is not a file: " + resolved))
    else Ok(resolved)
  }

  /**
   * The search order: the result is the first candidate that exists, made absolute,
   * provided it is a regular file; when none exists the error names the path as
   * given and where it resolved to; an existing directory is refused.
   */
  lemma ResolveTakesFirstExisting(disk: Disk, cwd: string, serviceDir: string, imagePath: string)
    ensures var first := FirstExisting(disk, cwd, Candidates(serviceDir, imagePath));
      var r := ResolveImagePath(disk, cwd, serviceDir, imagePath);
      && (first.None? ==>
            r == Err(ImageNotFound("Image file not found: " + imagePath + " (resolved to: "
                                   + Absolute(cwd, imagePath) + ")")))
      && (first.Some? && Absolute(cwd, first.value) in disk.files ==> r == Ok(Absolute(cwd, first.value)))
      && (first.Some? && Absolute(cwd, first.value) !in disk.files ==>
            r == Err(ImageNotFound("Path is not a file: " + Absolute(cwd, first.value))))
  {
    var c := Candidates(serviceDir, imagePath);
    if !IsAbsolute(imagePath) && !Exists(disk, cwd, c[0]) {
      assert FirstExisting(disk, cwd, c) == FirstExisting(disk, cwd, c[1..]);
      if !Exists(disk, cwd, c[1]) {
        assert FirstExisting(disk, cwd, c[1..]) == FirstExisting(disk, cwd, c[2..]);
        if !Exists(disk, cwd, c[2]) {
          assert FirstExisting(disk, cwd, c[2..]) == FirstExisting(disk, cwd, c[3..]);
          assert c[3..][1..] == [];
        }
      }
    }
  }

  // ------------------------------------------------------------ encoding

  /** The service configuration the defaults come from. */
  datatype ServiceConfig = ServiceConfig(clipModelName: string, vaeModelName: string, outputDir: string)

  /** What ComfyUI is asked to do once both images are found. */
  datatype EncodeRequest = EncodeRequest(image1: string, image2: string, prompt: string, negativePrompt: string,
                                         clipModelName: string, vaeModelName: string, upscaleMethod: string,
                                         megapixels: real)

  /** The opaque ComfyUI pipeline: the raw positive and negative conditioning, or what it raised. */
  datatype Encoder = Encoder(run: EncodeRequest -> Result<(Obj, Obj), Exception>)

  /** `encode_text_and_images` as it returns: a success or an error result. */
  datatype EncodeResult =
    | Encoded(requestId: string, positivePath: Option<string>, negativePath: Option<string>,
              positiveShape: Option<seq<nat>>, negativeShape: Option<seq<nat>>, positive: Obj, negative: Obj,
              request: EncodeRequest)
    | EncodeFailure(requestId: string, errorCode: string, errorMessage: string)

  /** `list(t.shape) if hasattr(t, 'shape') else None`. */
  function ShapeOf(o: Obj): Option<seq<nat>> {
    if o.Tensor? then Some(o.shape) else None
  }

  /** `f"{kind}_encoding_{request_id}_{timestamp}.pt"`. */
  function EncodingFileName(kind: string, requestId: string, timestamp: string): string {
    kind + "_encoding_" + requestId + "_" + timestamp + ".pt"
  }

  /**
   * The body of the `try` block, with the defaults already filled in: the first step
   * that raises ends it with that exception; otherwise the success carries the
   * resolved images, the request ComfyUI ran and the tensors extracted from its output.
   */
  function EncodeSteps(disk: Disk, cwd: string, serviceDir: string, enc: Encoder, image1Path: string,
                       image2Path: string, prompt: string, negativePrompt: string, clipModelName: string,
                       vaeModelName: string, outputDir: string, upscaleMethod: string, megapixels: real,
                       requestId: string, saveTensor: bool, timestamp: string)
    : (r: Result<EncodeResult, Exception>)
    ensures r.Ok? ==> r.value.Encoded? && r.value.requestId == requestId
    ensures ResolveImagePath(disk, cwd, serviceDir, image1Path).Err? ==>
              r == Err(ResolveImagePath(disk, cwd, serviceDir, image1Path).error)
    ensures (ResolveImagePath(disk, cwd, serviceDir, image1Path).Ok?
             && ResolveImagePath(disk, cwd, serviceDir, image2Path).Err?) ==>
              r == Err(ResolveImagePath(disk, cwd, serviceDir, image2Path).error)
    ensures (ResolveImagePath(disk, cwd, serviceDir, image1Path).Ok?
             && ResolveImagePath(disk, cwd, serviceDir, image2Path).Ok?) ==>
              var request := EncodeRequest(ResolveImagePath(disk, cwd, serviceDir, image1Path).value,
                                           ResolveImagePath(disk, cwd, serviceDir, image2Path).value,
                                           prompt, negativePrompt, clipModelName, vaeModelName,
                                           upscaleMethod, megapixels);
              && (enc.run(request).Err? ==> r == Err(enc.run(request).error))
              && (enc.run(request).Ok? ==>
                    var positive := ExtractConditioningTensor(enc.run(request).value.0);
                    var negative := ExtractConditioningTensor(enc.run(request).value.1);
                    && (r.Ok? <==> positive.Ok? && negative.Ok?)
                    && (positive.Err? ==> r == Err(positive.error))
                    && (positive.Ok? && negative.Err? ==> r == Err(negative.error))
                    && (r.Ok? ==> && r.value.request == request
                                  && r.value.positive == positive.value && r.value.negative == negative.value
                                  && r.value.positiveShape == ShapeOf(positive.value)
                                  && r.value.negativeShape == ShapeOf(negative.value)))
  {
    var image1 :- ResolveImagePath(disk, cwd, serviceDir, image1Path);
    var image2 :- ResolveImagePath(disk, cwd, serviceDir, image2Path);
    var request := EncodeRequest(image1, image2, prompt, negativePrompt, clipModelName, vaeModelName,
                                 upscaleMethod, megapixels);
    var raw :- enc.run(request);
    var positive :- ExtractConditioningTensor(raw.0);
    var negative :- ExtractConditioningTensor(raw.1);
    var positivePath := if saveTensor then Some(JoinPath(outputDir, EncodingFileName("positive", requestId, timestamp))) else None;
    var negativePath := if saveTensor then Some(JoinPath(outputDir, EncodingFileName("negative", requestId, timestamp))) else None;
    Ok(Encoded(requestId, positivePath, negativePath, ShapeOf(positive), ShapeOf(negative), positive, negative, request))
  }

  /**
   * `encode_text_and_images`. `generatedId` is what `generate_request_id` would
   * return and `timestamp` what the clock formats. It never raises: any exception
   * inside becomes an error result with the same request id.
   */
  function EncodeTextAndImages(disk: Disk, cwd: string, serviceDir: string, enc: Encoder, config: ServiceConfig,
                               generatedId: string, timestamp: string,
                               image1Path: string, image2Path: string, prompt: string,
                               negativePrompt: string := "", clipModelName: Option<string> := None,
                               vaeModelName: Option<string> := None, outputDir: Option<string> := None,
                               upscaleMethod: string := "lanczos", megapixels: real := 1.0,
                               requestId: Option<string> := None, saveTensor: bool := true)
    : (r: EncodeResult)
    ensures r.requestId == requestId.GetOr(generatedId)
    ensures r.Encoded? ==>
              && r.request.clipModelName == clipModelName.GetOr(config.clipModelName)
              && r.request.vaeModelName == vaeModelName.GetOr(config.vaeModelName)
              && r.request.prompt == prompt && r.request.negativePrompt == negativePrompt
              && r.request.upscaleMethod == upscaleMethod && r.request.megapixels == megapixels
              && r.request.image1 in disk.files && r.request.image2 in disk.files
              && (r.positivePath.Some? <==> saveTensor) && (r.negativePath.Some? <==> saveTensor)
              && (saveTensor ==>
                    var dir := outputDir.GetOr(config.outputDir);
                    var rid := requestId.GetOr(generatedId);
                    && r.positivePath == Some(JoinPath(dir, EncodingFileName("positive", rid, timestamp)))
                    && r.negativePath == Some(JoinPath(dir, EncodingFileName("negative", rid, timestamp))))
    ensures r.EncodeFailure? ==>
              var steps := EncodeSteps(disk, cwd, serviceDir, enc, image1Path, image2Path, prompt, negativePrompt,
                                       clipModelName.GetOr(config.clipModelName), vaeModelName.GetOr(config.vaeModelName),
                                       outputDir.GetOr(config.outputDir), upscaleMethod, megapixels,
                                       requestId.GetOr(generatedId), saveTensor, timestamp);
              steps.Err? && r.errorCode == steps.error.kind && r.errorMessage == steps.error.message
    ensures var steps := EncodeSteps(disk, cwd, serviceDir, enc, image1Path, image2Path, prompt, negativePrompt,
                                     clipModelName.GetOr(config.clipModelName), vaeModelName.GetOr(config.vaeModelName),
                                     outputDir.GetOr(config.outputDir), upscaleMethod, megapixels,
                                     requestId.GetOr(generatedId), saveTensor, timestamp);
      && (r.EncodeFailure? <==> steps.Err?)
      && (steps.Ok? ==> r == steps.value)
      && (steps.Err? ==> r == EncodeFailure(requestId.GetOr(generatedId), steps.error.kind, steps.error.message))
  {
    var rid := requestId.GetOr(generatedId);
    var clip := clipModelName.GetOr(config.clipModelName);
    var vae := vaeModelName.GetOr(config.vaeModelName);
    var dir := outputDir.GetOr(config.outputDir);
    match EncodeSteps(disk, cwd, serviceDir, enc, image1Path, image2Path, prompt, negativePrompt, clip, vae, dir,
                      upscaleMethod, megapixels, rid, saveTensor, timestamp)
    case Ok(result) => result
    case Err(e) => EncodeFailure(rid, e.kind, e.message)
  }

  /** A first image that cannot be found ends the request before ComfyUI is involved. */
  lemma MissingImageFails(disk: Disk, cwd: string, serviceDir: string, enc: Encoder, otherEnc: Encoder,
                          config: ServiceConfig, generatedId: string, timestamp: string,
                          image1Path: string, image2Path: string, prompt: string)
    requires forall c :: c in Candidates(serviceDir, image1Path) ==> !Exists(disk, cwd, c)
    ensures var r := EncodeTextAndImages(disk, cwd, serviceDir, enc, config, generatedId, timestamp,
                                         image1Path, image2Path, prompt);
      && r == EncodeFailure(generatedId, "ImageNotFoundError",
                            "Image file not found: " + image1Path + " (resolved to: " + Absolute(cwd, image1Path) + ")")
      && r == EncodeTextAndImages(disk, cwd, serviceDir, otherEnc, config, generatedId, timestamp,
                                  image1Path, image2Path, prompt)
  {
    ResolveTakesFirstExisting(disk, cwd, serviceDir, image1Path);
  }

  /**
   * The request succeeds exactly when both images resolve, ComfyUI runs on them, and
   * a tensor is found in both outputs; the success carries the resolved images and
   * those tensors.
   */
  lemma EncodedIffEveryStepSucceeds(disk: Disk, cwd: string, serviceDir: string, enc: Encoder, config: ServiceConfig,
                                    generatedId: string, timestamp: string, image1Path: string, image2Path: string,
                                    prompt: string)
    ensures var r := EncodeTextAndImages(disk, cwd, serviceDir, enc, config, generatedId, timestamp,
                                         image1Path, image2Path, prompt);
      var image1 := ResolveImagePath(disk, cwd, serviceDir, image1Path);
      var image2 := ResolveImagePath(disk, cwd, serviceDir, image2Path);
      && (r.Encoded? <==>
            && image1.Ok? && image2.Ok?
            && var request := EncodeRequest(image1.value, image2.value, prompt, "", config.clipModelName,
                                            config.vaeModelName, "lanczos", 1.0);
               && enc.run(request).Ok?
               && ExtractConditioningTensor(enc.run(request).value.0).Ok?
               && ExtractConditioningTensor(enc.run(request).value.1).Ok?)
      && (r.Encoded? ==>
            && r.request.image1 == image1.value && r.request.image2 == image2.value
            && r.positive == ExtractConditioningTensor(enc.run(r.request).value.0).value
            && r.negative == ExtractConditioningTensor(enc.run(r.request).value.1).value)
  {
  }

  /**
   * Once both images are found, an exception raised inside ComfyUI becomes the
   * error result with its class name and text.
   */
  lemma EncoderErrorIsReported(disk: Disk, cwd: string, serviceDir: string, enc: Encoder, config: ServiceConfig,
                               generatedId: string, timestamp: string, image1Path: string, image2Path: string,
                               prompt: string, e: Exception)
    requires ResolveImagePath(disk, cwd, serviceDir, image1Path).Ok?
    requires ResolveImagePath(disk, cwd, serviceDir, image2Path).Ok?
    requires enc.run(EncodeRequest(ResolveImagePath(disk, cwd, serviceDir, image1Path).value,
                                   ResolveImagePath(disk, cwd, serviceDir, image2Path).value,
                                   prompt, "", config.clipModelName, config.vaeModelName, "lanczos", 1.0)) == Err(e)
    ensures EncodeTextAndImages(disk, cwd, serviceDir, enc, config, generatedId, timestamp,
                                image1Path, image2Path, prompt)
         == EncodeFailure(generatedId, e.kind, e.message)
  {
  }
}

# qwen_production core, modelled in Dafny

This project models the core of the virtual try-on GPU server and its two helper
microservices, and proves properties of that model:

- **Admission scheduler** (`scheduler.dfy`): one GPU slot with three fields
  (`busy`, `current_job_id`, `queue_length`). `accept_job` is a check-and-set and
  `complete_job` frees the slot only for the recorded job. The module-level
  singleton is created on first use.
- **Configuration** (`config.dfy`): `_validate_config`, which collects every
  missing `section` or `section.field` in order and raises `ValueError`. Also the
  cached `load_config` / `get_config` (the parsed file is cached *before* it is
  validated), the getters, and the `INFO` log-level default.
- **Internal authentication** (`auth.dfy`): the `X-Internal-Auth` check, the 401
  it raises, and the route dependency.
- **Metrics** (`metrics.dfy`): the in-memory metrics dictionary with
  `increment_metric` and `set_metric`.
- **Asset Service callback** (`asset_callback.dfy`): the form fields and the
  optional image attachment. Also the retry loop with exponential backoff
  (`2^attempt` seconds between attempts, none after the last), the "last error"
  text, and the closing of the file handle on every exit path.
  `send_error_callback` is `send_callback` with no image.
- **Try-on endpoint** (`tryon.dfy`): the guard chain of `POST /tryon`, in order:
  1. authentication;
  2. provider;
  3. busy check (429 with `Retry-After` and `X-Node-Id`);
  4. `accept_job`, which may lose a race;
  5. parsing of the JSON inference config, whose defaults include the literal
     default prompt;
  6. the start of the background job and the 202 response.

  The background job `process_inference_async` saves and validates both uploads,
  runs inference and sends the callback. If anything raises, it sends an error
  callback instead. Its `finally` removes the uploads whose save returned and
  completes the job in the scheduler.
- **Decoding service** (`decoding.dfy`):
  - `prepare_latent_for_decoder`;
  - the shape, channel-mode and format logic of `save_image_tensor`;
  - the output-format check, image extraction, shape normalisation and error
    result of `decode_latent_to_image`.
- **Text-encoder service** (`text_encoder.dfy`):
  - `extract_conditioning_tensor`;
  - the search order of `resolve_image_path`;
  - the defaults, file names and error result of `encode_text_and_images`.

Shared modules:

- `wrappers.dfy`: `Option` and `Result`.
- `python.dfy`: the YAML/JSON value tree, exceptions, truthiness, `in`, `[]` and
  `.get`.
- `text.dfy`: decimal strings with a parse round trip, `join`, ASCII lower-casing
  and path helpers.
- `files.dfy`: a file system with open handles.
- `objects.dfy`: the tensors, dictionaries and sequences the microservices
  inspect.

How the source's effects are modelled:

- The network is a function from attempt number to outcome.
- The ComfyUI pipelines, `json.loads`, `json.dumps`, `str()` and image
  validation are parameters.
- The clock and id generators are parameters.
- Sleeping is recorded as the list of delays.

Where the code and its documentation disagree, the model follows the code. The
docstring of `complete_job` (`scheduler.py:84-85`) says the call "Frees GPU".
The branch for a job id that does not match (`scheduler.py:103-106`) only lowers
the counter, so the slot stays busy with `queue_length` 0
(`Scheduler.MismatchedCompleteKeepsSlot`).

## Model

| member | source | states |
|---|---|---|
| Scheduler.GPUScheduler.constructor | gpu-server-qwen/app/service/scheduler.py:16-20 | a new scheduler is free, with no job and a zero counter |
| Scheduler.GPUScheduler.CanAcceptJob | gpu-server-qwen/app/service/scheduler.py:40-48 | the answer is exactly "not busy" and nothing changes |
| Scheduler.GPUScheduler.AcceptJob | gpu-server-qwen/app/service/scheduler.py:50-81 | accepted exactly when the slot was free; a refusal changes nothing; acceptance records the job and counts it; the invariant is kept |
| Scheduler.GPUScheduler.CompleteJob | gpu-server-qwen/app/service/scheduler.py:83-106 | the recorded job's id frees the slot; any other id keeps the slot and job; the counter drops by one but never below zero; the invariant is kept |
| Scheduler.GPUScheduler.GetStatus | gpu-server-qwen/app/service/scheduler.py:108-120 | the snapshot equals the three fields and nothing changes |
| Scheduler.SchedulerHolder.GetScheduler | gpu-server-qwen/app/service/scheduler.py:123-132 | the first call creates a fresh free scheduler; later calls return the same instance |
| Scheduler.StepKeepsConsistent | gpu-server-qwen/app/service/scheduler.py:50-106 | any single call keeps "busy iff a job is recorded, counter in 0..1, 0 when free" |
| Scheduler.RunKeepsConsistent | gpu-server-qwen/app/service/scheduler.py:50-106 | the invariant holds after any sequence of calls from a consistent state |
| Scheduler.ReachableConsistent | gpu-server-qwen/app/service/scheduler.py:16-106 | every state reachable from construction satisfies the invariant |
| Scheduler.OnlyFirstAcceptSucceeds | gpu-server-qwen/app/service/scheduler.py:50-81 | mutual exclusion: from a free slot, exactly the first of any burst of accepts succeeds, and the slot then belongs to it |
| Scheduler.BusyRejectsAll | gpu-server-qwen/app/service/scheduler.py:61-68 | while busy, every accept is refused and the state is unchanged |
| Scheduler.MismatchedCompleteKeepsSlot | gpu-server-qwen/app/service/scheduler.py:103-106 | accept J1 then complete J2 leaves the slot busy for J1 with counter 0 |
| Scheduler.CompleteRecordedFrees | gpu-server-qwen/app/service/scheduler.py:91-95 | completing the recorded job returns a consistent scheduler to its initial state |
| Scheduler.AdmissionScenario | gpu-server-qwen/app/service/scheduler.py:50-120 | accept J1 succeeds, J2 is refused while J1 runs, J3 succeeds after J1 completes; status reads change nothing |
| Metrics.MetricsRegistry.constructor | gpu-server-qwen/app/routers/metrics.py:13-19 | the five known metrics, all zero |
| Metrics.MetricsRegistry.IncrementMetric | gpu-server-qwen/app/routers/metrics.py:22-25 | a known metric grows by the value (default 1.0); an unknown name changes nothing; no name is added |
| Metrics.MetricsRegistry.SetMetric | gpu-server-qwen/app/routers/metrics.py:28-30 | the name holds the value (created if absent); every other entry is unchanged |
| Metrics.IncrementedFrame | gpu-server-qwen/app/routers/metrics.py:22-25 | incrementing keeps the key set and changes at most the named entry |
| Metrics.IncrementAfterSet | gpu-server-qwen/app/routers/metrics.py:22-30 | after set_metric creates a name, increment_metric applies to it |
| Metrics.MetricsScenario | gpu-server-qwen/app/routers/metrics.py:13-30 | default increment, ignored unknown name, then set and increment a new name |
| Auth.VerifyInternalAuth | gpu-server-qwen/app/service/auth.py:14-32 | the token lookup may raise first; a missing or empty header is false; otherwise true iff the header equals the configured token |
| Auth.EmptyTokenRejectsAll | gpu-server-qwen/app/service/auth.py:24-32 | an empty configured token authenticates no request |
| Auth.RequireInternalAuth | gpu-server-qwen/app/service/auth.py:35-49 | passes iff verification is true; false raises 401 with the fixed detail; a lookup error propagates |
| Auth.CheckAuth | gpu-server-qwen/app/service/auth.py:52-58 | returns true iff authenticated, otherwise the 401 (or lookup error) propagates |
| Config.ValidateConfig | gpu-server-qwen/app/service/config.py:58-77 | the loop's result equals the specification: every missing section or section.field in order, raised as one ValueError |
| Config.MissingOfPrefixRaises | gpu-server-qwen/app/service/config.py:70-74 | an exception from `in` on one pair ends the whole validation with that exception |
| Config.EmptyConfigMissesEverySection | gpu-server-qwen/app/service/config.py:60-74 | an empty mapping reports each section once per required pair |
| Config.EmptyConfigRaises | gpu-server-qwen/app/service/config.py:58-77 | an empty mapping raises ValueError listing those sections joined by ", " |
| Config.CompletePrefixHasNothingMissing | gpu-server-qwen/app/service/config.py:69-75 | with every required field present, no prefix of the pairs reports anything |
| Config.CompleteConfigValidates | gpu-server-qwen/app/service/config.py:58-77 | a configuration with every required field validates |
| Config.NothingMissingMeansNoEntry | gpu-server-qwen/app/service/config.py:69-75 | nothing reported over the pairs means nothing reported for any one pair |
| Config.ValidatesOnlyWhenComplete | gpu-server-qwen/app/service/config.py:58-77 | the converse: a mapping whose present sections are mappings validates only if every required field is present |
| Config.NoneFailsValidation | gpu-server-qwen/app/service/config.py:58-77 | an empty document (None) fails validation with the TypeError of `in` on None |
| Config.Lookup | gpu-server-qwen/app/service/config.py:87-129 | `config[section][field]` succeeds iff both keys are present in mappings, yields that value, and raises KeyError naming the missing key |
| Config.LogLevel | gpu-server-qwen/app/service/config.py:132-134 | the configured level, "INFO" when the section or the level is absent, AttributeError when the document or its logging section is not a mapping |
| Config.LogLevelDefault | gpu-server-qwen/app/service/config.py:132-134 | without a logging section the level is "INFO" |
| Config.LogLevelPresent | gpu-server-qwen/app/service/config.py:132-134 | a configured level is returned, whatever else the logging section holds |
| Config.CompleteConfigGettersSucceed | gpu-server-qwen/app/service/config.py:87-124 | on a configuration with every required field, the getters for required fields succeed |
| Config.ValidatedConfigMayLackOptionalFields | gpu-server-qwen/app/service/config.py:58-129 | validation passes while the timeout, retries and device getters still raise KeyError |
| Config.ConfigStore.constructor | gpu-server-qwen/app/service/config.py:13 | nothing is cached at start |
| Config.Cacheable | gpu-server-qwen/app/service/config.py:32-48 | what the cache holds after a parse: nothing iff the document is empty (None), otherwise the document |
| Config.ConfigStore.LoadConfig | gpu-server-qwen/app/service/config.py:16-55 | a cached value is returned as is; a missing file raises FileNotFoundError and a parse error propagates, both leaving the cache empty; a parsed non-empty file is cached and then validated and its node id read; an empty file is not cached |
| Config.ConfigStore.GetConfig | gpu-server-qwen/app/service/config.py:80-84 | the cached value, or a load from the default path with the same three outcomes and the same cache update as LoadConfig |
| Config.EmptyFileIsReread | gpu-server-qwen/app/service/config.py:32-51 | an empty file raises the TypeError and is not cached, so a later call reads the file again and sees its new contents |
| Config.InvalidConfigStaysCached | gpu-server-qwen/app/service/config.py:32-51 | a file that fails validation stays cached and is returned unvalidated by later calls |
| AssetCallback.Backoff | gpu-server-qwen/app/service/asset_callback.py:126-129 | the n-th wait is 2^n seconds |
| AssetCallback.RetryLoop | gpu-server-qwen/app/service/asset_callback.py:84-129 | the loop's attempts, last error and waits equal the delivery specification |
| AssetCallback.DeliverFromFacts | gpu-server-qwen/app/service/asset_callback.py:84-129 | from any attempt: success iff a later attempt gets 200, stopping at the first; otherwise all attempts with the last error text |
| AssetCallback.DeliverContract | gpu-server-qwen/app/service/asset_callback.py:84-143 | success iff some attempt within the budget gets status 200, stopping at the first; otherwise every attempt is made (none for a budget of 0 or less); waits 2^k after failed attempt k except the last; last error is the last attempt's text |
| AssetCallback.ThreeFailedAttempts | gpu-server-qwen/app/service/asset_callback.py:84-129 | three failures: three attempts, waits 1 and 2, failure with the third error |
| AssetCallback.FirstAttemptDelivers | gpu-server-qwen/app/service/asset_callback.py:97-105 | a 200 on the first attempt ends delivery at once |
| AssetCallback.FormData | gpu-server-qwen/app/service/asset_callback.py:53-68 | exactly the seven fields plus "error" when an error is given; inference_time_ms parses back to the truncated time; meta is the JSON text when truthy |
| AssetCallback.FilesPart | gpu-server-qwen/app/service/asset_callback.py:71-78 | the image is attached iff the path is non-empty and exists, as `output_image` with its base name and image/png |
| AssetCallback.CallbackUsesConfiguredSettings | gpu-server-qwen/app/service/asset_callback.py:46-84 | every request carries the configured token, and delivery runs with the configured retry budget |
| AssetCallback.SendCallback | gpu-server-qwen/app/service/asset_callback.py:22-143 | the request and delivery match the specification; no file or handle is left changed on any path |
| AssetCallback.SendErrorCallback | gpu-server-qwen/app/service/asset_callback.py:146-171 | send_callback with no image, zero time and the error text |
| AssetCallback.ErrorCallbackShape | gpu-server-qwen/app/service/asset_callback.py:146-171 | an error callback has no attachment, time "0", the error field iff the text is non-empty, no meta |
| Tryon.Busy | gpu-server-qwen/app/routers/tryon.py:74-94 | 429 with REJECTED_BUSY detail, Retry-After 1 and X-Node-Id; a failing node-id lookup raises instead |
| Tryon.InferenceConfig | gpu-server-qwen/app/routers/tryon.py:126-132 | an absent or empty field, or a JSONDecodeError, gives {}; a parsed value is passed on; any other parser exception propagates |
| Tryon.WrittenParameters | gpu-server-qwen/app/routers/tryon.py:126-145 | a parser exception propagates; otherwise the `.get` calls on whatever was parsed |
| Tryon.Parameters | gpu-server-qwen/app/routers/tryon.py:140-145 | defined iff the config is an object; each parameter is its entry or the default (prompt, none, 4, 1.0); a non-object raises AttributeError |
| Tryon.Admit | gpu-server-qwen/app/routers/tryon.py:30-154 | the guards in order: auth, provider, busy, accept race; a job is started iff all pass and the parameters are readable; the 202 carries the node id |
| Tryon.Tryon | gpu-server-qwen/app/routers/tryon.py:30-154 | the handler as written: once the guards pass and no other request won the race, the slot is taken; a job starts iff the parameters can be read; a failure to read them escapes with the slot still taken |
| Tryon.NonObjectConfigLeaksSlot | gpu-server-qwen/app/routers/tryon.py:126-145 | a config of `[]` leaves the slot held with no job to release it, and the request fails with AttributeError |
| Tryon.ParserErrorLeaksSlot | gpu-server-qwen/app/routers/tryon.py:126-132 | a parser exception other than JSONDecodeError leaves the slot held with no job, and the request fails with that exception |
| Tryon.ObjectOrEmpty | gpu-server-qwen/app/routers/tryon.py:126-132 | always an object; an object is kept |
| Tryon.CheckedConfig | gpu-server-qwen/app/routers/tryon.py:126-132 | always an object: the parsed object, or {} for any parser failure or non-object |
| Tryon.CheckedHandlerNeverLeaks | gpu-server-qwen/app/routers/tryon.py:97-154 | in the corrected handler, a taken slot always has a job that will release it, whatever the parser does; where the configuration parses to an object it agrees with the handler as written |
| Tryon.RaceLoserRejected | gpu-server-qwen/app/routers/tryon.py:97-117 | losing the accept race gives the 429 and leaves the winner's job in the slot |
| Tryon.AcceptedJobIsReleased | gpu-server-qwen/app/routers/tryon.py:135-147 | an accepted job holds the slot, and completing it returns the scheduler to its initial state |
| Tryon.NoConfigUsesDefaults | gpu-server-qwen/app/routers/tryon.py:126-147 | no config runs the default prompt, no seed, 4 steps, cfg 1.0 |
| Tryon.StepFailure | gpu-server-qwen/app/routers/tryon.py:191-211 | the first failing step's exception, in order: masked save, garment save, masked check, garment check, inference; none iff every step succeeds |
| Tryon.TempPaths | gpu-server-qwen/app/routers/tryon.py:244-249 | the upload paths the cleanup removes: those whose save returned and that are not empty |
| Tryon.RunSteps | gpu-server-qwen/app/routers/tryon.py:182-242 | the try/except block's files and outcome equal their specification, including a save that fails after creating its file |
| Tryon.ProcessInference | gpu-server-qwen/app/routers/tryon.py:157-260 | on every path exactly the uploads whose save returned are removed, handles are closed and the job is completed in the scheduler; the reports match the specification |
| Tryon.OneCallbackPerJob | gpu-server-qwen/app/routers/tryon.py:222-242 | a job sends a result callback iff nothing raised, otherwise an error callback with the exception text; never both |
| Tryon.InvalidMaskedStopsJob | gpu-server-qwen/app/routers/tryon.py:195-197 | an invalid first upload raises ValueError with its prefix, sends no result callback, and does not depend on later steps |
| Tryon.FailedSaveStopsJob | gpu-server-qwen/app/routers/tryon.py:191-192 | a failed save of the masked image is the job's exception, no result callback is sent, and no later step matters |
| Tryon.SuccessfulJobDelivers | gpu-server-qwen/app/routers/tryon.py:204-231 | a successful inference and a 200 deliver once, with the image attached and the truncated time |
| Tryon.JobFilesFacts | gpu-server-qwen/app/routers/tryon.py:244-249 | every recorded non-empty upload path is gone afterwards; a file left by a failed save stays, as does the output image; other files are untouched |
| Decoding.PrepareLatentForDecoder | microservices/decoding/service.py:98-128 | a dict with "samples" is kept; a single-tensor dict, a tensor or a loaded file is wrapped; anything else raises the format error |
| Decoding.PrepareIsIdempotent | microservices/decoding/service.py:98-128 | preparing a prepared latent changes nothing and loads nothing |
| Decoding.PilFormat | microservices/decoding/service.py:192-199 | PNG iff the lower-cased format is png, WEBP iff webp, otherwise JPEG |
| Decoding.PilFormatIgnoresCase | microservices/decoding/service.py:192-199 | the mapping ignores case |
| Decoding.SaveImageTensor | microservices/decoding/service.py:131-216 | saves iff the shape is [H,W,C] or [B,H,W,C] with a known channel count, non-zero height and width, and is not a grayscale image saved as JPEG; a bad rank or channel count raises InvalidImageFormatError with its message; an empty batch raises IndexError; a zero height or width raises the ValueError of `min()` on an empty array; a grayscale JPEG raises IndexError; 4 channels save as RGB in JPEG |
| Decoding.SaveImageIntended | microservices/decoding/service.py:176-206 | the corrected save: every image with a known channel count and some pixels is saved, a grayscale JPEG in mode "L"; elsewhere it agrees with the code |
| Decoding.GrayscaleJpegNeverSaves | microservices/decoding/service.py:176-204 | every grayscale image raises IndexError when saved as JPEG, where the corrected save writes it in mode "L" |
| Decoding.ExtractImage | microservices/decoding/service.py:296-307 | a dictionary's "image" entry wins whatever it holds, else "pixels", else its only entry, else the dictionary itself; then a non-empty list or tuple gives its first element |
| Decoding.NormalizedShape | microservices/decoding/service.py:312-323 | ranks 3 and 4 give the last three dimensions; others fail naming the shape |
| Decoding.DecodeSteps | microservices/decoding/service.py:268-362 | the first step that raises (VAE, latent, decode, no tensor, shape, save) ends the block with that exception; otherwise the success carries the decoder's image, its normalised shape and the saved path |
| Decoding.DecodeLatentToImage | microservices/decoding/service.py:219-380 | an invalid format raises; otherwise a failure exactly when a step raised, with its class name and text, and the steps' success otherwise: request id, defaults, normalised shape (non-zero height and width when saved) and a path iff saved |
| Decoding.SuccessIffEveryStepSucceeds | microservices/decoding/service.py:268-380 | with a valid format, success iff the VAE loads, the latent is prepared and decoded, a rank 3 or 4 tensor is found and (when saving) can be saved; the success carries that tensor |
| Decoding.DecoderErrorIsReported | microservices/decoding/service.py:268-379 | an exception from the decoder becomes the error result with its class name and text |
| Decoding.GrayscaleFailsOnlyAsJpeg | microservices/decoding/service.py:176-204 | a grayscale decode succeeds unsaved and as PNG, and fails with IndexError with the default JPEG |
| Decoding.SavedImageMatchesReport | microservices/decoding/service.py:325-364 | the saved image's shape is the reported shape |
| Decoding.EmptyBatchFailsOnlyWhenSaved | microservices/decoding/service.py:325-338 | an empty batch succeeds without saving and fails with IndexError when saved |
| Decoding.ZeroHeightFailsOnlyWhenSaved | microservices/decoding/service.py:158-162 | an image of height 0 succeeds without saving and, when saved, becomes the error result with the ValueError |
| TextEncoder.FromDict | microservices/text_encoder/service.py:140-152 | "cond" if present, else the only entry |
| TextEncoder.ExtractConditioningTensor | microservices/text_encoder/service.py:132-158 | a tensor, the first element of a sequence, or a dict's tensor; anything else raises naming its type |
| TextEncoder.CondTakesPrecedence | microservices/text_encoder/service.py:140-152 | "cond" wins over the single-entry rule |
| TextEncoder.ConditioningPairYieldsTensor | microservices/text_encoder/service.py:135-139 | `[tensor, metadata]` yields the tensor |
| TextEncoder.Candidates | microservices/text_encoder/service.py:100-129 | the path as given first; fallbacks only for a relative path |
| TextEncoder.FirstExisting | microservices/text_encoder/service.py:100-129 | a candidate that exists and no earlier one does; none iff none exists |
| TextEncoder.ResolveImagePath | microservices/text_encoder/service.py:100-129 | a resolved path is a file on disk |
| TextEncoder.ResolveTakesFirstExisting | microservices/text_encoder/service.py:100-129 | resolves to the first existing candidate; none found raises the not-found error |
| TextEncoder.EncodeSteps | microservices/text_encoder/service.py:218-358 | the first step that raises (image 1, image 2, ComfyUI, positive, negative extraction) ends the block with that exception; otherwise the success carries the resolved images, the request and the extracted tensors |
| TextEncoder.EncodeTextAndImages | microservices/text_encoder/service.py:161-375 | the request id, defaults and prompts as given; both images resolved to files; tensor paths iff saved with their names; an error result exactly when a step raised, with its class name and text, and the steps' success otherwise |
| TextEncoder.EncodedIffEveryStepSucceeds | microservices/text_encoder/service.py:218-303 | success iff both images resolve, ComfyUI runs and both tensors are extracted; the success carries the resolved images and those tensors |
| TextEncoder.EncoderErrorIsReported | microservices/text_encoder/service.py:218-375 | once both images are found, an exception inside ComfyUI becomes the error result with its class name and text |
| TextEncoder.MissingImageFails | microservices/text_encoder/service.py:206-221 | a first image that cannot be found fails before the pipeline runs |

## Left out

- Logging, `log_event` and the startup log line are not modelled; they have no effect on results.
- Concurrency: each scheduler method runs under one lock in the source, so each is one atomic step here. The interleaving between the busy check and `accept_job` in the handler is a parameter (`race`).
- HTTP header names are matched exactly. The framework's case-insensitive lookup is not modelled.
- YAML mappings are string-keyed maps. Non-string keys and YAML parsing are not modelled; parsing is a parameter (`files`).
- Paths are plain strings. `pathlib` normalisation, `..` and symlinks are not modelled.
- Python exception texts follow CPython 3.11 and 3.12; other versions word some of them differently.
- Lower-casing is ASCII only; Python's Unicode `lower()` is not modelled.
- Pixel values, normalisation to 0-255, floating point image data and `file_size` are not modelled; only shapes, modes, formats and paths are.
- The ComfyUI pipelines, VAE loading and `torch.load` are opaque parameters that succeed or raise.
- Directory creation (`mkdir`, `ensure_directory_exists`), `img.save` and `torch.save` always succeed in the model. A failure of the disk (permissions, space) is not modelled.
- The outcome of `save_uploaded_file` (the path, or the exception and any file it had created), the result of `validate_image_file` and the outcome of `run_inference` are parameters of the job.
- The HTTP client is the outcome of each attempt; timeouts fold into that outcome. `asyncio.sleep` is recorded as the list of waits.
- `json.loads`, `json.dumps` and `str()` of arbitrary objects are parameters.
- Request-id generation, timestamps and the clock are parameters.
- The metrics endpoint is not modelled; it queries the GPU through torch.
- Metrics.MetricsRegistry.IncrementMetric: float addition is modelled as exact addition of reals; rounding is not modelled.
- Scheduler property getters are not modelled separately; the fields are read directly.
- Config getters take the loaded configuration. Their lazy load through `get_config` is `Config.ConfigStore.GetConfig`.
- AssetCallback.FormData: `int()` of an infinite or NaN time raises in Python, and the model has no such inputs (times are reals).
- Dictionaries inside the microservices' objects are assumed to have distinct keys, as Python dictionaries do.
- `save_image_tensor` has branches for a rank-2 shape and for an unsupported channel count. The rank and channel checks before them make both unreachable, so they are not modelled.
- The background job's output image is never removed by the source, and the model keeps it (`Tryon.JobFilesFacts`).

## Findings

| source | as written | input that shows it | evidently intended | confidence | as-written member | corrected member |
|---|---|---|---|---|---|---|
| gpu-server-qwen/app/routers/tryon.py:126-145 | After `accept_job` has taken the slot, `.get` is called on whatever `json.loads(config)` returned. This is outside any `try`, and nothing then calls `complete_job`. | an authenticated request with `config` set to `[]` (valid JSON, not an object) raises AttributeError, and the slot stays busy for a job that never runs | a configuration that is not an object is treated like an invalid one, so the defaults apply and the accepted job always starts and releases the slot | not executed | Tryon.NonObjectConfigLeaksSlot | Tryon.CheckedHandlerNeverLeaks |
| gpu-server-qwen/app/routers/tryon.py:126-132 | Only `json.JSONDecodeError` is caught around `json.loads(config)`, which runs after `accept_job`. Any other exception from the parser leaves the handler and the slot is never released. | an authenticated request whose `config` is a very deeply nested array (`[[[[…` many thousands deep) makes `json.loads` raise RecursionError | a configuration that cannot be parsed for any reason falls back to the defaults, as the "using defaults" warning says | not executed | Tryon.ParserErrorLeaksSlot | Tryon.CheckedHandlerNeverLeaks |
| microservices/decoding/service.py:176-204 | A 1-channel image is squeezed to two dimensions (`image_np.squeeze(2)`), and the JPEG alpha check then reads `image_np.shape[2]`. | `decode_latent_to_image` with the default format "jpg" on a decode of shape [1, 64, 64, 1] returns an error result with error_code IndexError ("tuple index out of range") | the channel count is taken before the squeeze, so a grayscale image is saved as a grayscale JPEG | not executed | Decoding.GrayscaleJpegNeverSaves | Decoding.SaveImageIntended |

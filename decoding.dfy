/**
 * The decoding microservice: a latent (a file path, a tensor or a dictionary) is
 * brought into the `{"samples": tensor}` form the VAE decoder takes, decoded, the
 * image tensor is picked out of whatever the decoder returned, its shape is
 * reported as [height, width, channels], and the image may be saved.
 *
 * ComfyUI, the VAE and the tensor file loader are opaque: they are the fields of
 * `Decoder`. Pixel values, their normalisation and the encoded bytes are not
 * modelled; the saved image is described by its path, shape, mode and format.
 */
module Decoding {
  import opened Wrappers
  import opened Text
  import opened Python
  import opened Objects

  /** The opaque parts of a decode. */
  datatype Decoder = Decoder(
    loadVae: Result<(), Exception>,          // setup_comfyui, the VAE file check and load_vae
    load: string -> Result<Obj, Exception>,  // load_tensor_from_file
    decode: Obj -> Result<Obj, Exception>,   // the first output of VAEDecode().decode
    show: Obj -> string)                     // str(o)

  /** The service configuration the defaults come from. */
  datatype ServiceConfig = ServiceConfig(vaeModelName: string, outputDir: string)

  // ------------------------------------------------------------ the latent

  function InvalidTensorFormat(latent: Obj): Exception {
    Exception("InvalidTensorFormatError",
              "Latent must be a file path (str), tensor, or dict, got " + TypeRepr(latent))
  }

  /** The form the decoder takes. */
  function Samples(t: Obj): Obj {
    Dict([("samples", t)])
  }

  /** `prepare_latent_for_decoder`. */
  function PrepareLatentForDecoder(latent: Obj, load: string -> Result<Obj, Exception>): (r: Result<Obj, Exception>)
    ensures r.Ok? ==> r.value.Dict? && Find(r.value.entries, "samples").Some?
    ensures latent.Dict? && Find(latent.entries, "samples").Some? ==> r == Ok(latent)
    ensures latent.Dict? && Find(latent.entries, "samples").None? ==>
              && (r.Ok? <==> |latent.entries| == 1 && latent.entries[0].1.Tensor?)
              && (r.Ok? ==> r.value == Samples(latent.entries[0].1))
              && (r.Err? ==> r.error == InvalidTensorFormat(latent))
    ensures latent.Tensor? ==> r == Ok(Samples(latent))
    ensures latent.Str? ==>
              && (r.Ok? <==> load(latent.s).Ok?)
              && (r.Ok? ==> Find(r.value.entries, "samples") == Some(load(latent.s).value))
              && (r.Err? ==> r.error == load(latent.s).error)
    ensures !(latent.Dict? || latent.Tensor? || latent.Str?) ==> r == Err(InvalidTensorFormat(latent))
  {
    if latent.Dict? && Find(latent.entries, "samples").Some? then Ok(latent)
    else if latent.Dict? && |latent.entries| == 1 && latent.entries[0].1.Tensor? then Ok(Samples(latent.entries[0].1))
    else match latent
      case Str(path) =>
        var tensor :- load(path);
        Ok(Samples(tensor))
      case Tensor(_) => Ok(Samples(latent))
      case _ => Err(InvalidTensorFormat(latent))
  }

  /** Preparing a prepared latent changes nothing and loads nothing. */
  lemma PrepareIsIdempotent(latent: Obj, load: string -> Result<Obj, Exception>, otherLoad: string -> Result<Obj, Exception>)
    requires PrepareLatentForDecoder(latent, load).Ok?
    ensures PrepareLatentForDecoder(PrepareLatentForDecoder(latent, load).value, otherLoad)
         == PrepareLatentForDecoder(latent, load)
  {
  }

  // ------------------------------------------------------------ saving

  /** The PIL format for a requested output format; unknown formats save as JPEG. */
  function PilFormat(outputFormat: string): (r: string)
    ensures r == "JPEG" || r == "PNG" || r == "WEBP"
    ensures r == "PNG" <==> Lower(outputFormat) == "png"
    ensures r == "WEBP" <==> Lower(outputFormat) == "webp"
  {
    var f := Lower(outputFormat);
    if f == "jpg" || f == "jpeg" then "JPEG"
    else if f == "png" then "PNG"
    else if f == "webp" then "WEBP"
    else "JPEG"
  }

  /** The format mapping ignores case. */
  lemma PilFormatIgnoresCase(outputFormat: string)
    ensures PilFormat(Lower(outputFormat)) == PilFormat(outputFormat)
  {
    LowerIdempotent(outputFormat);
  }

  /** The PIL image mode for a channel count. */
  function ChannelMode(channels: nat): Option<string> {
    if channels == 1 then Some("L")
    else if channels == 3 then Some("RGB")
    else if channels == 4 then Some("RGBA")
    else None
  }

  /** What `save_image_tensor` wrote: the path, the [H, W, C] shape, the image mode, the format and the mode saved. */
  datatype SavedImage = SavedImage(path: string, shape: seq<nat>, mode: string, pilFormat: string, savedMode: string)

  function InvalidImageFormat(message: string): Exception {
    Exception("InvalidImageFormatError", message)
  }

  /** What `image_np.min()` raises on an image with no pixels. */
  const ZeroSizeImage := Exception("ValueError", "zero-size array to reduction operation minimum which has no identity")

  /** What `image_np.shape[2]` raises once a grayscale image has been squeezed to two dimensions. */
  const NoChannelAxis := Exception("IndexError", "tuple index out of range")

  /** A shape `save_image_tensor` can cut to one [H, W, C] image with a known channel count and some pixels. */
  predicate SaveableShape(shape: seq<nat>) {
    && (|shape| == 3 || (|shape| == 4 && shape[0] > 0))
    && ChannelMode(shape[|shape| - 1]).Some?
    && shape[|shape| - 3] > 0 && shape[|shape| - 2] > 0
  }

  /**
   * `save_image_tensor` on a tensor of the given shape: a batch is cut to its first
   * image, the image must be [H, W, C] with C in {1, 3, 4}, the pixel-range check
   * raises on an image with no pixels, a grayscale image is squeezed to two
   * dimensions so the JPEG alpha check then raises IndexError, and an RGBA image
   * saved as JPEG loses its alpha channel.
   */
  function SaveImageTensor(shape: seq<nat>, outputPath: string, outputFormat: string := "jpg")
    : (r: Result<SavedImage, Exception>)
    ensures r.Ok? <==> SaveableShape(shape) && !(shape[|shape| - 1] == 1 && PilFormat(outputFormat) == "JPEG")
    ensures |shape| != 3 && |shape| != 4 ==>
              r == Err(InvalidImageFormat("Expected image tensor with 3 or 4 dimensions, got " + DecimalString(|shape|)))
    ensures |shape| == 4 && shape[0] == 0 ==>
              r == Err(Exception("IndexError", "index 0 is out of bounds for dimension 0 with size 0"))
    ensures ((|shape| == 3 || (|shape| == 4 && shape[0] > 0)) && ChannelMode(shape[|shape| - 1]).None?) ==>
              r == Err(InvalidImageFormat("Expected image tensor shape [H, W, C], got " + SizeRepr(shape[|shape| - 3..])))
    ensures ((|shape| == 3 || (|shape| == 4 && shape[0] > 0)) && ChannelMode(shape[|shape| - 1]).Some?
             && (shape[|shape| - 3] == 0 || shape[|shape| - 2] == 0)) ==> r == Err(ZeroSizeImage)
    ensures (SaveableShape(shape) && shape[|shape| - 1] == 1 && PilFormat(outputFormat) == "JPEG") ==>
              r == Err(NoChannelAxis)
    ensures r.Ok? ==>
              && r.value.path == outputPath
              && r.value.shape == shape[|shape| - 3..]
              && r.value.mode == ChannelMode(r.value.shape[2]).value
              && r.value.pilFormat == PilFormat(outputFormat)
              && r.value.savedMode == (if r.value.pilFormat == "JPEG" && r.value.shape[2] == 4 then "RGB" else r.value.mode)
  {
    if |shape| != 3 && |shape| != 4 then
      Err(InvalidImageFormat("Expected image tensor with 3 or 4 dimensions, got " + DecimalString(|shape|)))
    else if |shape| == 4 && shape[0] == 0 then
      Err(Exception("IndexError", "index 0 is out of bounds for dimension 0 with size 0"))
    else
      var image := if |shape| == 4 then shape[1..] else shape;
      match ChannelMode(image[2])
      case None => Err(InvalidImageFormat("Expected image tensor shape [H, W, C], got " + SizeRepr(image)))
      case Some(mode) =>
        if image[0] == 0 || image[1] == 0 then Err(ZeroSizeImage)
        else
          var pilFormat := PilFormat(outputFormat);
          if pilFormat == "JPEG" && image[2] == 1 then Err(NoChannelAxis)
          else
            var savedMode := if pilFormat == "JPEG" && image[2] == 4 then "RGB" else mode;
            Ok(SavedImage(outputPath, image, mode, pilFormat, savedMode))
  }

  /**
   * `save_image_tensor` as evidently intended: the channel count is read before the
   * grayscale squeeze, so every image with a known channel count and some pixels is
   * saved, a grayscale one as a grayscale JPEG.
   */
  function SaveImageIntended(shape: seq<nat>, outputPath: string, outputFormat: string := "jpg")
    : (r: Result<SavedImage, Exception>)
    ensures r.Ok? <==> SaveableShape(shape)
    ensures r.Ok? ==>
              && r.value.path == outputPath
              && r.value.shape == shape[|shape| - 3..]
              && r.value.mode == ChannelMode(r.value.shape[2]).value
              && r.value.pilFormat == PilFormat(outputFormat)
              && r.value.savedMode == (if r.value.pilFormat == "JPEG" && r.value.shape[2] == 4 then "RGB" else r.value.mode)
    ensures !(shape != [] && shape[|shape| - 1] == 1 && PilFormat(outputFormat) == "JPEG") ==>
              r == SaveImageTensor(shape, outputPath, outputFormat)
  {
    if SaveableShape(shape) && shape[|shape| - 1] == 1 && PilFormat(outputFormat) == "JPEG" then
      Ok(SavedImage(outputPath, shape[|shape| - 3..], "L", "JPEG", "L"))
    else SaveImageTensor(shape, outputPath, outputFormat)
  }

  /**
   * No grayscale image is ever saved as JPEG, although the intended definition
   * saves every one of them in mode "L".
   */
  lemma GrayscaleJpegNeverSaves(shape: seq<nat>, outputPath: string, outputFormat: string)
    requires SaveableShape(shape) && shape[|shape| - 1] == 1 && PilFormat(outputFormat) == "JPEG"
    ensures SaveImageTensor(shape, outputPath, outputFormat) == Err(NoChannelAxis)
    ensures SaveImageIntended(shape, outputPath, outputFormat)
         == Ok(SavedImage(outputPath, shape[|shape| - 3..], "L", "JPEG", "L"))
  {
  }

  // ------------------------------------------------------------ decoding

  const ValidFormats: set<string> := {"jpg", "jpeg", "png", "webp"}

  /** The outcome of `decode_latent_to_image` when it returns rather than raises. */
  datatype DecodeResult =
    | Success(requestId: string, imageFilePath: Option<string>, imageShape: seq<nat>, image: Obj,
              vaeModelName: string, outputFormat: string)
    | Failure(requestId: string, errorCode: string, errorMessage: string)

  /** A non-empty list or tuple stands for its first element; anything else for itself. */
  function FirstOfSequence(o: Obj): (r: Obj)
    ensures IsSequence(o) && |Items(o)| > 0 ==> r == Items(o)[0]
    ensures !(IsSequence(o) && |Items(o)| > 0) ==> r == o
  {
    if IsSequence(o) && |Items(o)| > 0 then Items(o)[0] else o
  }

  /**
   * The image tensor inside the decoder's output: a dictionary gives its "image",
   * else its "pixels", else its only value; then a non-empty list or tuple gives
   * its first element.
   */
  function ExtractImage(raw: Obj): (r: Obj)
    ensures !raw.Dict? ==> r == FirstOfSequence(raw)
    ensures raw.Dict? && Find(raw.entries, "image").Some? ==> r == FirstOfSequence(Find(raw.entries, "image").value)
    ensures (raw.Dict? && Find(raw.entries, "image").None? && Find(raw.entries, "pixels").Some?) ==>
              r == FirstOfSequence(Find(raw.entries, "pixels").value)
    ensures (raw.Dict? && Find(raw.entries, "image").None? && Find(raw.entries, "pixels").None?) ==>
              r == (if |raw.entries| == 1 then FirstOfSequence(raw.entries[0].1) else raw)
    ensures raw.Tensor? ==> r == raw
    ensures IsSequence(raw) && |Items(raw)| > 0 ==> r == Items(raw)[0]
    ensures raw.Dict? && Find(raw.entries, "image").Some? && Find(raw.entries, "image").value.Tensor? ==>
              r == Find(raw.entries, "image").value
    ensures (raw.Dict? && Find(raw.entries, "image").None? && Find(raw.entries, "pixels").Some?
             && Find(raw.entries, "pixels").value.Tensor?) ==> r == Find(raw.entries, "pixels").value
    ensures (raw.Dict? && Find(raw.entries, "image").None? && Find(raw.entries, "pixels").None?
             && |raw.entries| == 1 && raw.entries[0].1.Tensor?) ==> r == raw.entries[0].1
  {
    var inner :=
      if raw.Dict? then
        match Find(raw.entries, "image")
        case Some(v) => v
        case None =>
          match Find(raw.entries, "pixels")
          case Some(v) => v
          case None => if |raw.entries| == 1 then raw.entries[0].1 else raw
      else raw;
    FirstOfSequence(inner)
  }

  /** The reported [H, W, C]: a batch dimension is dropped; any rank but 3 and 4 fails. */
  function NormalizedShape(shape: seq<nat>): (r: Result<seq<nat>, Exception>)
    ensures r.Ok? <==> |shape| == 3 || |shape| == 4
    ensures r.Ok? ==> |r.value| == 3 && r.value == shape[|shape| - 3..]
    ensures r.Err? ==> r.error == Exception("DecodingFailedError", "Unexpected image tensor shape: " + SizeRepr(shape))
  {
    if |shape| == 4 then Ok(shape[1..])
    else if |shape| == 3 then Ok(shape)
    else Err(Exception("DecodingFailedError", "Unexpected image tensor shape: " + SizeRepr(shape)))
  }

  /** `f"{output_filename}_{timestamp}.{output_format}"`. */
  function ImageFileName(outputFilename: string, timestamp: string, outputFormat: string): string {
    outputFilename + "_" + timestamp + "." + outputFormat
  }

  /** What the VAE decoder returns for the latent: the VAE is loaded, the latent prepared, then decoded. */
  function Decoded(latent: Obj, dec: Decoder): (r: Result<Obj, Exception>)
    ensures dec.loadVae.Err? ==> r == Err(dec.loadVae.error)
    ensures dec.loadVae.Ok? && PrepareLatentForDecoder(latent, dec.load).Err? ==>
              r == Err(PrepareLatentForDecoder(latent, dec.load).error)
    ensures dec.loadVae.Ok? && PrepareLatentForDecoder(latent, dec.load).Ok? ==>
              r == dec.decode(PrepareLatentForDecoder(latent, dec.load).value)
  {
    var _ :- dec.loadVae;
    var latentDict :- PrepareLatentForDecoder(latent, dec.load);
    dec.decode(latentDict)
  }

  /**
   * The body of the `try` block, with the defaults already filled in and the format
   * checked: the first step that raises ends it with that exception; otherwise the
   * success carries the decoder's image, its reported shape and the saved path.
   */
  function DecodeSteps(latent: Obj, dec: Decoder, vaeModelName: string, outputDir: string, outputFilename: string,
                       outputFormat: string, requestId: string, saveImage: bool, timestamp: string)
    : (r: Result<DecodeResult, Exception>)
    ensures r.Ok? ==> r.value.Success? && r.value.requestId == requestId
    ensures Decoded(latent, dec).Err? ==> r == Err(Decoded(latent, dec).error)
    ensures Decoded(latent, dec).Ok? ==>
              var image := ExtractImage(Decoded(latent, dec).value);
              var path := JoinPath(outputDir, ImageFileName(outputFilename, timestamp, outputFormat));
              && (r.Ok? <==> && image.Tensor? && NormalizedShape(image.shape).Ok?
                             && (saveImage ==> SaveImageTensor(image.shape, path, outputFormat).Ok?))
              && (!image.Tensor? ==>
                    r == Err(Exception("DecodingFailedError", "Expected tensor, got " + TypeRepr(image) + ": " + dec.show(image))))
              && (image.Tensor? && NormalizedShape(image.shape).Err? ==> r == Err(NormalizedShape(image.shape).error))
              && ((image.Tensor? && NormalizedShape(image.shape).Ok? && saveImage
                   && SaveImageTensor(image.shape, path, outputFormat).Err?) ==>
                    r == Err(SaveImageTensor(image.shape, path, outputFormat).error))
              && (r.Ok? ==> r.value == Success(requestId, if saveImage then Some(path) else None,
                                               NormalizedShape(image.shape).value, image, vaeModelName, outputFormat))
  {
    var raw :- Decoded(latent, dec);
    var image := ExtractImage(raw);
    if !image.Tensor? then
      Err(Exception("DecodingFailedError", "Expected tensor, got " + TypeRepr(image) + ": " + dec.show(image)))
    else
      var shape :- NormalizedShape(image.shape);
      if saveImage then
        var path := JoinPath(outputDir, ImageFileName(outputFilename, timestamp, outputFormat));
        var saved :- SaveImageTensor(image.shape, path, outputFormat);
        Ok(Success(requestId, Some(saved.path), shape, image, vaeModelName, outputFormat))
      else Ok(Success(requestId, None, shape, image, vaeModelName, outputFormat))
  }

  /**
   * `decode_latent_to_image`. `generatedId` is what `generate_request_id` would
   * return and `timestamp` what the clock formats; the format is checked before the
   * `try`, so a bad format raises, while every later failure becomes an error result.
   */
  function DecodeLatentToImage(latent: Obj, dec: Decoder, config: ServiceConfig, generatedId: string,
                               timestamp: string, vaeModelName: Option<string> := None,
                               outputFilename: string := "output", outputDir: Option<string> := None,
                               outputFormat: string := "jpg", requestId: Option<string> := None,
                               saveImage: bool := true)
    : (r: Result<DecodeResult, Exception>)
    ensures r.Err? <==> Lower(outputFormat) !in ValidFormats
    ensures r.Err? ==>
              r.error == InvalidImageFormat("Invalid output format: " + Lower(outputFormat) + ". Must be jpg, png, or webp")
    ensures r.Ok? ==> r.value.requestId == requestId.GetOr(generatedId)
    ensures r.Ok? && r.value.Success? ==>
              && r.value.vaeModelName == vaeModelName.GetOr(config.vaeModelName)
              && r.value.outputFormat == Lower(outputFormat)
              && r.value.image.Tensor?
              && |r.value.image.shape| >= 3
              && r.value.imageShape == r.value.image.shape[|r.value.image.shape| - 3..]
              && (r.value.imageFilePath.Some? <==> saveImage)
              && (saveImage ==> r.value.imageShape[0] > 0 && r.value.imageShape[1] > 0)
    ensures r.Ok? && r.value.Failure? ==>
              var steps := DecodeSteps(latent, dec, vaeModelName.GetOr(config.vaeModelName),
                                       outputDir.GetOr(config.outputDir), outputFilename, Lower(outputFormat),
                                       requestId.GetOr(generatedId), saveImage, timestamp);
              steps.Err? && r.value.errorCode == steps.error.kind && r.value.errorMessage == steps.error.message
    ensures Lower(outputFormat) in ValidFormats ==>
              var steps := DecodeSteps(latent, dec, vaeModelName.GetOr(config.vaeModelName),
                                       outputDir.GetOr(config.outputDir), outputFilename, Lower(outputFormat),
                                       requestId.GetOr(generatedId), saveImage, timestamp);
              && (r.value.Failure? <==> steps.Err?)
              && (steps.Ok? ==> r == Ok(steps.value))
              && (steps.Err? ==> r == Ok(Failure(requestId.GetOr(generatedId), steps.error.kind, steps.error.message)))
  {
    var rid := requestId.GetOr(generatedId);
    var vae := vaeModelName.GetOr(config.vaeModelName);
    var dir := outputDir.GetOr(config.outputDir);
    var format := Lower(outputFormat);
    if format !in ValidFormats then
      Err(InvalidImageFormat("Invalid output format: " + format + ". Must be jpg, png, or webp"))
    else
      match DecodeSteps(latent, dec, vae, dir, outputFilename, format, rid, saveImage, timestamp)
      case Ok(result) => Ok(result)
      case Err(e) => Ok(Failure(rid, e.kind, e.message))
  }

  /**
   * A saved image goes to `{output_filename}_{timestamp}.{format}` under the output
   * directory, and `save_image_tensor` sees the same [H, W, C] the result reports.
   */
  lemma SavedImageMatchesReport(latent: Obj, dec: Decoder, config: ServiceConfig, generatedId: string,
                                timestamp: string, vaeModelName: Option<string>, outputFilename: string,
                                outputDir: Option<string>, outputFormat: string, requestId: Option<string>)
    requires DecodeLatentToImage(latent, dec, config, generatedId, timestamp, vaeModelName, outputFilename,
                                 outputDir, outputFormat, requestId, true).Ok?
    requires DecodeLatentToImage(latent, dec, config, generatedId, timestamp, vaeModelName, outputFilename,
                                 outputDir, outputFormat, requestId, true).value.Success?
    ensures var res := DecodeLatentToImage(latent, dec, config, generatedId, timestamp, vaeModelName, outputFilename,
                                           outputDir, outputFormat, requestId, true).value;
      var path := JoinPath(outputDir.GetOr(config.outputDir), ImageFileName(outputFilename, timestamp, Lower(outputFormat)));
      && res.imageFilePath == Some(path)
      && SaveImageTensor(res.image.shape, path, Lower(outputFormat)).Ok?
      && SaveImageTensor(res.image.shape, path, Lower(outputFormat)).value.shape == res.imageShape
  {
  }

  /**
   * A decoded batch of zero images is reported with its [H, W, C] when it is not
   * saved, and fails with IndexError when it is.
   */
  lemma EmptyBatchFailsOnlyWhenSaved(dec: Decoder, config: ServiceConfig, generatedId: string, timestamp: string)
    requires dec.loadVae.Ok? && dec.decode(Samples(Tensor([1, 16, 8, 8]))) == Ok(Tensor([0, 64, 64, 3]))
    ensures var r := DecodeLatentToImage(Tensor([1, 16, 8, 8]), dec, config, generatedId, timestamp, saveImage := false);
      r.Ok? && r.value.Success? && r.value.imageShape == [64, 64, 3]
    ensures var r := DecodeLatentToImage(Tensor([1, 16, 8, 8]), dec, config, generatedId, timestamp);
      r == Ok(Failure(generatedId, "IndexError", "index 0 is out of bounds for dimension 0 with size 0"))
  {
    assert Lower("jpg") == "jpg";
  }

  /**
   * A decoded image of height 0 is reported with its shape when it is not saved,
   * and becomes a ValueError result when it is: the pixel-range check finds no pixels.
   */
  lemma ZeroHeightFailsOnlyWhenSaved(dec: Decoder, config: ServiceConfig, generatedId: string, timestamp: string)
    requires dec.loadVae.Ok? && dec.decode(Samples(Tensor([1, 16, 8, 8]))) == Ok(Tensor([1, 0, 64, 3]))
    ensures var r := DecodeLatentToImage(Tensor([1, 16, 8, 8]), dec, config, generatedId, timestamp, saveImage := false);
      r.Ok? && r.value.Success? && r.value.imageShape == [0, 64, 3]
    ensures var r := DecodeLatentToImage(Tensor([1, 16, 8, 8]), dec, config, generatedId, timestamp);
      r == Ok(Failure(generatedId, "ValueError", "zero-size array to reduction operation minimum which has no identity"))
  {
    assert Lower("jpg") == "jpg";
  }

  /**
   * With a valid format the request succeeds exactly when every step does: the VAE
   * loads, the latent is prepared and decoded, a tensor of rank 3 or 4 is found in
   * the output and, when saving, that tensor can be saved; the success reports
   * exactly that tensor.
   */
  lemma SuccessIffEveryStepSucceeds(latent: Obj, dec: Decoder, config: ServiceConfig, generatedId: string,
                                    timestamp: string, vaeModelName: Option<string>, outputFilename: string,
                                    outputDir: Option<string>, outputFormat: string, requestId: Option<string>,
                                    saveImage: bool)
    requires Lower(outputFormat) in ValidFormats
    ensures var r := DecodeLatentToImage(latent, dec, config, generatedId, timestamp, vaeModelName, outputFilename,
                                         outputDir, outputFormat, requestId, saveImage);
      var prepared := PrepareLatentForDecoder(latent, dec.load);
      && r.Ok?
      && (r.value.Success? <==>
            && dec.loadVae.Ok? && prepared.Ok? && dec.decode(prepared.value).Ok?
            && ExtractImage(dec.decode(prepared.value).value).Tensor?
            && |ExtractImage(dec.decode(prepared.value).value).shape| in {3, 4}
            && (saveImage ==>
                  SaveImageTensor(ExtractImage(dec.decode(prepared.value).value).shape,
                                  JoinPath(outputDir.GetOr(config.outputDir),
                                           ImageFileName(outputFilename, timestamp, Lower(outputFormat))),
                                  Lower(outputFormat)).Ok?))
      && (r.value.Success? ==> r.value.image == ExtractImage(dec.decode(prepared.value).value))
  {
  }

  /**
   * An exception from the VAE decoder itself becomes the error result with its class
   * name and text, whatever is asked of the saving.
   */
  lemma DecoderErrorIsReported(latent: Obj, dec: Decoder, config: ServiceConfig, generatedId: string,
                               timestamp: string, outputFormat: string, saveImage: bool, e: Exception)
    requires Lower(outputFormat) in ValidFormats
    requires dec.loadVae.Ok? && PrepareLatentForDecoder(latent, dec.load).Ok?
    requires dec.decode(PrepareLatentForDecoder(latent, dec.load).value) == Err(e)
    ensures DecodeLatentToImage(latent, dec, config, generatedId, timestamp, outputFormat := outputFormat,
                                saveImage := saveImage)
         == Ok(Failure(generatedId, e.kind, e.message))
  {
  }

  /**
   * A grayscale decode is reported when it is not saved and when it is saved as PNG,
   * but saving it with the default JPEG format becomes an IndexError result.
   */
  lemma GrayscaleFailsOnlyAsJpeg(dec: Decoder, config: ServiceConfig, generatedId: string, timestamp: string)
    requires dec.loadVae.Ok? && dec.decode(Samples(Tensor([1, 16, 8, 8]))) == Ok(Tensor([1, 64, 64, 1]))
    ensures var r := DecodeLatentToImage(Tensor([1, 16, 8, 8]), dec, config, generatedId, timestamp, saveImage := false);
      r.Ok? && r.value.Success? && r.value.imageShape == [64, 64, 1]
    ensures var r := DecodeLatentToImage(Tensor([1, 16, 8, 8]), dec, config, generatedId, timestamp, outputFormat := "png");
      r.Ok? && r.value.Success? && r.value.imageShape == [64, 64, 1]
    ensures var r := DecodeLatentToImage(Tensor([1, 16, 8, 8]), dec, config, generatedId, timestamp);
      r == Ok(Failure(generatedId, "IndexError", "tuple index out of range"))
  {
    assert Lower("jpg") == "jpg";
    assert Lower("png") == "png";
  }
}

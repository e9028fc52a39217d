/**
 * The iOS plugin's request pipeline: `createThumbnail` (build the URL and the asset, configure
 * an `AVAssetImageGenerator` field by field, copy one image), `generateThumbnailFile` (encode,
 * then create the directory, then write), `generateThumbnailData`, and the part of `handle`
 * that runs a queued request and turns its outcome into a reply.
 *
 * The platform is an `IosEnv`: its function-typed fields stand for the MD5 digest, the
 * `URL(string:)` check, the image generator, the encoders and the file-system calls.
 */
module IosPlugin {
  import opened Common
  import opened Naming
  import opened Storage
  import opened IosLogic

  /** How a throwing file-system call ended. */
  datatype Outcome = Succeeded | Failed(description: string)

  /** `AVAssetImageGenerator.requestedTimeToleranceBefore/After`. */
  datatype Tolerance = PositiveInfinity | Finite(time: CMTime)

  /** The generator properties `copyCGImage` depends on. */
  datatype GeneratorSettings = GeneratorSettings(
    appliesPreferredTrackTransform: bool,
    toleranceBefore: Tolerance,
    toleranceAfter: Tolerance,
    maximumSize: Size)   // Size(0, 0), `CGSize.zero`, means no limit

  datatype IosEnv = IosEnv(
    cachesDir: string,                                                  // FileManager cachesDirectory
    md5: string -> Digest,                                              // CC_MD5 over the UTF-8 bytes
    isValidUrl: string -> bool,                                         // URL(string:) != nil
    copyImage: (Asset, GeneratorSettings, CMTime) -> Result<Dims, string>,  // copyCGImage(at:actualTime:)
    encode: (Dims, Encoding) -> Option<seq<byte>>,                      // jpegData / pngData
    createDirectory: string -> Outcome,                                 // createDirectory(at:withIntermediateDirectories: true)
    write: (string, seq<byte>) -> Outcome)                              // Data.write(to:)

  /** What a request throws: one of the plugin's own errors, or the platform's. */
  datatype Thrown = Raised(error: PluginError) | PlatformError(description: string) {
    /** `error.localizedDescription`, which becomes the reply's message. */
    function LocalizedDescription(): string {
      match this
      case Raised(e) => e.description
      case PlatformError(d) => d
    }
  }

  const ENCODE_FAILED := PluginError(-2, "Failed to encode image")

  /** An `AVAssetImageGenerator` over one asset, with the properties `createThumbnail` sets. */
  class ImageGenerator {
    const asset: Asset
    var appliesPreferredTrackTransform: bool
    var toleranceBefore: Tolerance
    var toleranceAfter: Tolerance
    var maximumSize: Size
    /** The times images were copied at, in order. */
    var requests: seq<CMTime>

    /** `AVAssetImageGenerator(asset:)`: no transform, infinite tolerances, no size limit. */
    constructor (asset: Asset)
      ensures this.asset == asset && !appliesPreferredTrackTransform
      ensures toleranceBefore == PositiveInfinity && toleranceAfter == PositiveInfinity
      ensures maximumSize == Size(0, 0) && requests == []
    {
      this.asset := asset;
      appliesPreferredTrackTransform := false;
      toleranceBefore, toleranceAfter := PositiveInfinity, PositiveInfinity;
      maximumSize := Size(0, 0);
      requests := [];
    }

    function Settings(): GeneratorSettings
      reads this
    {
      GeneratorSettings(appliesPreferredTrackTransform, toleranceBefore, toleranceAfter, maximumSize)
    }

    /** `copyCGImage(at:actualTime: nil)`: the image at `time` under the current settings, or the error. */
    method CopyCGImage(env: IosEnv, time: CMTime) returns (r: Result<Dims, string>)
      modifies this
      ensures requests == old(requests) + [time]
      ensures Settings() == old(Settings())
      ensures r == env.copyImage(asset, Settings(), time)
    {
      requests := requests + [time];
      r := env.copyImage(asset, Settings(), time);
    }
  }

  /** The settings `createThumbnail` leaves the generator with. */
  function ThumbnailSettings(maxWidth: int, maxHeight: int): GeneratorSettings {
    GeneratorSettings(true, Finite(ZERO_TIME), Finite(ZERO_TIME), MaximumSize(maxWidth, maxHeight).GetOr(Size(0, 0)))
  }

  /** What `createThumbnail` yields, as a value: the image, `Invalid URL`, or the generator's error. */
  function ExpectedImage(env: IosEnv, video: string, headers: map<string, string>,
                         maxHeight: int, maxWidth: int, timeMs: Int64): (r: Result<Dims, Thrown>)
    ensures var url := VideoUrlFor(video, env.isValidUrl);
            && (url.Err? <==> r.Err? && r.error.Raised?)
            && (url.Err? ==> r == Err(Raised(INVALID_URL)))
            && (url.Ok? ==>
                  var image := env.copyImage(AssetFor(url.value, headers), ThumbnailSettings(maxWidth, maxHeight),
                                             RequestedTime(timeMs));
                  && (r.Ok? <==> image.Ok?)
                  && (r.Ok? ==> r.value == image.value)
                  && (r.Err? ==> r.error == PlatformError(image.error)))
  {
    match VideoUrlFor(video, env.isValidUrl)
    case Err(e) => Err(Raised(e))
    case Ok(url) =>
      match env.copyImage(AssetFor(url, headers), ThumbnailSettings(maxWidth, maxHeight), RequestedTime(timeMs))
      case Err(d) => Err(PlatformError(d))
      case Ok(image) => Ok(image)
  }

  /**
   * `createThumbnail`. An invalid http(s) URL throws before any generator exists; otherwise one
   * generator is made, set to apply the track transform with zero tolerance on both sides and
   * the `maximumSize` box, and asked for exactly one image, at `timeMs` milliseconds. It never
   * yields nil.
   */
  method CreateThumbnail(env: IosEnv, video: string, headers: map<string, string>,
                         maxHeight: Int64, maxWidth: Int64, timeMs: Int64)
    returns (r: Result<Dims, Thrown>, ghost generator: ImageGenerator?)
    ensures r == ExpectedImage(env, video, headers, maxHeight, maxWidth, timeMs)
    ensures generator == null <==> VideoUrlFor(video, env.isValidUrl).Err?
    ensures generator != null ==>
              && fresh(generator)
              && generator.asset == AssetFor(VideoUrlFor(video, env.isValidUrl).value, headers)
              && generator.appliesPreferredTrackTransform
              && generator.toleranceBefore == Finite(ZERO_TIME) && generator.toleranceAfter == Finite(ZERO_TIME)
              && (maxWidth <= 0 && maxHeight <= 0 ==> generator.maximumSize == Size(0, 0))
              && (maxWidth > 0 || maxHeight > 0 ==> generator.maximumSize == MaximumSize(maxWidth, maxHeight).value)
              && generator.requests == [RequestedTime(timeMs)]
  {
    generator := null;
    var videoUrl := VideoUrlFor(video, env.isValidUrl);
    if videoUrl.Err? {
      return Err(Raised(videoUrl.error)), generator;
    }
    var asset := AssetFor(videoUrl.value, headers);
    var g := new ImageGenerator(asset);
    g.appliesPreferredTrackTransform := true;
    g.toleranceAfter := Finite(ZERO_TIME);
    g.toleranceBefore := Finite(ZERO_TIME);
    if maxWidth > 0 || maxHeight > 0 {
      var width := if maxWidth > 0 then maxWidth else maxHeight;
      var height := if maxHeight > 0 then maxHeight else maxWidth;
      g.maximumSize := Size(width, height);
    }
    var time := RequestedTime(timeMs);
    var image := g.CopyCGImage(env, time);
    generator := g;
    if image.Err? {
      r := Err(PlatformError(image.error));
    } else {
      r := Ok(image.value);
    }
  }

  /** The file a request is written to: `<dir>/<md5 hex>_<timeMs>.<ext>`. */
  function OutputFile(env: IosEnv, video: string, path: string, format: int, timeMs: Int64): (file: string)
    ensures var dir := OutputDir(path, env.cachesDir);
            && |file| > |dir| + 1 && file[..|dir|] == dir && file[|dir|] == '/'
            && '/' !in file[|dir| + 1..]
            && ParseFileName(file[|dir| + 1..]) == Some(NameParts(env.md5(video), timeMs, FileFormat(format, 100).0))
  {
    var ext := FileFormat(format, 100).0;
    assert '/' !in ext;
    var name := FileName(env.md5(video), timeMs, ext);
    FileNameRoundTrip(env.md5(video), timeMs, ext);
    Join(OutputDir(path, env.cachesDir), name)
  }

  /**
   * The outcome of `generateThumbnailFile` as a value: the output path, or what was thrown.
   * A nil encoding is `-2 Failed to encode image`.
   */
  function FileOutcome(env: IosEnv, video: string, headers: map<string, string>, path: string,
                       format: Int64, maxHeight: Int64, maxWidth: Int64, timeMs: Int64,
                       quality: Int64): (r: Result<string, Thrown>)
    ensures var image := ExpectedImage(env, video, headers, maxHeight, maxWidth, timeMs);
            var dir := OutputDir(path, env.cachesDir);
            var file := OutputFile(env, video, path, format, timeMs);
            var data := if image.Ok? then env.encode(image.value, FileFormat(format, quality).1) else None;
            && (r.Ok? <==> data.Some? && env.createDirectory(dir).Succeeded? && env.write(file, data.value).Succeeded?)
            && (r.Ok? ==> r.value == file)
            && (image.Ok? && data.None? ==> r == Err(Raised(ENCODE_FAILED)))
  {
    match ExpectedImage(env, video, headers, maxHeight, maxWidth, timeMs)
    case Err(e) => Err(e)
    case Ok(image) =>
      match env.encode(image, FileFormat(format, quality).1)
      case None => Err(Raised(ENCODE_FAILED))
      case Some(data) =>
        var dir := OutputDir(path, env.cachesDir);
        match env.createDirectory(dir)
        case Failed(d) => Err(PlatformError(d))
        case Succeeded =>
          var file := OutputFile(env, video, path, format, timeMs);
          match env.write(file, data)
          case Failed(d) => Err(PlatformError(d))
          case Succeeded => Ok(file)
  }

  /** The outcome of `generateThumbnailData` as a value: the encoded bytes, or what was thrown. */
  function DataOutcome(env: IosEnv, video: string, headers: map<string, string>,
                       format: Int64, maxHeight: Int64, maxWidth: Int64, timeMs: Int64,
                       quality: Int64): (r: Result<seq<byte>, Thrown>)
    ensures var image := ExpectedImage(env, video, headers, maxHeight, maxWidth, timeMs);
            var data := if image.Ok? then env.encode(image.value, DataEncoding(format, quality)) else None;
            && (r.Ok? <==> data.Some?)
            && (r.Ok? ==> r.value == data.value)
            && (image.Ok? && data.None? ==> r == Err(Raised(ENCODE_FAILED)))
  {
    match ExpectedImage(env, video, headers, maxHeight, maxWidth, timeMs)
    case Err(e) => Err(e)
    case Ok(image) =>
      match env.encode(image, DataEncoding(format, quality))
      case None => Err(Raised(ENCODE_FAILED))
      case Some(data) => Ok(data)
  }

  /**
   * `generateThumbnailFile`: copy the image, encode it, create the directory, write the file.
   * Encoding comes first, so a nil encoding throws `-2 Failed to encode image` before any
   * directory exists or any byte is written; no failure leaves a file behind.
   */
  method GenerateThumbnailFile(env: IosEnv, disk: Disk, video: string, headers: map<string, string>,
                               path: string, format: Int64, maxHeight: Int64, maxWidth: Int64,
                               timeMs: Int64, quality: Int64)
    returns (r: Result<string, Thrown>, ghost generator: ImageGenerator?)
    modifies disk
    ensures r == FileOutcome(env, video, headers, path, format, maxHeight, maxWidth, timeMs, quality)
    ensures r.Err? ==> disk.files == old(disk.files)
    ensures var image := ExpectedImage(env, video, headers, maxHeight, maxWidth, timeMs);
            var encoding := FileFormat(format, quality).1;
            var dir := OutputDir(path, env.cachesDir);
            var file := OutputFile(env, video, path, format, timeMs);
            var data := if image.Ok? then env.encode(image.value, encoding) else None;
            && (image.Err? ==> r == Err(image.error) && disk.dirs == old(disk.dirs))
            && (image.Ok? && data.None? ==> r == Err(Raised(ENCODE_FAILED)) && disk.dirs == old(disk.dirs))
            && (data.Some? && env.createDirectory(dir).Failed? ==>
                  r == Err(PlatformError(env.createDirectory(dir).description)) && disk.dirs == old(disk.dirs))
            && (data.Some? && env.createDirectory(dir).Succeeded? ==> disk.dirs == old(disk.dirs) + {dir})
            && (data.Some? && env.createDirectory(dir).Succeeded? && env.write(file, data.value).Failed? ==>
                  r == Err(PlatformError(env.write(file, data.value).description)))
            && (data.Some? && env.createDirectory(dir).Succeeded? && env.write(file, data.value).Succeeded? ==>
                  r == Ok(file) && disk.files == old(disk.files)[file := data.value])
  {
    var image;
    image, generator := CreateThumbnail(env, video, headers, maxHeight, maxWidth, timeMs);
    if image.Err? {
      return Err(image.error), generator;
    }
    var (fileExtension, encoding) := FileFormat(format, quality);
    var imageData := env.encode(image.value, encoding);
    if imageData.None? {
      return Err(Raised(ENCODE_FAILED)), generator;
    }
    var data := imageData.value;

    var outputDir := OutputDir(path, env.cachesDir);
    var created := env.createDirectory(outputDir);
    if created.Failed? {
      return Err(PlatformError(created.description)), generator;
    }
    disk.MakeDirectory(outputDir);

    var fileName := FileName(env.md5(video), timeMs, fileExtension);
    var outputFile := Join(outputDir, fileName);
    var written := env.write(outputFile, data);
    if written.Failed? {
      return Err(PlatformError(written.description)), generator;
    }
    disk.WriteFile(outputFile, data);
    r := Ok(outputFile);
  }

  /** `generateThumbnailData`: copy the image and encode it; WebP and unknown codes give PNG bytes. */
  method GenerateThumbnailData(env: IosEnv, video: string, headers: map<string, string>,
                               format: Int64, maxHeight: Int64, maxWidth: Int64,
                               timeMs: Int64, quality: Int64)
    returns (r: Result<seq<byte>, Thrown>, ghost generator: ImageGenerator?)
    ensures r == DataOutcome(env, video, headers, format, maxHeight, maxWidth, timeMs, quality)
    ensures var image := ExpectedImage(env, video, headers, maxHeight, maxWidth, timeMs);
            && (image.Err? ==> r == Err(image.error))
            && (image.Ok? ==>
                  match env.encode(image.value, DataEncoding(format, quality))
                  case None => r == Err(Raised(ENCODE_FAILED))
                  case Some(data) => r == Ok(data))
  {
    var image;
    image, generator := CreateThumbnail(env, video, headers, maxHeight, maxWidth, timeMs);
    if image.Err? {
      return Err(image.error), generator;
    }
    var encoding := DataEncoding(format, quality);
    var imageData := env.encode(image.value, encoding);
    if imageData.None? {
      return Err(Raised(ENCODE_FAILED)), generator;
    }
    r := Ok(imageData.value);
  }

  /** The error reply for a thrown error: its localized description. */
  function ThumbnailError(e: Thrown): (reply: Reply)
    ensures reply.Error? && reply.code == "THUMBNAIL_ERROR" && reply.message == e.LocalizedDescription()
  {
    Error("THUMBNAIL_ERROR", e.LocalizedDescription())
  }

  /**
   * `handle` with the work its queue runs. A refused or unknown call makes no generator and
   * touches no file; a queued one replies with the outcome of `generateThumbnailFile` or
   * `generateThumbnailData`: the file path, the bytes, or a THUMBNAIL_ERROR carrying the
   * error's description. A failed request leaves the files as they were.
   */
  method HandleCall(env: IosEnv, disk: Disk, name: string, args: Arguments)
    returns (reply: Reply, ghost generator: ImageGenerator?)
    modifies disk
    ensures var call := Handle(name, args);
            && (call.Answer? ==> reply == call.reply && generator == null)
            && (!call.Generate? || call.mode.DataMode? ==>
                  disk.dirs == old(disk.dirs) && disk.files == old(disk.files))
            && (call.Generate? && reply.Error? ==> disk.files == old(disk.files))
            && (call.Generate? && call.mode.FileMode? ==>
                  var q := call.request;
                  var o := FileOutcome(env, q.video, q.headers, call.mode.path, q.format,
                                       q.maxHeight, q.maxWidth, q.timeMs, q.quality);
                  reply == if o.Ok? then Success(FilePath(o.value)) else ThumbnailError(o.error))
            && (call.Generate? && call.mode.DataMode? ==>
                  var q := call.request;
                  var o := DataOutcome(env, q.video, q.headers, q.format, q.maxHeight, q.maxWidth, q.timeMs, q.quality);
                  reply == if o.Ok? then Success(Bytes(o.value)) else ThumbnailError(o.error))
  {
    generator := null;
    var call := Handle(name, args);
    match call
    case Answer(rep) =>
      reply := rep;
    case Generate(mode, q) =>
      if mode.FileMode? {
        var r;
        r, generator := GenerateThumbnailFile(env, disk, q.video, q.headers, mode.path, q.format,
                                              q.maxHeight, q.maxWidth, q.timeMs, q.quality);
        reply := if r.Ok? then Success(FilePath(r.value)) else ThumbnailError(r.error);
      } else {
        var r;
        r, generator := GenerateThumbnailData(env, q.video, q.headers, q.format,
                                              q.maxHeight, q.maxWidth, q.timeMs, q.quality);
        reply := if r.Ok? then Success(Bytes(r.value)) else ThumbnailError(r.error);
      }
  }
}

/**
 * The Android plugin's request pipeline: `createThumbnail` (open a `MediaMetadataRetriever`,
 * grab the frame at the requested time, scale it, release the retriever in `finally`),
 * `scaleBitmap`, `generateThumbnailFile`, `generateThumbnailData`, and the part of
 * `onMethodCall` that runs a dispatched request and turns its outcome into a reply.
 *
 * The platform is an `AndroidEnv`: its function-typed fields stand for the decoder, the
 * encoder, the MD5 digest and the file-system calls, so every behaviour of those is covered.
 * The frame the retriever decodes and the thumbnail made from it are each recycled exactly
 * once, and the retriever is released exactly once, on every exit path.
 */
module AndroidPlugin {
  import opened Common
  import opened Text
  import opened Naming
  import opened Storage
  import opened AndroidLogic

  /** How a platform call ended: normally, or by throwing an exception with an optional message. */
  datatype Status = Done | Thrown(message: Option<string>)

  /** What `Bitmap.compress` reports and what it wrote to its stream. */
  datatype Compressed = Compressed(ok: bool, bytes: seq<byte>)

  /** An exception that ends a request; its message becomes the error reply's message. */
  datatype Failure = Failure(message: Option<string>)

  datatype AndroidEnv = AndroidEnv(
    sdk: int,                                         // Build.VERSION.SDK_INT
    cacheDir: string,                                 // context.cacheDir
    md5: string -> SignedDigest,                      // MessageDigest "MD5" over the UTF-8 bytes
    setDataSource: Source -> Status,                  // MediaMetadataRetriever.setDataSource
    frameAt: (Source, Int64) -> Option<Dims>,         // getFrameAtTime(us, OPTION_CLOSEST_SYNC)
    mkdirs: string -> bool,                           // File.mkdirs
    openFile: string -> Status,                       // FileOutputStream(file)
    compress: (Dims, CompressFormat, Int32) -> Compressed)  // Bitmap.compress(format, quality, stream)

  const NO_FRAME := Failure(Some("Failed to extract frame from video"))
  const COMPRESS_FAILED := Failure(Some("Failed to compress bitmap"))

  function DirectoryFailure(dir: string): Failure {
    Failure(Some("Failed to create output directory: " + dir))
  }

  /** The reply for an exception: its message, or "Unknown error" when it has none. */
  function ThumbnailError(f: Failure): (reply: Reply)
    ensures reply.Error? && reply.code == "THUMBNAIL_ERROR"
    ensures f.message.Some? ==> reply.message == f.message.value
    ensures f.message.None? ==> reply.message == "Unknown error"
  {
    Error("THUMBNAIL_ERROR", f.message.GetOr("Unknown error"))
  }

  /** A decoded frame held in memory; `recycleCount` counts the calls to `recycle()`. */
  class Bitmap {
    const size: Dims
    var recycleCount: nat

    constructor (size: Dims)
      ensures this.size == size && recycleCount == 0
    {
      this.size := size;
      recycleCount := 0;
    }

    method Recycle()
      modifies this
      ensures recycleCount == old(recycleCount) + 1
    {
      recycleCount := recycleCount + 1;
    }
  }

  datatype SeekOption = OPTION_CLOSEST_SYNC

  /** `close()` (Android Q and later) or the deprecated `release()`. */
  datatype ReleaseCall = ClosedCall | ReleasedCall

  /**
   * A `MediaMetadataRetriever`: the source it was given, the seek it made, the bitmaps it
   * decoded, how it was released.
   */
  class Retriever {
    var source: Option<Source>
    var seek: Option<(Int64, SeekOption)>
    var grabbed: seq<Bitmap>
    var releases: seq<ReleaseCall>

    constructor ()
      ensures source == None && seek == None && grabbed == [] && releases == []
    {
      source, seek, grabbed, releases := None, None, [], [];
    }

    method SetDataSource(env: AndroidEnv, src: Source) returns (status: Status)
      modifies this
      ensures source == Some(src) && status == env.setDataSource(src)
      ensures seek == old(seek) && grabbed == old(grabbed) && releases == old(releases)
    {
      source := Some(src);
      status := env.setDataSource(src);
    }

    /** A fresh bitmap of the decoded frame, or null when no frame could be decoded. */
    method GetFrameAtTime(env: AndroidEnv, timeUs: Int64, option: SeekOption) returns (bitmap: Bitmap?)
      requires source.Some?
      modifies this
      ensures seek == Some((timeUs, option))
      ensures source == old(source) && releases == old(releases)
      ensures bitmap == null <==> env.frameAt(source.value, timeUs).None?
      ensures bitmap != null ==>
                fresh(bitmap) && bitmap.recycleCount == 0 && bitmap.size == env.frameAt(source.value, timeUs).value
      ensures grabbed == old(grabbed) + if bitmap == null then [] else [bitmap]
    {
      seek := Some((timeUs, option));
      var frame := env.frameAt(source.value, timeUs);
      if frame.Some? {
        bitmap := new Bitmap(frame.value);
        grabbed := grabbed + [bitmap];
      } else {
        bitmap := null;
      }
    }

    method Close()
      modifies this
      ensures releases == old(releases) + [ClosedCall]
      ensures source == old(source) && seek == old(seek) && grabbed == old(grabbed)
    {
      releases := releases + [ClosedCall];
    }

    method Release()
      modifies this
      ensures releases == old(releases) + [ReleasedCall]
      ensures source == old(source) && seek == old(seek) && grabbed == old(grabbed)
    {
      releases := releases + [ReleasedCall];
    }
  }

  /**
   * `Bitmap.createScaledBitmap`: the input itself when the size is unchanged (the decoded frame
   * is immutable), otherwise a new bitmap.
   */
  method CreateScaledBitmap(src: Bitmap, size: Dims) returns (scaled: Bitmap)
    ensures scaled.size == size
    ensures scaled == src <==> size == src.size
    ensures scaled != src ==> fresh(scaled) && scaled.recycleCount == 0
  {
    if size == src.size {
      scaled := src;
    } else {
      scaled := new Bitmap(size);
    }
  }

  /** `scaleBitmap`: the original is recycled exactly when a distinct scaled bitmap replaces it. */
  method ScaleBitmap(bitmap: Bitmap, maxWidth: int, maxHeight: int) returns (scaled: Bitmap)
    modifies bitmap
    ensures maxWidth <= 0 && maxHeight <= 0 ==> scaled == bitmap
    ensures maxWidth > 0 || maxHeight > 0 ==> scaled.size == TargetSize(bitmap.size, maxWidth, maxHeight)
    ensures scaled != bitmap ==>
              fresh(scaled) && scaled.recycleCount == 0 && bitmap.recycleCount == old(bitmap.recycleCount) + 1
    ensures scaled == bitmap ==> bitmap.recycleCount == old(bitmap.recycleCount)
  {
    if maxWidth <= 0 && maxHeight <= 0 {
      return bitmap;
    }
    var target := TargetSize(bitmap.size, maxWidth, maxHeight);
    scaled := CreateScaledBitmap(bitmap, target);
    if scaled != bitmap {
      bitmap.Recycle();
    }
  }

  /** The size of the thumbnail bitmap for a decoded frame: scaled when a bound is positive. */
  function ThumbnailSize(frame: Dims, maxWidth: int, maxHeight: int): (size: Dims)
    ensures maxWidth <= 0 && maxHeight <= 0 ==> size == frame
    ensures maxWidth > 0 && maxHeight > 0 ==> size.width <= maxWidth && size.height <= maxHeight
  {
    if maxWidth > 0 && maxHeight > 0 then
      TargetSizeFitsBounds(frame, maxWidth, maxHeight);
      TargetSize(frame, maxWidth, maxHeight)
    else if maxWidth > 0 || maxHeight > 0 then TargetSize(frame, maxWidth, maxHeight)
    else frame
  }

  /**
   * What `createThumbnail` yields, as a value: the exception of `setDataSource`, no frame
   * (null), or the size of the thumbnail bitmap.
   */
  function ExpectedFrame(env: AndroidEnv, video: string, headers: map<string, string>,
                         maxHeight: int, maxWidth: int, timeMs: Int32): (r: Result<Option<Dims>, Failure>)
    ensures var src := ClassifySource(video, headers);
            && (r.Err? <==> env.setDataSource(src).Thrown?)
            && (r.Err? ==> r.error.message == env.setDataSource(src).message)
            && (r == Ok(None) <==> env.setDataSource(src).Done? && env.frameAt(src, SeekTimeUs(timeMs)).None?)
            && (r.Ok? && r.value.Some? ==>
                  r.value.value == ThumbnailSize(env.frameAt(src, SeekTimeUs(timeMs)).value, maxWidth, maxHeight))
  {
    var src := ClassifySource(video, headers);
    match env.setDataSource(src)
    case Thrown(message) => Err(Failure(message))
    case Done =>
      match env.frameAt(src, SeekTimeUs(timeMs))
      case None => Ok(None)
      case Some(frame) => Ok(Some(ThumbnailSize(frame, maxWidth, maxHeight)))
  }

  /**
   * `createThumbnail`. The retriever is released exactly once (in `finally`), whichever way
   * the body ends. `decoded` is the bitmap the retriever returned, if any: a frame was decoded
   * exactly when `setDataSource` succeeded and `getFrameAtTime` found one. The decoded bitmap is
   * returned itself or, when `scaleBitmap` replaced it, recycled once in favour of a fresh one.
   */
  method CreateThumbnail(env: AndroidEnv, video: string, headers: map<string, string>,
                         maxHeight: Int32, maxWidth: Int32, timeMs: Int32)
    returns (r: Result<Bitmap?, Failure>, ghost retriever: Retriever, ghost decoded: Bitmap?)
    ensures fresh(retriever)
    ensures retriever.releases == [if env.sdk >= VERSION_CODES_Q then ClosedCall else ReleasedCall]
    ensures retriever.source == Some(ClassifySource(video, headers))
    ensures retriever.seek == if r.Ok? then Some((SeekTimeUs(timeMs), OPTION_CLOSEST_SYNC)) else None
    ensures retriever.grabbed == if decoded == null then [] else [decoded]
    ensures var expected := ExpectedFrame(env, video, headers, maxHeight, maxWidth, timeMs);
            && (expected.Err? ==> r == Err(expected.error))
            && (expected == Ok(None) ==> r == Ok(null))
            && (decoded != null <==> expected.Ok? && expected.value.Some?)
            && (decoded != null ==> r.Ok? && r.value != null && r.value.size == expected.value.value)
    ensures decoded != null ==>
              && fresh(decoded) && fresh(r.value) && r.value.recycleCount == 0
              && decoded.size == env.frameAt(ClassifySource(video, headers), SeekTimeUs(timeMs)).value
              && decoded.recycleCount == if decoded == r.value then 0 else 1
  {
    var mmr := new Retriever();
    decoded := null;
    var src := ClassifySource(video, headers);
    var status := mmr.SetDataSource(env, src);
    if status.Thrown? {
      r := Err(Failure(status.message));
    } else {
      var timeUs := SeekTimeUs(timeMs);
      var bitmap := mmr.GetFrameAtTime(env, timeUs, OPTION_CLOSEST_SYNC);
      decoded := bitmap;
      if bitmap != null && (maxWidth > 0 || maxHeight > 0) {
        bitmap := ScaleBitmap(bitmap, maxWidth, maxHeight);
      }
      r := Ok(bitmap);
    }
    // finally
    if env.sdk >= VERSION_CODES_Q {
      mmr.Close();
    } else {
      mmr.Release();
    }
    retriever := mmr;
  }

  /** The file a request is written to: `<dir>/<md5 hex>_<timeMs>.<ext>`. */
  function OutputFile(env: AndroidEnv, video: string, path: string, format: int, timeMs: Int32): (file: string)
    ensures var dir := OutputDir(path, env.cacheDir);
            && |file| > |dir| + 1 && file[..|dir|] == dir && file[|dir|] == '/'
            && '/' !in file[|dir| + 1..]
            && ParseFileName(file[|dir| + 1..]) == Some(NameParts(UnsignedDigest(env.md5(video)), timeMs, Extension(format)))
  {
    var digest, ext := UnsignedDigest(env.md5(video)), Extension(format);
    assert '/' !in ext;
    FileNameRoundTrip(digest, timeMs, ext);
    Join(OutputDir(path, env.cacheDir), FileName(digest, timeMs, ext))
  }

  /**
   * The file name as the Android code builds it, from Java's signed digest bytes; it is the
   * shared `<md5 hex>_<timeMs>.<ext>` name of the digest's unsigned bytes.
   */
  function AndroidFileName(digest: SignedDigest, timeMs: Int32, ext: string): (name: string)
    ensures name == FileName(UnsignedDigest(digest), timeMs, ext)
  {
    SignedMd5HexAgrees(digest);
    SignedMd5Hex(digest) + "_" + IntDecimal(timeMs) + "." + ext
  }

  /**
   * The `try { FileOutputStream(file).use { compress } } finally { recycle() }` block of
   * `generateThumbnailFile`: the bitmap is recycled once whether the file cannot be opened,
   * the encoder fails, or all goes well.
   */
  method WriteBitmap(env: AndroidEnv, disk: Disk, bitmap: Bitmap, file: string, format: Int32, quality: Int32)
    returns (r: Result<string, Failure>)
    modifies disk, bitmap
    ensures bitmap.recycleCount == old(bitmap.recycleCount) + 1
    ensures disk.dirs == old(disk.dirs)
    ensures env.openFile(file).Thrown? ==>
              r == Err(Failure(env.openFile(file).message)) && disk.files == old(disk.files)
    ensures env.openFile(file).Done? ==>
              var out := env.compress(bitmap.size, CompressFormatFor(format, env.sdk), quality);
              && disk.files == old(disk.files)[file := out.bytes]
              && r == if out.ok then Ok(file) else Err(COMPRESS_FAILED)
  {
    var openStatus := env.openFile(file);
    if openStatus.Thrown? {
      r := Err(Failure(openStatus.message));
    } else {
      disk.CreateFile(file);
      var compressFormat := CompressFormatFor(format, env.sdk);
      var out := env.compress(bitmap.size, compressFormat, quality);
      disk.Append(file, out.bytes);
      assert [] + out.bytes == out.bytes;
      if !out.ok {
        r := Err(COMPRESS_FAILED);
      } else {
        r := Ok(file);
      }
    }
    // finally
    bitmap.Recycle();
  }

  /**
   * The outcome of `generateThumbnailFile` as a value, given the directories that exist
   * beforehand: the output path, or the exception that ended the request.
   */
  function FileOutcome(env: AndroidEnv, dirs: set<string>, video: string, headers: map<string, string>,
                       path: string, format: Int32, maxHeight: Int32, maxWidth: Int32,
                       timeMs: Int32, quality: Int32): (r: Result<string, Failure>)
    ensures var expected := ExpectedFrame(env, video, headers, maxHeight, maxWidth, timeMs);
            var dir := OutputDir(path, env.cacheDir);
            var file := OutputFile(env, video, path, format, timeMs);
            r.Ok? <==>
              && expected.Ok? && expected.value.Some?
              && (dir in dirs || env.mkdirs(dir))
              && env.openFile(file).Done?
              && env.compress(expected.value.value, CompressFormatFor(format, env.sdk), quality).ok
    ensures r.Ok? ==> r.value == OutputFile(env, video, path, format, timeMs)
    ensures ExpectedFrame(env, video, headers, maxHeight, maxWidth, timeMs) == Ok(None) ==> r == Err(NO_FRAME)
  {
    var expected := ExpectedFrame(env, video, headers, maxHeight, maxWidth, timeMs);
    if expected.Err? then Err(expected.error)
    else if expected.value.None? then Err(NO_FRAME)
    else
      var dir := OutputDir(path, env.cacheDir);
      if dir !in dirs && !env.mkdirs(dir) then Err(DirectoryFailure(dir))
      else
        var file := OutputFile(env, video, path, format, timeMs);
        match env.openFile(file)
        case Thrown(message) => Err(Failure(message))
        case Done =>
          if env.compress(expected.value.value, CompressFormatFor(format, env.sdk), quality).ok then Ok(file)
          else Err(COMPRESS_FAILED)
  }

  /** The outcome of `generateThumbnailData` as a value: the encoded bytes, or the exception. */
  function DataOutcome(env: AndroidEnv, video: string, headers: map<string, string>,
                       format: Int32, maxHeight: Int32, maxWidth: Int32,
                       timeMs: Int32, quality: Int32): (r: Result<seq<byte>, Failure>)
    ensures var expected := ExpectedFrame(env, video, headers, maxHeight, maxWidth, timeMs);
            && (r.Ok? <==> expected.Ok? && expected.value.Some?
                           && env.compress(expected.value.value, CompressFormatFor(format, env.sdk), quality).ok)
            && (r.Ok? ==> r.value == env.compress(expected.value.value, CompressFormatFor(format, env.sdk), quality).bytes)
            && (expected == Ok(None) ==> r == Err(NO_FRAME))
  {
    var expected := ExpectedFrame(env, video, headers, maxHeight, maxWidth, timeMs);
    if expected.Err? then Err(expected.error)
    else if expected.value.None? then Err(NO_FRAME)
    else
      var out := env.compress(expected.value.value, CompressFormatFor(format, env.sdk), quality);
      if out.ok then Ok(out.bytes) else Err(COMPRESS_FAILED)
  }

  /**
   * `generateThumbnailFile`. Exits: no source, no frame, no directory, the file cannot be
   * opened, the encoder fails, success. The file is opened (created or truncated) before the
   * encoder runs, so when the encoder fails the file stays behind with whatever it streamed.
   * The decoded frame and the thumbnail bitmap (the same one when no scaling happened) are
   * each recycled exactly once.
   */
  method GenerateThumbnailFile(env: AndroidEnv, disk: Disk, video: string, headers: map<string, string>,
                               path: string, format: Int32, maxHeight: Int32, maxWidth: Int32,
                               timeMs: Int32, quality: Int32)
    returns (r: Result<string, Failure>, ghost retriever: Retriever, ghost decoded: Bitmap?, ghost thumbnail: Bitmap?)
    modifies disk
    ensures r == FileOutcome(env, old(disk.dirs), video, headers, path, format, maxHeight, maxWidth, timeMs, quality)
    ensures fresh(retriever) && |retriever.releases| == 1
    ensures retriever.grabbed == if decoded == null then [] else [decoded]
    ensures decoded == null <==> thumbnail == null
    ensures decoded != null ==>
              && fresh(decoded) && fresh(thumbnail)
              && decoded.recycleCount == 1 && thumbnail.recycleCount == 1
    ensures var expected := ExpectedFrame(env, video, headers, maxHeight, maxWidth, timeMs);
            var dir := OutputDir(path, env.cacheDir);
            var file := OutputFile(env, video, path, format, timeMs);
            var dirReady := dir in old(disk.dirs) || env.mkdirs(dir);
            && (decoded != null <==> expected.Ok? && expected.value.Some?)
            && (decoded != null ==> thumbnail.size == expected.value.value)
            && (expected.Err? ==> r == Err(expected.error))
            && (expected == Ok(None) ==> r == Err(NO_FRAME))
            && (decoded != null && !dirReady ==> r == Err(DirectoryFailure(dir)))
            && (decoded == null || !dirReady ==> disk.dirs == old(disk.dirs) && disk.files == old(disk.files))
            && (decoded != null && dirReady ==> disk.dirs == old(disk.dirs) + {dir})
            && (decoded != null && dirReady && env.openFile(file).Thrown? ==>
                  r == Err(Failure(env.openFile(file).message)) && disk.files == old(disk.files))
            && (decoded != null && dirReady && env.openFile(file).Done? ==>
                  var out := env.compress(expected.value.value, CompressFormatFor(format, env.sdk), quality);
                  && disk.files == old(disk.files)[file := out.bytes]
                  && r == if out.ok then Ok(file) else Err(COMPRESS_FAILED))
  {
    var grab;
    grab, retriever, decoded := CreateThumbnail(env, video, headers, maxHeight, maxWidth, timeMs);
    thumbnail := if grab.Ok? then grab.value else null;
    if grab.Err? {
      return Err(grab.error), retriever, decoded, thumbnail;
    }
    var bitmap := grab.value;
    if bitmap == null {
      return Err(NO_FRAME), retriever, decoded, thumbnail;
    }

    var extension := Extension(format);
    var outputDir := OutputDir(path, env.cacheDir);
    var dirExists := outputDir in disk.dirs;
    if !dirExists {
      var made := env.mkdirs(outputDir);
      if made {
        disk.MakeDirectory(outputDir);
      } else {
        bitmap.Recycle();
        return Err(DirectoryFailure(outputDir)), retriever, decoded, thumbnail;
      }
    }

    var outputFile := Join(outputDir, AndroidFileName(env.md5(video), timeMs, extension));
    r := WriteBitmap(env, disk, bitmap, outputFile, format, quality);
  }

  /**
   * `generateThumbnailData`: the encoded bytes, or the exception. The thumbnail bitmap is
   * recycled in `finally`, so it and the decoded frame are each recycled exactly once.
   */
  method GenerateThumbnailData(env: AndroidEnv, video: string, headers: map<string, string>,
                               format: Int32, maxHeight: Int32, maxWidth: Int32,
                               timeMs: Int32, quality: Int32)
    returns (r: Result<seq<byte>, Failure>, ghost retriever: Retriever, ghost decoded: Bitmap?, ghost thumbnail: Bitmap?)
    ensures r == DataOutcome(env, video, headers, format, maxHeight, maxWidth, timeMs, quality)
    ensures fresh(retriever) && |retriever.releases| == 1
    ensures retriever.grabbed == if decoded == null then [] else [decoded]
    ensures decoded == null <==> thumbnail == null
    ensures decoded != null ==>
              && fresh(decoded) && fresh(thumbnail)
              && decoded.recycleCount == 1 && thumbnail.recycleCount == 1
    ensures var expected := ExpectedFrame(env, video, headers, maxHeight, maxWidth, timeMs);
            && (decoded != null <==> expected.Ok? && expected.value.Some?)
            && (decoded != null ==> thumbnail.size == expected.value.value)
            && (expected.Err? ==> r == Err(expected.error))
  {
    var grab;
    grab, retriever, decoded := CreateThumbnail(env, video, headers, maxHeight, maxWidth, timeMs);
    thumbnail := if grab.Ok? then grab.value else null;
    if grab.Err? {
      return Err(grab.error), retriever, decoded, thumbnail;
    }
    var bitmap := grab.value;
    if bitmap == null {
      return Err(NO_FRAME), retriever, decoded, thumbnail;
    }
    // try { ... } finally { bitmap.recycle() }
    var compressFormat := CompressFormatFor(format, env.sdk);
    var out := env.compress(bitmap.size, compressFormat, quality);
    if !out.ok {
      r := Err(COMPRESS_FAILED);
    } else {
      r := Ok(out.bytes);
    }
    bitmap.Recycle();
  }

  /**
   * `onMethodCall` with the work the executor runs. `None` when a Kotlin cast of an argument
   * threw out of `onMethodCall` (the host runtime reports that). A rejected or unknown call
   * creates no retriever and touches no file. A dispatched one replies with the outcome of
   * `generateThumbnailFile` or `generateThumbnailData`: a success carrying the path or the
   * bytes, or THUMBNAIL_ERROR with the exception's message; it releases its retriever once and
   * recycles the decoded frame and the thumbnail once each.
   */
  method OnMethodCall(env: AndroidEnv, disk: Disk, name: string, args: Arguments)
    returns (reply: Option<Reply>, ghost retriever: Retriever?, ghost decoded: Bitmap?, ghost thumbnail: Bitmap?)
    modifies disk
    ensures var call := Route(name, args);
            && (call.Respond? ==> reply == Some(call.reply))
            && (call.ArgumentTypeError? ==> reply == None)
            && (!call.Dispatch? || call.mode.DataMode? ==>
                  disk.dirs == old(disk.dirs) && disk.files == old(disk.files))
            && (call.Dispatch? && call.mode.FileMode? ==>
                  var q := call.request;
                  var o := FileOutcome(env, old(disk.dirs), q.video, q.headers, call.mode.path, q.format,
                                       q.maxHeight, q.maxWidth, q.timeMs, q.quality);
                  reply == Some(if o.Ok? then Success(FilePath(o.value)) else ThumbnailError(o.error)))
            && (call.Dispatch? && call.mode.DataMode? ==>
                  var q := call.request;
                  var o := DataOutcome(env, q.video, q.headers, q.format, q.maxHeight, q.maxWidth, q.timeMs, q.quality);
                  reply == Some(if o.Ok? then Success(Bytes(o.value)) else ThumbnailError(o.error)))
            && (call.Dispatch? ==>
                  var q := call.request;
                  var expected := ExpectedFrame(env, q.video, q.headers, q.maxHeight, q.maxWidth, q.timeMs);
                  decoded != null <==> expected.Ok? && expected.value.Some?)
    ensures retriever == null <==> !Route(name, args).Dispatch?
    ensures retriever != null ==>
              && fresh(retriever) && |retriever.releases| == 1
              && retriever.grabbed == if decoded == null then [] else [decoded]
    ensures retriever == null ==> decoded == null
    ensures decoded == null <==> thumbnail == null
    ensures decoded != null ==>
              && fresh(decoded) && fresh(thumbnail)
              && decoded.recycleCount == 1 && thumbnail.recycleCount == 1
  {
    retriever, decoded, thumbnail := null, null, null;
    var call := Route(name, args);
    match call
    case Respond(rep) =>
      reply := Some(rep);
    case ArgumentTypeError(_) =>
      reply := None;
    case Dispatch(mode, q) =>
      if mode.FileMode? {
        var r;
        r, retriever, decoded, thumbnail := GenerateThumbnailFile(env, disk, q.video, q.headers, mode.path, q.format,
                                                                  q.maxHeight, q.maxWidth, q.timeMs, q.quality);
        reply := Some(if r.Ok? then Success(FilePath(r.value)) else ThumbnailError(r.error));
      } else {
        var r;
        r, retriever, decoded, thumbnail := GenerateThumbnailData(env, q.video, q.headers, q.format,
                                                                  q.maxHeight, q.maxWidth, q.timeMs, q.quality);
        reply := Some(if r.Ok? then Success(Bytes(r.value)) else ThumbnailError(r.error));
      }
  }
}

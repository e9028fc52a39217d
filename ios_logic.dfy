/**
 * The decisions the iOS plugin (`VideoThumbnailPlusPlugin.swift`) takes around its platform
 * calls: how `handle` and the `handleThumbnail*` functions read the arguments (defaults only,
 * nothing clamped or rejected), how a video string becomes a URL and an `AVAsset`, the
 * `maximumSize` box of the image generator, the requested time, and the format switch that
 * picks a file extension and an encoder.
 */
module IosLogic {
  import opened Common

  // ---------------------------------------------------------------------------------------
  // Arguments
  // ---------------------------------------------------------------------------------------

  /** `args[key] as? String ?? default`: a value of any other type, or none, gives the default. */
  function AsString(entries: map<string, ArgValue>, key: string, default: string): (s: string)
    ensures key in entries && entries[key].Str? ==> s == entries[key].s
    ensures key !in entries || !entries[key].Str? ==> s == default
  {
    if key in entries && entries[key].Str? then entries[key].s else default
  }

  /** `args[key] as? Int ?? default`. */
  function AsInt(entries: map<string, ArgValue>, key: string, default: Int64): (i: Int64)
    ensures key in entries && entries[key].Int? ==> i == entries[key].i
    ensures key !in entries || !entries[key].Int? ==> i == default
  {
    if key in entries && entries[key].Int? then entries[key].i else default
  }

  /** `args[key] as? [String: String] ?? [:]`. */
  function AsHeaders(entries: map<string, ArgValue>, key: string): (h: map<string, string>)
    ensures key in entries && entries[key].StrMap? ==> h == entries[key].m
    ensures key !in entries || !entries[key].StrMap? ==> h == map[]
  {
    if key in entries && entries[key].StrMap? then entries[key].m else map[]
  }

  /**
   * The request `handleThumbnailFile` / `handleThumbnailData` read: video "", no headers,
   * path "" (file mode only), PNG, no bounds, time 0 and quality 100 when absent or mistyped.
   */
  function ReadRequest(isFile: bool, entries: map<string, ArgValue>): (mr: (Mode, Request))
    ensures mr.0.FileMode? <==> isFile
    ensures isFile ==> mr.0.path == AsString(entries, "path", "")
    ensures mr.1.video == AsString(entries, "video", "")
    ensures mr.1.headers == AsHeaders(entries, "headers")
    ensures mr.1.format == AsInt(entries, "format", FORMAT_PNG)
    ensures mr.1.maxHeight == AsInt(entries, "maxh", 0) && mr.1.maxWidth == AsInt(entries, "maxw", 0)
    ensures mr.1.timeMs == AsInt(entries, "timeMs", 0) && mr.1.quality == AsInt(entries, "quality", 100)
  {
    var mode := if isFile then FileMode(AsString(entries, "path", "")) else DataMode;
    (mode, Request(
      AsString(entries, "video", ""),
      AsHeaders(entries, "headers"),
      AsInt(entries, "format", FORMAT_PNG),
      AsInt(entries, "maxh", 0),
      AsInt(entries, "maxw", 0),
      AsInt(entries, "timeMs", 0),
      AsInt(entries, "quality", 100)))
  }

  /** What `handle` does with a call before any work is queued. */
  datatype Call = Generate(mode: Mode, request: Request) | Answer(reply: Reply)

  const INVALID_ARGS := Error("INVALID_ARGS", "Invalid arguments")

  /**
   * `handle`: arguments that are not a `[String: Any]` dictionary (none at all included) are
   * refused before the method name is looked at; then "file" and "data" go to their handlers
   * and every other name is not implemented.
   */
  function Handle(name: string, args: Arguments): (c: Call)
    ensures c == Answer(INVALID_ARGS) <==> !args.Dictionary?
    ensures c == Answer(NotImplemented) <==> args.Dictionary? && name != "file" && name != "data"
    ensures c.Generate? <==> args.Dictionary? && (name == "file" || name == "data")
    ensures c.Generate? ==> c == Generate(ReadRequest(name == "file", args.entries).0,
                                          ReadRequest(name == "file", args.entries).1)
  {
    if !args.Dictionary? then Answer(INVALID_ARGS)
    else if name == "file" || name == "data" then
      var (mode, request) := ReadRequest(name == "file", args.entries);
      Generate(mode, request)
    else Answer(NotImplemented)
  }

  /**
   * No clamping and no rejection: the arguments of ANY request, an empty video, a negative
   * time or a quality above 100 included, are handed on exactly as sent.
   */
  lemma HandleKeepsEveryRequest(mode: Mode, r: Request)
    ensures Handle(if mode.FileMode? then "file" else "data", ArgumentsOf(mode, r)) == Generate(mode, r)
  {
  }

  /** An empty dictionary is not refused: it asks for the first frame of "" as a PNG at quality 100. */
  lemma HandleDefaults(isFile: bool)
    ensures Handle(if isFile then "file" else "data", Dictionary(map[]))
         == Generate(if isFile then FileMode("") else DataMode, Request("", map[], FORMAT_PNG, 0, 0, 0, 100))
  {
  }

  /** A value of the wrong type, or an explicit null, is read exactly as if the key were absent. */
  lemma MistypedIsMissing(name: string, entries: map<string, ArgValue>, key: string, v: ArgValue)
    requires key in {"video", "headers", "path", "format", "maxh", "maxw", "timeMs", "quality"}
    requires v.Null? || v.Other? || (v.Str? && key != "video" && key != "path")
                     || (v.Int? && key in {"video", "headers", "path"})
                     || (v.StrMap? && key != "headers")
    ensures Handle(name, Dictionary(entries[key := v])) == Handle(name, Dictionary(entries - {key}))
  {
    var e1, e2 := entries[key := v], entries - {key};
    assert AsString(e1, "video", "") == AsString(e2, "video", "");
    assert AsString(e1, "path", "") == AsString(e2, "path", "");
    assert AsHeaders(e1, "headers") == AsHeaders(e2, "headers");
    assert AsInt(e1, "format", FORMAT_PNG) == AsInt(e2, "format", FORMAT_PNG);
    assert AsInt(e1, "maxh", 0) == AsInt(e2, "maxh", 0);
    assert AsInt(e1, "maxw", 0) == AsInt(e2, "maxw", 0);
    assert AsInt(e1, "timeMs", 0) == AsInt(e2, "timeMs", 0);
    assert AsInt(e1, "quality", 100) == AsInt(e2, "quality", 100);
  }

  // ---------------------------------------------------------------------------------------
  // Sources
  // ---------------------------------------------------------------------------------------

  /** The `URL` `createThumbnail` opens: a network URL, or a file URL for a path. */
  datatype VideoUrl = NetworkUrl(url: string) | FileUrl(path: string)

  /** An error `NSError(domain: "VideoThumbnailPlus", ...)` the plugin throws itself. */
  datatype PluginError = PluginError(code: int, description: string)

  const INVALID_URL := PluginError(-3, "Invalid URL")

  /**
   * The prefix dispatch of `createThumbnail`: http(s) through `URL(string:)` (which may refuse
   * the string: `isValidUrl`), then `file://` with its seven characters dropped, else the string
   * itself as a path. There is no `content://` case.
   */
  function VideoUrlFor(video: string, isValidUrl: string -> bool): (r: Result<VideoUrl, PluginError>)
    ensures r.Err? <==> (StartsWith(video, "http://") || StartsWith(video, "https://")) && !isValidUrl(video)
    ensures r.Err? ==> r.error == INVALID_URL
    ensures r.Ok? && r.value.NetworkUrl? <==> (StartsWith(video, "http://") || StartsWith(video, "https://")) && isValidUrl(video)
    ensures r.Ok? && r.value.NetworkUrl? ==> r.value.url == video
    ensures r.Ok? && r.value.FileUrl? && StartsWith(video, "file://") ==> r.value.path == video[7..]
    ensures r.Ok? && r.value.FileUrl? && !StartsWith(video, "file://") ==> r.value.path == video
  {
    if StartsWith(video, "http://") || StartsWith(video, "https://") then
      assert video[0] == 'h' by { assert video[..7][0] == video[0]; }
      if isValidUrl(video) then Ok(NetworkUrl(video)) else Err(INVALID_URL)
    else if StartsWith(video, "file://") then Ok(FileUrl(video[7..]))
    else Ok(FileUrl(video))
  }

  /** Only an http(s) string can be refused; every other string opens as a file path. */
  lemma OnlyNetworkUrlsFail(video: string, isValidUrl: string -> bool)
    requires !StartsWith(video, "http://") && !StartsWith(video, "https://")
    ensures VideoUrlFor(video, isValidUrl).Ok? && VideoUrlFor(video, isValidUrl).value.FileUrl?
    ensures VideoUrlFor(video, isValidUrl) == VideoUrlFor(video, u => false)
  {
  }

  /** The asset: an `AVURLAsset` carrying the HTTP header fields, or a plain `AVAsset`. */
  datatype Asset = UrlAsset(url: VideoUrl, headerFields: map<string, string>) | PlainAsset(url: VideoUrl)

  /** Headers reach the asset exactly when there are some, whatever kind of URL it is. */
  function AssetFor(url: VideoUrl, headers: map<string, string>): (a: Asset)
    ensures a.url == url
    ensures a.UrlAsset? <==> headers != map[]
    ensures a.UrlAsset? ==> a.headerFields == headers
  {
    if headers != map[] then UrlAsset(url, headers) else PlainAsset(url)
  }

  // ---------------------------------------------------------------------------------------
  // Generator settings
  // ---------------------------------------------------------------------------------------

  /**
   * The `maximumSize` box: none unless a bound is positive; a missing bound takes the other
   * one's value, so a single bound gives a square box.
   */
  function MaximumSize(maxWidth: int, maxHeight: int): (box: Option<Size>)
    ensures box.None? <==> maxWidth <= 0 && maxHeight <= 0
    ensures box.Some? ==> box.value.width > 0 && box.value.height > 0
    ensures maxWidth > 0 && maxHeight > 0 ==> box == Some(Size(maxWidth, maxHeight))
    ensures maxWidth > 0 && maxHeight <= 0 ==> box == Some(Size(maxWidth, maxWidth))
    ensures maxWidth <= 0 && maxHeight > 0 ==> box == Some(Size(maxHeight, maxHeight))
  {
    if maxWidth > 0 || maxHeight > 0 then
      var width := if maxWidth > 0 then maxWidth else maxHeight;
      var height := if maxHeight > 0 then maxHeight else maxWidth;
      Some(Size(width, height))
    else None
  }

  /** Each positive bound survives in its own axis, and the box never exceeds the larger bound. */
  lemma MaximumSizeKeepsBounds(maxWidth: int, maxHeight: int)
    requires maxWidth > 0 || maxHeight > 0
    ensures var box := MaximumSize(maxWidth, maxHeight).value;
            && (maxWidth > 0 ==> box.width == maxWidth)
            && (maxHeight > 0 ==> box.height == maxHeight)
            && box.width <= Max(maxWidth, maxHeight) && box.height <= Max(maxWidth, maxHeight)
  {
  }

  /** A `CMTime`: `value / timescale` seconds. */
  datatype CMTime = CMTime(value: Int64, timescale: int)

  /** `CMTime.zero`. */
  const ZERO_TIME := CMTime(0, 1)

  /** `CMTime(value: CMTimeValue(timeMs), timescale: 1000)`: the requested time, in milliseconds. */
  function RequestedTime(timeMs: Int64): (t: CMTime)
    ensures t.timescale == 1000
    ensures (t.value as real) / (t.timescale as real) == (timeMs as real) / 1000.0
  {
    CMTime(timeMs, 1000)
  }

  // ---------------------------------------------------------------------------------------
  // Formats
  // ---------------------------------------------------------------------------------------

  /** `jpegData(compressionQuality:)` or `pngData()`. */
  datatype Encoding = JpegData(compressionQuality: real) | PngData

  /**
   * The `switch format` of `generateThumbnailFile`: the extension and the encoder. JPEG at
   * `quality / 100` (not clamped); WebP is named "webp" but encoded as PNG; any other code is PNG.
   */
  function FileFormat(format: int, quality: int): (fe: (string, Encoding))
    ensures fe.0 in {"jpg", "png", "webp"}
    ensures fe.0 == "jpg" <==> format == FORMAT_JPEG
    ensures fe.0 == "webp" <==> format == FORMAT_WEBP
    ensures fe.1.JpegData? <==> format == FORMAT_JPEG
    ensures fe.1.JpegData? ==> fe.1.compressionQuality * 100.0 == quality as real
  {
    if format == FORMAT_JPEG then ("jpg", JpegData(quality as real / 100.0))
    else if format == FORMAT_PNG then ("png", PngData)
    else if format == FORMAT_WEBP then ("webp", PngData)
    else ("png", PngData)
  }

  /** The `switch format` of `generateThumbnailData`: the same encoders, with no extension. */
  function DataEncoding(format: int, quality: int): (e: Encoding)
    ensures e.JpegData? <==> format == FORMAT_JPEG
    ensures e.JpegData? ==> e.compressionQuality * 100.0 == quality as real
  {
    if format == FORMAT_JPEG then JpegData(quality as real / 100.0)
    else if format == FORMAT_PNG then PngData
    else if format == FORMAT_WEBP then PngData
    else PngData
  }

  /** Both modes encode a given code and quality the same way. */
  lemma DataEncodingMatchesFile(format: int, quality: int)
    ensures DataEncoding(format, quality) == FileFormat(format, quality).1
  {
  }

  /** The extension that names what an encoder produces. */
  function ExtensionOf(e: Encoding): string {
    match e
    case JpegData(_) => "jpg"
    case PngData => "png"
  }

  /** The file's extension misnames its bytes for exactly one code: WebP, whose bytes are PNG. */
  lemma ExtensionMismatchOnlyForWebp(format: int, quality: int)
    ensures ExtensionOf(FileFormat(format, quality).1) != FileFormat(format, quality).0 <==> format == FORMAT_WEBP
  {
  }
}

/**
 * The decisions the Android plugin (`VideoThumbnailPlusPlugin.kt`) takes around its platform
 * calls: how `onMethodCall` reads, rejects and normalises the arguments, how a video string is
 * classified into a data source for `MediaMetadataRetriever`, how a format code maps to a file
 * extension and a `Bitmap.CompressFormat`, and the target size `scaleBitmap` computes.
 */
module AndroidLogic {
  import opened Common

  // ---------------------------------------------------------------------------------------
  // Arguments
  // ---------------------------------------------------------------------------------------

  /**
   * `Char.isWhitespace()` on the JVM: Java whitespace (tab, line feed, vertical tab, form feed,
   * carriage return, the four information separators) or a Unicode space, line or paragraph
   * separator.
   */
  predicate IsWhitespace(c: char) {
    || c == '\t' || c == '\n' || c == '\U{000B}' || c == '\U{000C}' || c == '\r'
    || ('\U{001C}' <= c <= '\U{001F}')
    || c == ' ' || c == '\U{00A0}' || c == '\U{1680}'
    || ('\U{2000}' <= c <= '\U{200A}')
    || c == '\U{2028}' || c == '\U{2029}' || c == '\U{202F}' || c == '\U{205F}' || c == '\U{3000}'
  }

  /** `String.isBlank()`: empty, or whitespace only. */
  predicate IsBlank(s: string): (b: bool)
    ensures s == "" ==> b
    ensures |s| > 0 && !IsWhitespace(s[0]) ==> !b
  {
    forall i | 0 <= i < |s| :: IsWhitespace(s[i])
  }

  /**
   * `call.argument<T>(key)` before its result is cast: `Null` when the call has no arguments
   * or the key is absent; the name of the key when the arguments are not a dictionary
   * (`MethodCall.argument` then throws `ClassCastException`).
   */
  function Lookup(args: Arguments, key: string): Result<ArgValue, string> {
    match args
    case NoArguments => Ok(Null)
    case NotADictionary => Err(key)
    case Dictionary(entries) => Ok(if key in entries then entries[key] else Null)
  }

  /** The call carries no value under `key`: no arguments, no such key, or an explicit null. */
  predicate Absent(args: Arguments, key: string) {
    args.NoArguments? || (args.Dictionary? && (key !in args.entries || args.entries[key].Null?))
  }

  /** `call.argument<String>(key)`: a string or null; any other value fails Kotlin's cast. */
  function ArgString(args: Arguments, key: string): (r: Result<Option<string>, string>)
    ensures r == Ok(None) <==> Absent(args, key)
    ensures r.Ok? && r.value.Some? <==> args.Dictionary? && key in args.entries && args.entries[key].Str?
    ensures r.Ok? && r.value.Some? ==> r.value.value == args.entries[key].s
    ensures r.Err? ==> r.error == key
  {
    var v :- Lookup(args, key);
    match v
    case Null => Ok(None)
    case Str(s) => Ok(Some(s))
    case _ => Err(key)
  }

  /**
   * `call.argument<Int>(key)`: an integer that fits a Kotlin `Int`, or null. A value outside
   * 32 bits arrives as a `java.lang.Long` and fails the cast, as does any non-number.
   */
  function ArgInt(args: Arguments, key: string): (r: Result<Option<Int32>, string>)
    ensures r == Ok(None) <==> Absent(args, key)
    ensures r.Ok? && r.value.Some? <==>
              && args.Dictionary? && key in args.entries && args.entries[key].Int?
              && -0x8000_0000 <= args.entries[key].i < 0x8000_0000
    ensures r.Ok? && r.value.Some? ==> r.value.value == args.entries[key].i
    ensures r.Err? ==> r.error == key
  {
    var v :- Lookup(args, key);
    match v
    case Null => Ok(None)
    case Int(i) => if -0x8000_0000 <= i < 0x8000_0000 then Ok(Some(i)) else Err(key)
    case _ => Err(key)
  }

  /** `call.argument<Map<String, String>>(key)`. */
  function ArgHeaders(args: Arguments, key: string): (r: Result<Option<map<string, string>>, string>)
    ensures r == Ok(None) <==> Absent(args, key)
    ensures r.Ok? && r.value.Some? <==> args.Dictionary? && key in args.entries && args.entries[key].StrMap?
    ensures r.Ok? && r.value.Some? ==> r.value.value == args.entries[key].m
    ensures r.Err? ==> r.error == key
  {
    var v :- Lookup(args, key);
    match v
    case Null => Ok(None)
    case StrMap(m) => Ok(Some(m))
    case _ => Err(key)
  }

  /** `x.coerceAtLeast(low)`. */
  function CoerceAtLeast(x: int, low: int): (r: int)
    ensures r >= low
    ensures x >= low ==> r == x
    ensures x < low ==> r == low
  {
    if x < low then low else x
  }

  /** `x.coerceIn(low, high)`. */
  function CoerceIn(x: int, low: int, high: int): (r: int)
    requires low <= high
    ensures low <= r <= high
    ensures low <= x <= high ==> r == x
    ensures x < low ==> r == low
    ensures x > high ==> r == high
  {
    if x < low then low else if x > high then high else x
  }

  /** Coercing an already coerced value changes nothing. */
  lemma CoercionIdempotent(x: int)
    ensures CoerceAtLeast(CoerceAtLeast(x, 0), 0) == CoerceAtLeast(x, 0)
    ensures CoerceIn(CoerceIn(x, 0, 100), 0, 100) == CoerceIn(x, 0, 100)
  {
  }

  /** What `onMethodCall` does with a call before any work is handed to the executor. */
  datatype Call =
    | Dispatch(mode: Mode, request: Request)
    | Respond(reply: Reply)
      /** A Kotlin cast of the argument under `key` failed; the exception leaves `onMethodCall`. */
    | ArgumentTypeError(key: string)

  const INVALID_ARGUMENT := Error("INVALID_ARGUMENT", "Video path or URL is required")

  /** A request as `onMethodCall` hands it on: a non-blank video, `timeMs >= 0`, quality in [0, 100]. */
  predicate Normalised(r: Request) {
    && !IsBlank(r.video)
    && 0 <= r.timeMs < 0x8000_0000
    && 0 <= r.quality <= 100
    && -0x8000_0000 <= r.format < 0x8000_0000
    && -0x8000_0000 <= r.maxHeight < 0x8000_0000
    && -0x8000_0000 <= r.maxWidth < 0x8000_0000
  }

  /**
   * The arguments read after the video check, in the order the source reads them: headers,
   * path (file mode only), format, maxh, maxw, timeMs, quality. Missing values take their
   * defaults; `timeMs` is raised to 0 and `quality` pulled into [0, 100].
   */
  function ReadRequest(isFile: bool, args: Arguments, video: string): (r: Result<(Mode, Request), string>)
    requires !IsBlank(video)
    ensures r.Ok? <==>
              && ArgHeaders(args, "headers").Ok? && (isFile ==> ArgString(args, "path").Ok?)
              && ArgInt(args, "format").Ok? && ArgInt(args, "maxh").Ok? && ArgInt(args, "maxw").Ok?
              && ArgInt(args, "timeMs").Ok? && ArgInt(args, "quality").Ok?
    ensures ArgHeaders(args, "headers").Err? ==> r == Err("headers")
    ensures r.Ok? ==> Normalised(r.value.1) && r.value.1.video == video
    ensures r.Ok? ==> r.value.0 == if isFile then FileMode(ArgString(args, "path").value.GetOr("")) else DataMode
    ensures r.Ok? ==>
              var q := r.value.1;
              && q.headers == ArgHeaders(args, "headers").value.GetOr(map[])
              && q.format == ArgInt(args, "format").value.GetOr(FORMAT_PNG)
              && q.maxHeight == ArgInt(args, "maxh").value.GetOr(0)
              && q.maxWidth == ArgInt(args, "maxw").value.GetOr(0)
              && q.timeMs == CoerceAtLeast(ArgInt(args, "timeMs").value.GetOr(0), 0)
              && q.quality == CoerceIn(ArgInt(args, "quality").value.GetOr(100), 0, 100)
  {
    var headers :- ArgHeaders(args, "headers");
    var path :- if isFile then ArgString(args, "path") else Ok(None);
    var format :- ArgInt(args, "format");
    var maxHeight :- ArgInt(args, "maxh");
    var maxWidth :- ArgInt(args, "maxw");
    var timeMs :- ArgInt(args, "timeMs");
    var quality :- ArgInt(args, "quality");
    var mode := if isFile then FileMode(path.GetOr("")) else DataMode;
    Ok((mode, Request(
      video,
      headers.GetOr(map[]),
      format.GetOr(FORMAT_PNG),
      maxHeight.GetOr(0),
      maxWidth.GetOr(0),
      CoerceAtLeast(timeMs.GetOr(0), 0),
      CoerceIn(quality.GetOr(100), 0, 100))))
  }

  /** `onMethodCall`: route "file" and "data", reject a null or blank video, refuse other methods. */
  function Route(name: string, args: Arguments): (c: Call)
    ensures c == Respond(NotImplemented) <==> name != "file" && name != "data"
    ensures c == Respond(INVALID_ARGUMENT) <==>
              && (name == "file" || name == "data")
              && (ArgString(args, "video") == Ok(None)
                  || (ArgString(args, "video").Ok? && ArgString(args, "video").value.Some?
                      && IsBlank(ArgString(args, "video").value.value)))
    ensures c.Dispatch? ==> Normalised(c.request) && (c.mode.FileMode? <==> name == "file")
    ensures c.Dispatch? ==> ArgString(args, "video") == Ok(Some(c.request.video))
    ensures c.Dispatch? ==> ReadRequest(name == "file", args, c.request.video) == Ok((c.mode, c.request))
    ensures (name == "file" || name == "data") && ArgString(args, "video").Err? ==> c == ArgumentTypeError("video")
    ensures (name == "file" || name == "data") && ArgString(args, "video").Ok?
              && ArgString(args, "video").value.Some? && !IsBlank(ArgString(args, "video").value.value) ==>
              var read := ReadRequest(name == "file", args, ArgString(args, "video").value.value);
              && (c.Dispatch? <==> read.Ok?)
              && (read.Err? ==> c == ArgumentTypeError(read.error))
  {
    if name != "file" && name != "data" then Respond(NotImplemented)
    else
      match ArgString(args, "video")
      case Err(key) => ArgumentTypeError(key)
      case Ok(None) => Respond(INVALID_ARGUMENT)
      case Ok(Some(video)) =>
        if IsBlank(video) then Respond(INVALID_ARGUMENT)
        else
          match ReadRequest(name == "file", args, video)
          case Err(key) => ArgumentTypeError(key)
          case Ok((mode, request)) => Dispatch(mode, request)
  }

  /**
   * The calls the plugin's unit tests make: an unknown method without arguments is not
   * implemented, and "file" or "data" with an empty dictionary is refused.
   */
  lemma RouteRejections()
    ensures Route("unknownMethod", NoArguments) == Respond(NotImplemented)
    ensures Route("file", Dictionary(map[])) == Respond(INVALID_ARGUMENT)
    ensures Route("data", Dictionary(map[])) == Respond(INVALID_ARGUMENT)
  {
  }

  /**
   * Values that are already in range pass through unchanged: routing the arguments of a
   * normalised request dispatches exactly that request (so normalisation is idempotent).
   */
  lemma RouteKeepsNormalisedRequest(mode: Mode, r: Request)
    requires Normalised(r)
    ensures Route(if mode.FileMode? then "file" else "data", ArgumentsOf(mode, r)) == Dispatch(mode, r)
  {
  }

  /**
   * Each argument is read on its own: given values are kept, absent or null ones take their
   * defaults, and the first value of the wrong type aborts the call with that key.
   */
  lemma RouteMixedArguments()
    ensures Route("file", Dictionary(map["video" := Str("v"), "maxw" := Int(320), "timeMs" := Null]))
            == Dispatch(FileMode(""), Request("v", map[], FORMAT_PNG, 0, 320, 0, 100))
    ensures Route("data", Dictionary(map["video" := Str("v"), "format" := Str("jpg"), "maxh" := Str("1")]))
            == ArgumentTypeError("format")
  {
    assert !IsWhitespace("v"[0]);
  }

  /** The defaults: only a video given means PNG, no bounds, time 0, quality 100, no headers. */
  lemma RouteDefaults(video: string, isFile: bool)
    requires !IsBlank(video)
    ensures Route(if isFile then "file" else "data", Dictionary(map["video" := Str(video)]))
         == Dispatch(if isFile then FileMode("") else DataMode, Request(video, map[], FORMAT_PNG, 0, 0, 0, 100))
  {
  }

  /** A negative time becomes 0 and a quality outside [0, 100] the nearest bound; neither is rejected. */
  lemma RouteCoerces(isFile: bool, video: string, timeMs: Int32, quality: Int32)
    requires !IsBlank(video)
    ensures var c := Route(if isFile then "file" else "data",
                           Dictionary(map["video" := Str(video), "timeMs" := Int(timeMs), "quality" := Int(quality)]));
            && c.Dispatch?
            && c.request.timeMs == (if timeMs < 0 then 0 else timeMs)
            && c.request.quality == (if quality < 0 then 0 else if quality > 100 then 100 else quality)
  {
  }

  // ---------------------------------------------------------------------------------------
  // Sources
  // ---------------------------------------------------------------------------------------

  /** The three `setDataSource` overloads `createThumbnail` chooses between. */
  datatype Source =
    | RemoteSource(url: string, headers: map<string, string>)   // setDataSource(url, headers)
    | ContentSource(uri: string)                                // setDataSource(context, Uri.parse(uri))
    | PathSource(path: string)                                  // setDataSource(path)

  /** Prefix dispatch, first match wins: http(s), then content, then file (scheme dropped), else a path. */
  function ClassifySource(video: string, headers: map<string, string>): (src: Source)
    ensures src.RemoteSource? <==> StartsWith(video, "http://") || StartsWith(video, "https://")
    ensures src.ContentSource? <==> StartsWith(video, "content://")
    ensures src.RemoteSource? ==> src == RemoteSource(video, headers)
    ensures src.ContentSource? ==> src.uri == video
    ensures src.PathSource? && StartsWith(video, "file://") ==> src.path == video[7..]
    ensures src.PathSource? && !StartsWith(video, "file://") ==> src.path == video
  {
    if StartsWith(video, "http://") || StartsWith(video, "https://") then
      assert video[0] == 'h' by { assert video[..7][0] == video[0]; }
      RemoteSource(video, headers)
    else if StartsWith(video, "content://") then ContentSource(video)
    else if StartsWith(video, "file://") then PathSource(video[7..])
    else PathSource(video)
  }

  /** A `file://` URL opens the path after the scheme, whatever that path looks like. */
  lemma FileUrlOpensItsPath(path: string, headers: map<string, string>)
    ensures ClassifySource("file://" + path, headers) == PathSource(path)
  {
    var v := "file://" + path;
    assert v[..7] == "file://";
    assert v[7..] == path;
    assert !StartsWith(v, "http://") && !StartsWith(v, "https://") && !StartsWith(v, "content://") by {
      assert v[0] == 'f';
    }
  }

  /** Headers reach the retriever only with a remote source. */
  lemma HeadersOnlyForRemote(video: string, headers: map<string, string>)
    ensures ClassifySource(video, headers) == ClassifySource(video, map[])
         || StartsWith(video, "http://") || StartsWith(video, "https://")
  {
  }

  /** `getFrameAtTime` takes microseconds: `timeMs.toLong() * 1000L`, which cannot overflow a Long. */
  function SeekTimeUs(timeMs: Int32): (us: Int64)
    ensures us % 1000 == 0 && us / 1000 == timeMs
  {
    timeMs * 1000
  }

  // ---------------------------------------------------------------------------------------
  // Formats
  // ---------------------------------------------------------------------------------------

  /** `Bitmap.CompressFormat`. */
  datatype CompressFormat = JPEG | PNG | WEBP | WEBP_LOSSY

  /** `Build.VERSION_CODES.Q` and `Build.VERSION_CODES.R`. */
  const VERSION_CODES_Q := 29
  const VERSION_CODES_R := 30

  /** The file extension `generateThumbnailFile` picks; unknown codes fall back to "png". */
  function Extension(format: int): (ext: string)
    ensures ext in {"jpg", "png", "webp"}
    ensures ext == "jpg" <==> format == FORMAT_JPEG
    ensures ext == "webp" <==> format == FORMAT_WEBP
  {
    if format == FORMAT_JPEG then "jpg"
    else if format == FORMAT_PNG then "png"
    else if format == FORMAT_WEBP then "webp"
    else "png"
  }

  /** The encoder both generate functions pick; WebP is the lossy variant from Android R on. */
  function CompressFormatFor(format: int, sdk: int): (c: CompressFormat)
    ensures c == JPEG <==> format == FORMAT_JPEG
    ensures c == WEBP_LOSSY <==> format == FORMAT_WEBP && sdk >= VERSION_CODES_R
    ensures c == WEBP <==> format == FORMAT_WEBP && sdk < VERSION_CODES_R
    ensures c == PNG <==> format != FORMAT_JPEG && format != FORMAT_WEBP
  {
    if format == FORMAT_JPEG then JPEG
    else if format == FORMAT_PNG then PNG
    else if format == FORMAT_WEBP then (if sdk >= VERSION_CODES_R then WEBP_LOSSY else WEBP)
    else PNG
  }

  /** The extension that names what an encoder produces. */
  function ExtensionOf(c: CompressFormat): string {
    match c
    case JPEG => "jpg"
    case PNG => "png"
    case WEBP => "webp"
    case WEBP_LOSSY => "webp"
  }

  /** On Android the file extension always names the bytes written, for every code and SDK level. */
  lemma ExtensionMatchesEncoder(format: int, sdk: int)
    ensures ExtensionOf(CompressFormatFor(format, sdk)) == Extension(format)
  {
  }

  // ---------------------------------------------------------------------------------------
  // Scaling
  // ---------------------------------------------------------------------------------------

  /** `(x).toInt()` of a non-negative value: truncation, which is the floor. */
  function Truncate(x: real): (n: int)
    requires x >= 0.0
    ensures n >= 0
    ensures n as real <= x < n as real + 1.0
  {
    x.Floor
  }

  /**
   * `scaleBitmap`'s target size for a bitmap of `size` when at least one bound is positive,
   * with its `Float` ratio computed exactly. Both bounds: the smaller of the two axis ratios
   * scales both axes. One bound: that axis takes the bound, the other scales by its ratio.
   * Every derived side is at least 1.
   */
  function TargetSize(size: Dims, maxWidth: int, maxHeight: int): (r: Size)
    requires maxWidth > 0 || maxHeight > 0
    ensures r.width >= 1 && r.height >= 1
  {
    var width, height := size.width as real, size.height as real;
    if maxWidth > 0 && maxHeight > 0 then
      var widthRatio := maxWidth as real / width;
      var heightRatio := maxHeight as real / height;
      var ratio := if widthRatio <= heightRatio then widthRatio else heightRatio;
      Size(Max(1, Truncate(width * ratio)), Max(1, Truncate(height * ratio)))
    else if maxWidth > 0 then
      var ratio := maxWidth as real / width;
      Size(maxWidth, Max(1, Truncate(height * ratio)))
    else
      var ratio := maxHeight as real / height;
      Size(Max(1, Truncate(width * ratio)), maxHeight)
  }

  lemma MulMono(x: int, y: int, d: int)
    requires d > 0 && x <= y
    ensures x * d <= y * d
  {
    assert y * d == x * d + (y - x) * d;
  }

  /** Euclidean division brackets its dividend. */
  lemma DivBounds(a: int, d: int)
    requires d > 0
    ensures (a / d) * d <= a < (a / d) * d + d
  {
    assert a == (a / d) * d + a % d;
  }

  /** `a / d <= b` when `a <= b * d`. */
  lemma QuotientBound(a: int, b: int, d: int)
    requires d > 0 && a <= b * d
    ensures a / d <= b
  {
    DivBounds(a, d);
    if a / d > b {
      MulMono(b + 1, a / d, d);
    }
  }

  /** `d * m / d == m`. */
  lemma DivCancel(m: int, d: int)
    requires d > 0
    ensures d * m / d == m
  {
    var q := d * m / d;
    DivBounds(d * m, d);
    if q > m {
      MulMono(m + 1, q, d);
    } else if q < m {
      MulMono(q + 1, m, d);
    }
  }

  /** `x * (m / d)` truncated is the integer quotient `x * m / d`. */
  lemma ScaledFloor(x: nat, m: nat, d: int)
    requires d > 0
    ensures x as real * (m as real / d as real) >= 0.0
    ensures Truncate(x as real * (m as real / d as real)) == x * m / d
  {
    var q, rem := x * m / d, x * m % d;
    assert x * m == q * d + rem;
    assert x as real * (m as real / d as real) == (x * m) as real / d as real;
    assert (x * m) as real / d as real == q as real + rem as real / d as real;
    assert 0.0 <= rem as real / d as real < 1.0;
  }

  /** Comparing the two axis ratios is comparing the cross products. */
  lemma RatioOrder(mw: int, w: int, mh: int, h: int)
    requires w > 0 && h > 0
    ensures mw as real / w as real <= mh as real / h as real <==> mw * h <= mh * w
  {
    var a, b := mw as real / w as real, mh as real / h as real;
    assert a * (w * h) as real == (mw * h) as real;
    assert b * (w * h) as real == (mh * w) as real;
  }

  /** When the width ratio is the one used, the width takes its bound and the height follows. */
  lemma TargetSizeByWidth(size: Dims, maxWidth: int, maxHeight: int)
    requires maxWidth > 0
    requires maxHeight <= 0 || maxWidth * size.height <= maxHeight * size.width
    ensures TargetSize(size, maxWidth, maxHeight)
         == Size(maxWidth, Max(1, size.height * maxWidth / size.width))
  {
    var w, h := size.width, size.height;
    ScaledFloor(h, maxWidth, w);
    ScaledFloor(w, maxWidth, w);
    DivCancel(maxWidth, w);
    if maxHeight > 0 {
      RatioOrder(maxWidth, w, maxHeight, h);
    }
  }

  /** When the height ratio is the one used, the height takes its bound and the width follows. */
  lemma TargetSizeByHeight(size: Dims, maxWidth: int, maxHeight: int)
    requires maxHeight > 0
    requires maxWidth <= 0 || maxWidth * size.height > maxHeight * size.width
    ensures TargetSize(size, maxWidth, maxHeight)
         == Size(Max(1, size.width * maxHeight / size.height), maxHeight)
  {
    var w, h := size.width, size.height;
    ScaledFloor(w, maxHeight, h);
    ScaledFloor(h, maxHeight, h);
    DivCancel(maxHeight, h);
    if maxWidth > 0 {
      RatioOrder(maxWidth, w, maxHeight, h);
    }
  }

  /** The target size in integer arithmetic only. */
  lemma TargetSizeInIntegers(size: Dims, maxWidth: int, maxHeight: int)
    requires maxWidth > 0 || maxHeight > 0
    ensures var w, h := size.width, size.height;
            TargetSize(size, maxWidth, maxHeight) ==
              if maxWidth > 0 && (maxHeight <= 0 || maxWidth * h <= maxHeight * w)
              then Size(maxWidth, Max(1, h * maxWidth / w))
              else Size(Max(1, w * maxHeight / h), maxHeight)
  {
    if maxWidth > 0 && (maxHeight <= 0 || maxWidth * size.height <= maxHeight * size.width) {
      TargetSizeByWidth(size, maxWidth, maxHeight);
    } else {
      TargetSizeByHeight(size, maxWidth, maxHeight);
    }
  }

  /**
   * With both bounds positive the target fits inside the bounds and reaches one of them;
   * scaling never enlarges past the tighter bound.
   */
  lemma TargetSizeFitsBounds(size: Dims, maxWidth: int, maxHeight: int)
    requires maxWidth > 0 && maxHeight > 0
    ensures var r := TargetSize(size, maxWidth, maxHeight);
            && 1 <= r.width <= maxWidth && 1 <= r.height <= maxHeight
            && (r.width == maxWidth || r.height == maxHeight)
  {
    TargetSizeInIntegers(size, maxWidth, maxHeight);
    var w, h := size.width, size.height;
    if maxWidth * h <= maxHeight * w {
      QuotientBound(h * maxWidth, maxHeight, w);
    } else {
      QuotientBound(w * maxHeight, maxWidth, h);
    }
  }

  /**
   * The aspect ratio is kept to within one pixel: the derived side differs from the exact
   * proportional length by less than one pixel (it is the truncation, or 1 when that is 0).
   */
  lemma TargetSizeKeepsAspect(size: Dims, maxWidth: int, maxHeight: int)
    requires maxWidth > 0 || maxHeight > 0
    ensures var r, w, h := TargetSize(size, maxWidth, maxHeight), size.width, size.height;
            || (r.width == maxWidth && -w < r.height * w - h * r.width < w)
            || (r.height == maxHeight && -h < r.width * h - w * r.height < h)
  {
    TargetSizeInIntegers(size, maxWidth, maxHeight);
    var w, h := size.width, size.height;
    if maxWidth > 0 && (maxHeight <= 0 || maxWidth * h <= maxHeight * w) {
      DivBounds(h * maxWidth, w);
    } else {
      DivBounds(w * maxHeight, h);
    }
  }
}

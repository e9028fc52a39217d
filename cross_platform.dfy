/**
 * Where the Android and the iOS plugin agree and where they do not, for the same call on the
 * method channel: routing and argument handling, the opened source, the file name, the seek
 * time and the size bound.
 */
module CrossPlatform {
  import opened Common
  import opened Text
  import opened Naming
  import A = AndroidLogic
  import I = IosLogic
  import AP = AndroidPlugin
  import IP = IosPlugin

  // ---------------------------------------------------------------------------------------
  // Routing
  // ---------------------------------------------------------------------------------------

  /**
   * A request that already satisfies Android's normalisation (non-blank video, time >= 0,
   * quality in [0, 100], 32-bit values) is dispatched unchanged by both platforms.
   */
  lemma NormalisedRequestsDispatchAlike(mode: Mode, r: Request)
    requires A.Normalised(r)
    ensures var name := if mode.FileMode? then "file" else "data";
            && A.Route(name, ArgumentsOf(mode, r)) == A.Dispatch(mode, r)
            && I.Handle(name, ArgumentsOf(mode, r)) == I.Generate(mode, r)
  {
    A.RouteKeepsNormalisedRequest(mode, r);
    I.HandleKeepsEveryRequest(mode, r);
  }

  /** A blank video is refused on Android and handed to the generator on iOS. */
  lemma BlankVideoDiffers(isFile: bool)
    ensures var name, args := if isFile then "file" else "data", Dictionary(map["video" := Str(" ")]);
            && A.Route(name, args) == A.Respond(A.INVALID_ARGUMENT)
            && I.Handle(name, args).Generate? && I.Handle(name, args).request.video == " "
  {
    assert A.IsWhitespace(" "[0]);
  }

  /** Android raises a negative time to 0 and pulls quality into [0, 100]; iOS passes both on. */
  lemma OutOfRangeValuesDiffer(isFile: bool, timeMs: Int32, quality: Int32)
    requires timeMs < 0 && quality > 100
    ensures var name := if isFile then "file" else "data";
            var args := Dictionary(map["video" := Str("v"), "timeMs" := Int(timeMs), "quality" := Int(quality)]);
            && A.Route(name, args).Dispatch?
            && A.Route(name, args).request.timeMs == 0 && A.Route(name, args).request.quality == 100
            && I.Handle(name, args).Generate?
            && I.Handle(name, args).request.timeMs == timeMs && I.Handle(name, args).request.quality == quality
  {
    assert !A.IsBlank("v") by { assert !A.IsWhitespace("v"[0]); }
    A.RouteCoerces(isFile, "v", timeMs, quality);
  }

  /**
   * Android looks at the method name first, iOS at the arguments first: an unknown method
   * without arguments is "not implemented" on Android and `INVALID_ARGS` on iOS, and a known one
   * whose arguments are not a dictionary fails Kotlin's cast on Android.
   */
  lemma CheckOrderDiffers(name: string)
    ensures name != "file" && name != "data" ==>
              A.Route(name, NoArguments) == A.Respond(NotImplemented)
              && I.Handle(name, NoArguments) == I.Answer(I.INVALID_ARGS)
    ensures name == "file" || name == "data" ==>
              A.Route(name, NotADictionary) == A.ArgumentTypeError("video")
              && I.Handle(name, NotADictionary) == I.Answer(I.INVALID_ARGS)
  {
  }

  // ---------------------------------------------------------------------------------------
  // Sources
  // ---------------------------------------------------------------------------------------

  /** An Android data source and an iOS URL that open the same thing. */
  predicate SameLocation(src: A.Source, url: I.VideoUrl) {
    match src
    case RemoteSource(u, _) => url == I.NetworkUrl(u)
    case ContentSource(_) => false
    case PathSource(p) => url == I.FileUrl(p)
  }

  /**
   * Apart from `content://`, which only Android resolves, both platforms open the same
   * location; the one case iOS refuses is an http(s) string `URL(string:)` rejects.
   */
  lemma SourcesAgree(video: string, headers: map<string, string>, isValidUrl: string -> bool)
    requires !StartsWith(video, "content://")
    ensures var url := I.VideoUrlFor(video, isValidUrl);
            && (url.Ok? ==> SameLocation(A.ClassifySource(video, headers), url.value))
            && (url.Err? ==> A.ClassifySource(video, headers) == A.RemoteSource(video, headers))
  {
  }

  /** A `content://` URI goes through the content resolver on Android and is a file path on iOS. */
  lemma ContentUriDiffers(rest: string, headers: map<string, string>, isValidUrl: string -> bool)
    ensures var video := "content://" + rest;
            && A.ClassifySource(video, headers) == A.ContentSource(video)
            && I.VideoUrlFor(video, isValidUrl) == Ok(I.FileUrl(video))
  {
    var video := "content://" + rest;
    assert video[..10] == "content://";
    assert video[0] == 'c';
    assert !StartsWith(video, "file://") by { assert video[1] == 'o'; }
  }

  /** Headers given with a plain path are dropped on Android and attached to the asset on iOS. */
  lemma HeadersWithPathDiffer(path: string, headers: map<string, string>)
    requires path == [] || path[0] == '/'
    requires headers != map[]
    ensures A.ClassifySource(path, headers) == A.PathSource(path)
    ensures I.AssetFor(I.VideoUrlFor(path, u => true).value, headers) == I.UrlAsset(I.FileUrl(path), headers)
  {
    if path != [] {
      DifferentFirstChar(path, "http://");
      DifferentFirstChar(path, "https://");
      DifferentFirstChar(path, "content://");
      DifferentFirstChar(path, "file://");
    }
  }

  /** A string does not start with a prefix whose first character it does not share. */
  lemma DifferentFirstChar(s: string, prefix: string)
    requires |s| > 0 && |prefix| > 0 && s[0] != prefix[0]
    ensures !StartsWith(s, prefix)
  {
    if |prefix| <= |s| {
      assert s[..|prefix|][0] == s[0];
    }
  }

  // ---------------------------------------------------------------------------------------
  // Naming, time and size
  // ---------------------------------------------------------------------------------------

  /** Both platforms name a format code with the same extension. */
  lemma ExtensionsAgree(format: int, quality: int)
    ensures A.Extension(format) == I.FileFormat(format, quality).0
  {
  }

  /**
   * Given the same MD5 digest (Java's signed bytes read as unsigned) and the same cache
   * directory, both platforms write a request to the same file.
   */
  lemma SameOutputFile(aenv: AP.AndroidEnv, ienv: IP.IosEnv, video: string, path: string,
                       format: Int32, timeMs: Int32)
    requires ienv.md5(video) == UnsignedDigest(aenv.md5(video))
    requires ienv.cachesDir == aenv.cacheDir
    ensures AP.OutputFile(aenv, video, path, format, timeMs) == IP.OutputFile(ienv, video, path, format, timeMs)
  {
    ExtensionsAgree(format, 100);
  }

  /** The Android seek in microseconds and the iOS `CMTime` name the same instant. */
  lemma SeekTimesAgree(timeMs: Int32)
    ensures var t := I.RequestedTime(timeMs);
            A.SeekTimeUs(timeMs) as real / 1000000.0 == t.value as real / t.timescale as real
  {
  }

  /** With both bounds positive, Android's scaled bitmap fits the box the iOS generator gets. */
  lemma ScaledSizeFitsIosBox(frame: Dims, maxWidth: int, maxHeight: int)
    requires maxWidth > 0 && maxHeight > 0
    ensures var target, box := A.TargetSize(frame, maxWidth, maxHeight), I.MaximumSize(maxWidth, maxHeight).value;
            target.width <= box.width && target.height <= box.height
  {
    A.TargetSizeFitsBounds(frame, maxWidth, maxHeight);
  }

  /**
   * With only a width bound, Android scales a portrait frame to that width and lets the height
   * follow, while iOS gets a square box: a 100x200 frame and `maxWidth` 50 give 50x100 on
   * Android, twice the height iOS allows.
   */
  lemma WidthOnlyBoundDiffers()
    ensures A.TargetSize(Size(100, 200), 50, 0) == Size(50, 100)
    ensures I.MaximumSize(50, 0) == Some(Size(50, 50))
  {
    A.TargetSizeByWidth(Size(100, 200), 50, 0);
  }
}

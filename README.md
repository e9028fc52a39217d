# video_thumbnail_plus — a verified model of the plugin's decision layer

video_thumbnail_plus is a Flutter plugin. It extracts one still frame from a video, which may be
a local path, a `file://` URL, a `content://` URI on Android, or an HTTP(S) URL with request
headers. It can scale the frame to fit a bound and encodes it as JPEG, PNG or WebP. It then
returns the bytes, or writes them to a cache file named after the MD5 of the video string and
returns that file's path. All decoding, encoding, hashing and file I/O is done by the platforms.
This model covers what the plugin itself decides around those calls:

- how a call's arguments are read, defaulted, clamped or refused;
- which source a video string opens;
- which file extension and encoder a format code selects;
- the cache file name and directory;
- the target size of the scaled bitmap on Android, and the `maximumSize` box on iOS;
- the order of the steps;
- on Android, that every bitmap and every `MediaMetadataRetriever` is released exactly once.

The modules:

| module | file | models |
|---|---|---|
| `Common` | `common.dfy` | shared types: results, bytes, sizes, the channel arguments, the request, replies |
| `Text` | `text.dfy` | `%02x` hex rendering of the MD5 digest (Swift `UInt8` and Java signed `Byte`), decimal rendering of `timeMs`, with parsers |
| `Naming` | `naming.dfy` | `<md5 hex>_<timeMs>.<ext>` and the output directory; the name is injective |
| `Storage` | `storage.dfy` | `Disk`, the directories and files a request can create |
| `AndroidLogic` | `android_logic.dfy` | argument reading and normalisation in `onMethodCall`, source classification, format mapping, `scaleBitmap`'s size |
| `AndroidPlugin` | `android_plugin.dfy` | the `Bitmap` and `Retriever` objects, `createThumbnail`, `scaleBitmap`, `generateThumbnailFile`/`Data`, the dispatched `onMethodCall` |
| `IosLogic` | `ios_logic.dfy` | argument defaulting in `handle`, URL classification, the asset, the `maximumSize` box, `CMTime`, format mapping |
| `IosPlugin` | `ios_plugin.dfy` | the `ImageGenerator` object, `createThumbnail`, `generateThumbnailFile`/`Data`, the queued `handle` |
| `CrossPlatform` | `cross_platform.dfy` | where the two platforms agree and where they differ, for the same call |

The platforms are environment values, `AndroidEnv` and `IosEnv`. Each has function-typed fields
for:

- the MD5 digest;
- `URL(string:)`;
- `setDataSource`, `getFrameAtTime` and `copyCGImage`;
- the encoders;
- `mkdirs`, `FileOutputStream`, `createDirectory` and `Data.write`.

Each field can be any function, so every proved property holds whatever the platform does. The
SDK level and the cache directory are plain inputs.

Three facts about the code that shape the model. Here and below, `kt:N` is line N of
`android/src/main/kotlin/world/nailao/video_thumbnail_plus/VideoThumbnailPlusPlugin.kt` and
`swift:N` is line N of `ios/Classes/VideoThumbnailPlusPlugin.swift`.

- **Partial files on Android.** Android's `generateThumbnailFile` opens the `FileOutputStream`
  (kt:138) before `compress` runs (kt:150). Opening creates or truncates the file, so a failed
  `compress` leaves the file behind with whatever the encoder streamed (`AndroidPlugin.WriteBitmap`).
  The iOS code encodes the whole image first (swift:125-143) and only then writes it (swift:158),
  so no failure leaves a file there (`IosPlugin.GenerateThumbnailFile`).
- **Truncation.** `scaleBitmap` computes the derived side with `toInt()` (kt:264-273), which
  truncates and does not round. `AndroidLogic.TargetSize` truncates too.
- **The -1 error on iOS.** iOS `createThumbnail` is declared to return `UIImage?` (swift:209),
  but it either throws or returns an image (swift:244-245). The `-1 "Failed to generate
  thumbnail"` branches (swift:119, swift:179) are therefore unreachable, and the model has no
  such path.

## Model

| member | source | states |
|---|---|---|
| `Text.ByteHex` | ios/Classes/VideoThumbnailPlusPlugin.swift:257 | a byte renders as exactly two lower-case hex digits whose value is the byte, high nibble first |
| `Text.Md5Hex` | ios/Classes/VideoThumbnailPlusPlugin.swift:251-258 | a digest renders as 2 lower-case hex characters per byte (32 for MD5) |
| `Text.Md5HexRoundTrip` | ios/Classes/VideoThumbnailPlusPlugin.swift:257 | parsing the rendering gives the digest back |
| `Text.Md5HexInjective` | ios/Classes/VideoThumbnailPlusPlugin.swift:251-258 | two digests render alike if and only if they are equal |
| `Text.Unsigned` | android/src/main/kotlin/world/nailao/video_thumbnail_plus/VideoThumbnailPlusPlugin.kt:286 | `%x` of a signed Java byte prints the unsigned byte with the same bits (equal modulo 256) |
| `Text.UnsignedDigest` | android/src/main/kotlin/world/nailao/video_thumbnail_plus/VideoThumbnailPlusPlugin.kt:285-286 | the unsigned reading keeps the length and reads every byte as `Unsigned` |
| `Text.SignedMd5HexAgrees` | android/src/main/kotlin/world/nailao/video_thumbnail_plus/VideoThumbnailPlusPlugin.kt:283-287 | the Android rendering of signed bytes equals the iOS rendering of the same bits as unsigned bytes |
| `Text.NatDecimal` | android/src/main/kotlin/world/nailao/video_thumbnail_plus/VideoThumbnailPlusPlugin.kt:134 | a natural number renders as a non-empty run of decimal digits, one digit iff below 10, with no leading zero |
| `Text.IntDecimal` | android/src/main/kotlin/world/nailao/video_thumbnail_plus/VideoThumbnailPlusPlugin.kt:134 | an integer renders as an optional minus sign (present iff negative) followed by decimal digits with no leading zero |
| `Text.SignedMd5Hex` | android/src/main/kotlin/world/nailao/video_thumbnail_plus/VideoThumbnailPlusPlugin.kt:283-287 | Java's `%02x` over a signed digest renders 2 lower-case hex characters per byte |
| `Text.NatDecimalRoundTrip` | android/src/main/kotlin/world/nailao/video_thumbnail_plus/VideoThumbnailPlusPlugin.kt:134 | parsing the digits gives the number back |
| `Text.IntDecimalRoundTrip` | ios/Classes/VideoThumbnailPlusPlugin.swift:155 | an interpolated integer, negatives included, parses back to itself and contains no '.' |
| `Naming.Join` | android/src/main/kotlin/world/nailao/video_thumbnail_plus/VideoThumbnailPlusPlugin.kt:135 | a child path is the directory, then one `/`, then the name, in that order |
| `Naming.JoinInjective` | android/src/main/kotlin/world/nailao/video_thumbnail_plus/VideoThumbnailPlusPlugin.kt:135 | two paths with slash-free last components are equal iff their directories and names are |
| `Naming.FileName` | ios/Classes/VideoThumbnailPlusPlugin.swift:155 | the name has the `_` after the 32 hex characters and contains no `/` when the extension has none |
| `Naming.OutputDir` | android/src/main/kotlin/world/nailao/video_thumbnail_plus/VideoThumbnailPlusPlugin.kt:123-127 | the directory is `path` when non-empty, else `<cache>/video_thumbnails` |
| `Naming.FileNameRoundTrip` | android/src/main/kotlin/world/nailao/video_thumbnail_plus/VideoThumbnailPlusPlugin.kt:134 | the file name can be split back into its digest, time and extension |
| `Naming.FileNameInjective` | ios/Classes/VideoThumbnailPlusPlugin.swift:155 | two requests share a file name if and only if their digests, times and extensions are equal |
| `Naming.OutputPathInjective` | android/src/main/kotlin/world/nailao/video_thumbnail_plus/VideoThumbnailPlusPlugin.kt:134-135 | two output paths are equal iff their directories, digests, times and extensions are |
| `AndroidLogic.IsBlank` | android/src/main/kotlin/world/nailao/video_thumbnail_plus/VideoThumbnailPlusPlugin.kt:52 | the empty string is blank; a string whose first character is not whitespace is not |
| `AndroidLogic.ArgString` | android/src/main/kotlin/world/nailao/video_thumbnail_plus/VideoThumbnailPlusPlugin.kt:51 | null iff no arguments, no key or an explicit null; the string iff a string is stored; otherwise a cast failure naming the key |
| `AndroidLogic.ArgInt` | android/src/main/kotlin/world/nailao/video_thumbnail_plus/VideoThumbnailPlusPlugin.kt:58-62 | null iff absent; the number iff an integer within 32 bits is stored; otherwise (non-number, or beyond 32 bits) a cast failure naming the key |
| `AndroidLogic.ArgHeaders` | android/src/main/kotlin/world/nailao/video_thumbnail_plus/VideoThumbnailPlusPlugin.kt:56 | null iff absent; the map iff a string map is stored; otherwise a cast failure naming the key |
| `AndroidLogic.CoerceAtLeast` | android/src/main/kotlin/world/nailao/video_thumbnail_plus/VideoThumbnailPlusPlugin.kt:61 | the result is at least the bound, is the input when that is in range, else the bound |
| `AndroidLogic.CoerceIn` | android/src/main/kotlin/world/nailao/video_thumbnail_plus/VideoThumbnailPlusPlugin.kt:62 | the result lies in the range, is the input when in range, else the nearer bound |
| `AndroidLogic.CoercionIdempotent` | android/src/main/kotlin/world/nailao/video_thumbnail_plus/VideoThumbnailPlusPlugin.kt:61-62 | coercing `timeMs` or `quality` twice equals coercing once |
| `AndroidLogic.ReadRequest` | android/src/main/kotlin/world/nailao/video_thumbnail_plus/VideoThumbnailPlusPlugin.kt:56-62 | succeeds iff every cast succeeds, a bad `headers` failing first; each field is its argument or its default (no headers, path "", PNG, bounds 0, time 0, quality 100), time raised to 0 and quality pulled into [0, 100]; the request is normalised and in file mode iff asked |
| `AndroidLogic.Route` | android/src/main/kotlin/world/nailao/video_thumbnail_plus/VideoThumbnailPlusPlugin.kt:48-100 | not implemented iff the name is neither "file" nor "data"; INVALID_ARGUMENT iff such a call has a null or blank video; a mistyped video fails its cast; with a usable video the call is dispatched iff `ReadRequest` succeeds, with exactly the mode and request it read, and otherwise fails on the key `ReadRequest` names; a dispatched request is normalised and carries the video sent |
| `AndroidLogic.RouteRejections` | android/src/test/kotlin/world/nailao/video_thumbnail_plus/VideoThumbnailPlusPluginTest.kt:10-48 | an unknown method without arguments is not implemented; "file" and "data" without a video are refused |
| `AndroidLogic.RouteKeepsNormalisedRequest` | android/src/main/kotlin/world/nailao/video_thumbnail_plus/VideoThumbnailPlusPlugin.kt:56-62 | sending an already normalised request dispatches exactly that request |
| `AndroidLogic.RouteDefaults` | android/src/main/kotlin/world/nailao/video_thumbnail_plus/VideoThumbnailPlusPlugin.kt:81-86 | with only a video: PNG, no headers, no bounds, time 0, quality 100, cache directory |
| `AndroidLogic.RouteMixedArguments` | android/src/main/kotlin/world/nailao/video_thumbnail_plus/VideoThumbnailPlusPlugin.kt:56-62 | given values are kept and absent or null ones defaulted independently; the first mistyped argument names the failed call |
| `AndroidLogic.RouteCoerces` | android/src/main/kotlin/world/nailao/video_thumbnail_plus/VideoThumbnailPlusPlugin.kt:85-86 | a negative time becomes 0 and a quality outside [0, 100] the nearer bound; neither is refused |
| `AndroidLogic.ClassifySource` | android/src/main/kotlin/world/nailao/video_thumbnail_plus/VideoThumbnailPlusPlugin.kt:207-220 | remote with headers iff http(s); content resolver iff `content://` and not http(s); `file://` opens the rest; otherwise the string is the path |
| `AndroidLogic.FileUrlOpensItsPath` | android/src/main/kotlin/world/nailao/video_thumbnail_plus/VideoThumbnailPlusPlugin.kt:214-216 | `file://` followed by any path opens exactly that path |
| `AndroidLogic.HeadersOnlyForRemote` | android/src/main/kotlin/world/nailao/video_thumbnail_plus/VideoThumbnailPlusPlugin.kt:208-219 | headers change the source only for http(s) videos |
| `AndroidLogic.SeekTimeUs` | android/src/main/kotlin/world/nailao/video_thumbnail_plus/VideoThumbnailPlusPlugin.kt:222 | the seek is exactly `timeMs` thousand microseconds and fits a Long |
| `AndroidLogic.Extension` | android/src/main/kotlin/world/nailao/video_thumbnail_plus/VideoThumbnailPlusPlugin.kt:116-121 | "jpg" iff code 0, "webp" iff code 2, "png" otherwise |
| `AndroidLogic.CompressFormatFor` | android/src/main/kotlin/world/nailao/video_thumbnail_plus/VideoThumbnailPlusPlugin.kt:139-149 | JPEG iff 0; lossy WebP iff 2 on SDK >= R; legacy WebP iff 2 below R; PNG for every other code |
| `AndroidLogic.ExtensionMatchesEncoder` | android/src/main/kotlin/world/nailao/video_thumbnail_plus/VideoThumbnailPlusPlugin.kt:116-149 | the file extension names the encoder's output for every code and SDK level |
| `AndroidLogic.TargetSize` | android/src/main/kotlin/world/nailao/video_thumbnail_plus/VideoThumbnailPlusPlugin.kt:257-274 | the target size is at least 1x1 |
| `AndroidLogic.TargetSizeByWidth` | android/src/main/kotlin/world/nailao/video_thumbnail_plus/VideoThumbnailPlusPlugin.kt:266-269 | when the width ratio governs: width = bound, height = max(1, h*maxWidth / w) |
| `AndroidLogic.TargetSizeByHeight` | android/src/main/kotlin/world/nailao/video_thumbnail_plus/VideoThumbnailPlusPlugin.kt:270-273 | when the height ratio governs: height = bound, width = max(1, w*maxHeight / h) |
| `AndroidLogic.TargetSizeInIntegers` | android/src/main/kotlin/world/nailao/video_thumbnail_plus/VideoThumbnailPlusPlugin.kt:260-274 | the real-ratio computation equals an integer-only one, the governing axis chosen by cross products |
| `AndroidLogic.TargetSizeFitsBounds` | android/src/main/kotlin/world/nailao/video_thumbnail_plus/VideoThumbnailPlusPlugin.kt:260-265 | with both bounds the result fits both and reaches at least one |
| `AndroidLogic.TargetSizeKeepsAspect` | android/src/main/kotlin/world/nailao/video_thumbnail_plus/VideoThumbnailPlusPlugin.kt:260-274 | the derived side is within one pixel of the exact proportional length |
| `Storage.Disk.MakeDirectory` | android/src/main/kotlin/world/nailao/video_thumbnail_plus/VideoThumbnailPlusPlugin.kt:129 | the directory exists afterwards; files are unchanged |
| `Storage.Disk.CreateFile` | android/src/main/kotlin/world/nailao/video_thumbnail_plus/VideoThumbnailPlusPlugin.kt:138 | opening a file for writing leaves it empty; nothing else changes |
| `Storage.Disk.Append` | android/src/main/kotlin/world/nailao/video_thumbnail_plus/VideoThumbnailPlusPlugin.kt:150 | the encoder's bytes are added to the open file; nothing else changes |
| `Storage.Disk.WriteFile` | ios/Classes/VideoThumbnailPlusPlugin.swift:158 | the file holds exactly the data; nothing else changes |
| `AndroidPlugin.ThumbnailError` | android/src/main/kotlin/world/nailao/video_thumbnail_plus/VideoThumbnailPlusPlugin.kt:71 | the error reply is THUMBNAIL_ERROR with the exception's message, or "Unknown error" |
| `AndroidPlugin.Bitmap.Recycle` | android/src/main/kotlin/world/nailao/video_thumbnail_plus/VideoThumbnailPlusPlugin.kt:130 | each `recycle()` is counted |
| `AndroidPlugin.Retriever.SetDataSource` | android/src/main/kotlin/world/nailao/video_thumbnail_plus/VideoThumbnailPlusPlugin.kt:209 | the retriever records its source; the outcome is the platform's |
| `AndroidPlugin.Retriever.GetFrameAtTime` | android/src/main/kotlin/world/nailao/video_thumbnail_plus/VideoThumbnailPlusPlugin.kt:224 | records the seek; null iff no frame; otherwise a fresh, unrecycled bitmap of the frame's size, recorded as decoded by this retriever |
| `AndroidPlugin.Retriever.Close` | android/src/main/kotlin/world/nailao/video_thumbnail_plus/VideoThumbnailPlusPlugin.kt:234 | records one `close()` |
| `AndroidPlugin.Retriever.Release` | android/src/main/kotlin/world/nailao/video_thumbnail_plus/VideoThumbnailPlusPlugin.kt:241 | records one `release()` |
| `AndroidPlugin.CreateScaledBitmap` | android/src/main/kotlin/world/nailao/video_thumbnail_plus/VideoThumbnailPlusPlugin.kt:276 | the result has the requested size; it is the input iff the size is unchanged, else fresh |
| `AndroidPlugin.ScaleBitmap` | android/src/main/kotlin/world/nailao/video_thumbnail_plus/VideoThumbnailPlusPlugin.kt:249-281 | no bound: the input itself; else the target size; the original is recycled once iff a distinct bitmap replaces it |
| `AndroidPlugin.ThumbnailSize` | android/src/main/kotlin/world/nailao/video_thumbnail_plus/VideoThumbnailPlusPlugin.kt:226-228 | without a positive bound the frame keeps its size; with both bounds the thumbnail fits them |
| `AndroidPlugin.ExpectedFrame` | android/src/main/kotlin/world/nailao/video_thumbnail_plus/VideoThumbnailPlusPlugin.kt:197-247 | an error iff `setDataSource` throws, with its message; no frame iff the source opened and no frame was found at `timeMs` microseconds; otherwise the thumbnail size of that frame |
| `AndroidPlugin.CreateThumbnail` | android/src/main/kotlin/world/nailao/video_thumbnail_plus/VideoThumbnailPlusPlugin.kt:197-247 | the retriever is released exactly once (`close` from Q, else `release`); source and seek as classified; the result is `ExpectedFrame`; a frame is decoded iff one exists, it is the one bitmap the retriever returned, and it is either returned or recycled once in favour of a fresh, unrecycled scaled bitmap |
| `AndroidPlugin.OutputFile` | android/src/main/kotlin/world/nailao/video_thumbnail_plus/VideoThumbnailPlusPlugin.kt:123-135 | the file lies directly in the output directory and its name parses back to the unsigned digest, the time and the extension |
| `AndroidPlugin.AndroidFileName` | android/src/main/kotlin/world/nailao/video_thumbnail_plus/VideoThumbnailPlusPlugin.kt:134 | the name built from signed digest bytes is the shared name of their unsigned reading |
| `AndroidPlugin.WriteBitmap` | android/src/main/kotlin/world/nailao/video_thumbnail_plus/VideoThumbnailPlusPlugin.kt:137-156 | the bitmap is recycled exactly once; an unopenable file changes nothing; otherwise the file holds the encoder's bytes, and the result is the path iff `compress` succeeded |
| `AndroidPlugin.FileOutcome` | android/src/main/kotlin/world/nailao/video_thumbnail_plus/VideoThumbnailPlusPlugin.kt:103-159 | success iff a frame is decoded, the directory exists or is made, the file opens and `compress` succeeds; the value is the output file; no frame gives "Failed to extract frame from video" |
| `AndroidPlugin.DataOutcome` | android/src/main/kotlin/world/nailao/video_thumbnail_plus/VideoThumbnailPlusPlugin.kt:161-195 | success iff a frame is decoded and `compress` succeeds; the value is the encoder's bytes; no frame gives "Failed to extract frame from video" |
| `AndroidPlugin.GenerateThumbnailFile` | android/src/main/kotlin/world/nailao/video_thumbnail_plus/VideoThumbnailPlusPlugin.kt:103-159 | the result is `FileOutcome` over the directories that existed before; each exit (no source, no frame, no directory, unopenable file, failed compress, success) with its error and disk effect; retriever released once; the decoded frame and the thumbnail are each recycled exactly once |
| `AndroidPlugin.GenerateThumbnailData` | android/src/main/kotlin/world/nailao/video_thumbnail_plus/VideoThumbnailPlusPlugin.kt:161-195 | the result is `DataOutcome`; retriever released once; the decoded frame and the thumbnail are each recycled exactly once |
| `AndroidPlugin.OnMethodCall` | android/src/main/kotlin/world/nailao/video_thumbnail_plus/VideoThumbnailPlusPlugin.kt:48-100 | replies as routed; only dispatched file requests touch the disk; a dispatched request gets success with the path or bytes of `FileOutcome`/`DataOutcome`, or THUMBNAIL_ERROR with its exception's message; a frame is decoded iff one exists; the retriever and the decoded and thumbnail bitmaps are released exactly once |
| `IosLogic.AsString` | ios/Classes/VideoThumbnailPlusPlugin.swift:39 | a string argument is taken as is; anything else gives the default |
| `IosLogic.AsInt` | ios/Classes/VideoThumbnailPlusPlugin.swift:42-46 | an integer argument is taken as is; anything else gives the default |
| `IosLogic.AsHeaders` | ios/Classes/VideoThumbnailPlusPlugin.swift:40 | a string map is taken as is; anything else gives no headers |
| `IosLogic.ReadRequest` | ios/Classes/VideoThumbnailPlusPlugin.swift:38-46 | every field is its argument or its default (video "", PNG, bounds 0, time 0, quality 100); path only in file mode |
| `IosLogic.Handle` | ios/Classes/VideoThumbnailPlusPlugin.swift:22-36 | INVALID_ARGS iff the arguments are not a dictionary; else not implemented iff the name is neither "file" nor "data"; else the request as read |
| `IosLogic.HandleKeepsEveryRequest` | ios/Classes/VideoThumbnailPlusPlugin.swift:71-78 | any request, however out of range, is handed on exactly as sent |
| `IosLogic.HandleDefaults` | ios/Classes/VideoThumbnailPlusPlugin.swift:39-46 | an empty dictionary is not refused: video "", PNG, no bounds, time 0, quality 100 |
| `IosLogic.MistypedIsMissing` | ios/Classes/VideoThumbnailPlusPlugin.swift:72-78 | a null or wrongly typed argument behaves exactly like a missing one |
| `IosLogic.VideoUrlFor` | ios/Classes/VideoThumbnailPlusPlugin.swift:212-221 | "Invalid URL" (-3) iff http(s) and `URL(string:)` refuses it; a network URL iff http(s) and accepted; `file://` opens the rest; else the string is the path |
| `IosLogic.OnlyNetworkUrlsFail` | ios/Classes/VideoThumbnailPlusPlugin.swift:212-221 | a non-http(s) string always opens as a file path, independent of URL validity |
| `IosLogic.AssetFor` | ios/Classes/VideoThumbnailPlusPlugin.swift:223-228 | the asset carries the HTTP header fields iff there are headers, for any kind of URL |
| `IosLogic.MaximumSize` | ios/Classes/VideoThumbnailPlusPlugin.swift:235-239 | no box iff no bound is positive; both bounds give that box; one bound gives a square; the box is positive |
| `IosLogic.MaximumSizeKeepsBounds` | ios/Classes/VideoThumbnailPlusPlugin.swift:235-239 | a positive bound keeps its axis and neither side exceeds the larger bound |
| `IosLogic.RequestedTime` | ios/Classes/VideoThumbnailPlusPlugin.swift:241 | the requested time is `timeMs / 1000` seconds on timescale 1000 |
| `IosLogic.FileFormat` | ios/Classes/VideoThumbnailPlusPlugin.swift:125-139 | "jpg" iff 0, "webp" iff 2, else "png"; JPEG iff 0 at `quality / 100`, unclamped; PNG otherwise |
| `IosLogic.DataEncoding` | ios/Classes/VideoThumbnailPlusPlugin.swift:184-194 | JPEG at `quality / 100` iff code 0, PNG otherwise |
| `IosLogic.DataEncodingMatchesFile` | ios/Classes/VideoThumbnailPlusPlugin.swift:184-194 | data mode encodes every code and quality exactly as file mode does |
| `IosLogic.ExtensionMismatchOnlyForWebp` | ios/Classes/VideoThumbnailPlusPlugin.swift:132-135 | the extension misnames the bytes iff the code is WebP (PNG bytes under ".webp") |
| `IosPlugin.ImageGenerator.constructor` | ios/Classes/VideoThumbnailPlusPlugin.swift:230 | a new generator: no track transform, infinite tolerances, no size limit, no image copied |
| `IosPlugin.ImageGenerator.CopyCGImage` | ios/Classes/VideoThumbnailPlusPlugin.swift:244 | records the requested time; the image is the platform's for the asset, settings and time |
| `IosPlugin.ExpectedImage` | ios/Classes/VideoThumbnailPlusPlugin.swift:203-249 | "Invalid URL" (-3) iff the URL check fails; otherwise the generator's image, or its error |
| `IosPlugin.CreateThumbnail` | ios/Classes/VideoThumbnailPlusPlugin.swift:203-249 | an invalid URL throws before a generator exists; otherwise one fresh generator over the asset, with transform, zero tolerances and the box, asked for one image at `timeMs` |
| `IosPlugin.OutputFile` | ios/Classes/VideoThumbnailPlusPlugin.swift:145-156 | the file lies directly in the output directory and its name parses back to the digest, the time and the extension |
| `IosPlugin.FileOutcome` | ios/Classes/VideoThumbnailPlusPlugin.swift:102-161 | success iff the image is copied, encoded, the directory created and the file written; the value is the output file; a nil encoding gives -2 |
| `IosPlugin.DataOutcome` | ios/Classes/VideoThumbnailPlusPlugin.swift:163-201 | success iff the image is copied and encoded; the value is the encoded bytes; a nil encoding gives -2 |
| `IosPlugin.GenerateThumbnailFile` | ios/Classes/VideoThumbnailPlusPlugin.swift:102-161 | the result is `FileOutcome`; no failure leaves a file; a nil encoding (-2) comes before any directory or write; each exit with its error and disk effect; success writes the encoded bytes to the named cache file |
| `IosPlugin.GenerateThumbnailData` | ios/Classes/VideoThumbnailPlusPlugin.swift:163-201 | the result is `DataOutcome`: the encoded bytes, -2 on a nil encoding, or the generator's error |
| `IosPlugin.ThumbnailError` | ios/Classes/VideoThumbnailPlusPlugin.swift:63-66 | the error reply is THUMBNAIL_ERROR with the error's localized description |
| `IosPlugin.HandleCall` | ios/Classes/VideoThumbnailPlusPlugin.swift:22-100 | replies as handled; refused calls make no generator; only file requests touch the disk and failures leave no file; a queued request gets success with the path or bytes of `FileOutcome`/`DataOutcome`, or THUMBNAIL_ERROR with the error's localized description |
| `CrossPlatform.NormalisedRequestsDispatchAlike` | android/src/main/kotlin/world/nailao/video_thumbnail_plus/VideoThumbnailPlusPlugin.kt:56-62 | a request that is already normalised is dispatched unchanged on both platforms |
| `CrossPlatform.BlankVideoDiffers` | android/src/main/kotlin/world/nailao/video_thumbnail_plus/VideoThumbnailPlusPlugin.kt:52-55 | a blank video is refused on Android and handed on on iOS |
| `CrossPlatform.OutOfRangeValuesDiffer` | android/src/main/kotlin/world/nailao/video_thumbnail_plus/VideoThumbnailPlusPlugin.kt:61-62 | Android clamps a negative time and a quality above 100; iOS passes them on |
| `CrossPlatform.CheckOrderDiffers` | ios/Classes/VideoThumbnailPlusPlugin.swift:23-26 | unknown method without arguments: not implemented on Android, INVALID_ARGS on iOS; non-dictionary arguments: a cast failure on Android, INVALID_ARGS on iOS |
| `CrossPlatform.SourcesAgree` | ios/Classes/VideoThumbnailPlusPlugin.swift:212-221 | outside `content://` both platforms open the same location; iOS refuses only http(s) strings |
| `CrossPlatform.ContentUriDiffers` | android/src/main/kotlin/world/nailao/video_thumbnail_plus/VideoThumbnailPlusPlugin.kt:211-213 | a `content://` URI goes to the content resolver on Android and is a file path on iOS |
| `CrossPlatform.HeadersWithPathDiffer` | ios/Classes/VideoThumbnailPlusPlugin.swift:224-228 | headers with a local path are dropped on Android and attached to the asset on iOS |
| `CrossPlatform.ExtensionsAgree` | ios/Classes/VideoThumbnailPlusPlugin.swift:125-139 | both platforms give every format code the same extension |
| `CrossPlatform.SameOutputFile` | ios/Classes/VideoThumbnailPlusPlugin.swift:145-156 | with the same digest and cache directory both platforms write a request to the same file |
| `CrossPlatform.SeekTimesAgree` | ios/Classes/VideoThumbnailPlusPlugin.swift:241 | the Android microsecond seek and the iOS `CMTime` are the same instant |
| `CrossPlatform.ScaledSizeFitsIosBox` | ios/Classes/VideoThumbnailPlusPlugin.swift:235-239 | with both bounds, Android's scaled size fits the iOS box |
| `CrossPlatform.WidthOnlyBoundDiffers` | android/src/main/kotlin/world/nailao/video_thumbnail_plus/VideoThumbnailPlusPlugin.kt:266-269 | with only a width bound a portrait frame is taller on Android (50x100) than the square iOS box (50x50) |

## Left out

- Method-channel registration, marshalling and reply posting are left out (`onAttachedToEngine`,
  `register`, `mainHandler.post`, `DispatchQueue.main.async`). The executor and dispatch queue
  are also left out: the model runs each request to completion in one step.
- Frame decoding, image encoding, the MD5 digest, `URL(string:)` and the file-system calls are
  function-typed fields of the platform environments and are not modelled inside.
- `createScaledBitmap` returns its input exactly when the size is unchanged. This is the model's
  reading of the platform; the platform may in fact return a copy.
- An out-of-memory error inside `createScaledBitmap` is not modelled.
- `AndroidLogic.TargetSize` uses exact rational arithmetic where the Kotlin code uses `Float`.
  A float result may differ by one pixel at the edges.
- AndroidLogic.TargetSize: does not model `Float.toInt()` saturating at `Int.MAX_VALUE`
  (kt:264-273). The model's sizes are unbounded integers, which differ only for a derived side
  beyond 2^31 - 1 pixels.
- Path normalisation is not modelled. This covers `File.absolutePath`, the `.path` of a file
  `URL` and relative paths, so the model returns `<dir>/<name>` as built. The directory in the
  Android "Failed to create output directory" message is likewise unnormalised.
- `mkdirs` and `createDirectory` create missing parents. The model records only the target
  directory.
- A `Data.write` that fails part-way is taken to leave no file.
- An exception thrown by `close()` / `release()` is not modelled; the code catches and ignores it.
- A Kotlin cast that fails in `onMethodCall` is modelled only as "no reply" (`None`). The host
  runtime reports such an exception.
- A `Map` argument with non-string values passes Kotlin's erased cast, and the model does not
  represent it separately.
- A number that arrives as a double is the opaque `Other` value, so the model does not capture
  Swift's `as? Int` bridging of an integral `NSNumber`.
- Strings are sequences of code points. Swift's `hasPrefix` and `dropFirst(7)` work on grapheme
  clusters (swift:212-218). This differs from the model only when a combining mark follows the
  `http://`, `https://` or `file://` prefix; Swift then does not see the prefix.
- `jpegData` receives `quality / 100` unclamped. What it does with a value outside [0, 1] is
  platform behaviour.

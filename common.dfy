/** Types shared by the Android and the iOS halves of the plugin model. */
module Common {

  /** The usual optional value; `null` / `nil` in the source. */
  datatype Option<+T> = None | Some(value: T) {
    function GetOr(default: T): T {
      match this
      case Some(v) => v
      case None => default
    }
  }

  /** An outcome that is either a value or the error that ended the request. */
  datatype Result<+T, +E> = Ok(value: T) | Err(error: E) {
    predicate IsFailure() {
      Err?
    }

    function PropagateFailure<U>(): Result<U, E>
      requires Err?
    {
      Err(error)
    }

    function Extract(): T
      requires Ok?
    {
      value
    }
  }

  /** An unsigned byte (Swift `UInt8`, and the bytes of an encoded image). */
  newtype byte = x: int | 0 <= x < 0x100

  /** A signed byte (Kotlin/Java `Byte`). */
  newtype int8 = x: int | -0x80 <= x < 0x80

  /** Kotlin `Int`. */
  type Int32 = x: int | -0x8000_0000 <= x < 0x8000_0000

  /** Kotlin `Long`, Swift `Int` and `CMTimeValue`. */
  type Int64 = x: int | -0x8000_0000_0000_0000 <= x < 0x8000_0000_0000_0000

  /** An MD5 digest as Swift's `CC_MD5` fills it: 16 unsigned bytes. */
  type Digest = d: seq<byte> | |d| == 16 witness seq(16, i => 0 as byte)

  /** An MD5 digest as Java's `MessageDigest.digest` returns it: 16 signed bytes. */
  type SignedDigest = d: seq<int8> | |d| == 16 witness seq(16, i => 0 as int8)

  /** A width and a height in pixels. */
  datatype Size = Size(width: int, height: int)

  /** The size of a decoded frame: a bitmap or image is never empty. */
  type Dims = s: Size | s.width >= 1 && s.height >= 1 witness Size(1, 1)

  /**
   * One value of the argument dictionary a call carries across the method channel.
   * `Other` stands for any value of a type the plugin never reads (a list, a double, a map
   * with non-string entries, ...).
   */
  datatype ArgValue = Null | Str(s: string) | Int(i: Int64) | StrMap(m: map<string, string>) | Other

  /** The arguments of a call: none at all, a dictionary, or something that is not a dictionary. */
  datatype Arguments = NoArguments | Dictionary(entries: map<string, ArgValue>) | NotADictionary

  /** A thumbnail request once its arguments have been read. */
  datatype Request = Request(
    video: string,
    headers: map<string, string>,
    format: Int64,
    maxHeight: Int64,
    maxWidth: Int64,
    timeMs: Int64,
    quality: Int64)

  /** The arguments a caller would send for a given request. */
  function ArgumentsOf(mode: Mode, r: Request): Arguments {
    var entries := map[
      "video" := Str(r.video), "headers" := StrMap(r.headers), "format" := Int(r.format),
      "maxh" := Int(r.maxHeight), "maxw" := Int(r.maxWidth), "timeMs" := Int(r.timeMs),
      "quality" := Int(r.quality)];
    Dictionary(if mode.FileMode? then entries["path" := Str(mode.path)] else entries)
  }

  /** "file" writes the thumbnail under a directory (`path`, empty for the cache); "data" returns its bytes. */
  datatype Mode = FileMode(path: string) | DataMode

  /** What a call posts back to the host: a value, an error, or "not implemented". */
  datatype Payload = FilePath(path: string) | Bytes(data: seq<byte>)
  datatype Reply = Success(payload: Payload) | Error(code: string, message: string) | NotImplemented

  /** The format codes both platforms accept. */
  const FORMAT_JPEG := 0
  const FORMAT_PNG := 1
  const FORMAT_WEBP := 2

  function Max(a: int, b: int): int { if a < b then b else a }

  predicate StartsWith(s: string, prefix: string) {
    |prefix| <= |s| && s[..|prefix|] == prefix
  }
}

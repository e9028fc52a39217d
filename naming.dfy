/**
 * The cache file name both platforms give a thumbnail, `<md5 hex>_<timeMs>.<extension>`,
 * and the directory it is written to. The name is a function of (digest, timeMs, extension)
 * only, and it determines all three back: `ParseFileName` recovers them.
 */
module Naming {
  import opened Common
  import opened Text

  /** The sub-directory of the platform cache directory used when no path is given. */
  const THUMBNAIL_DIR := "video_thumbnails"

  /** `File(dir, name)` / `URL.appendingPathComponent(name)`. */
  function Join(dir: string, name: string): (p: string)
    ensures |p| == |dir| + 1 + |name|
    ensures p[..|dir|] == dir && p[|dir|] == '/' && p[|dir| + 1..] == name
  {
    dir + "/" + name
  }

  /** The explicit path when it is non-empty, otherwise `<cacheDir>/video_thumbnails`. */
  function OutputDir(path: string, cacheDir: string): (dir: string)
    ensures path != "" ==> dir == path
    ensures path == "" ==> dir == cacheDir + "/" + THUMBNAIL_DIR
  {
    if path != "" then path else Join(cacheDir, THUMBNAIL_DIR)
  }

  /** `"${md5(video)}_${timeMs}.$extension"`, given the digest of the video string. */
  function FileName(digest: Digest, timeMs: int, ext: string): (name: string)
    ensures |name| > 33 && name[32] == '_'
    ensures '/' !in ext ==> '/' !in name
  {
    Md5Hex(digest) + "_" + IntDecimal(timeMs) + "." + ext
  }

  /** The three things a file name is made of. */
  datatype NameParts = NameParts(digest: seq<byte>, timeMs: int, ext: string)

  /** The index of the first `c` in `s`, or `|s|` when there is none. */
  function IndexOf(s: string, c: char): (k: nat)
    ensures k <= |s|
    ensures k < |s| ==> s[k] == c
    ensures forall i | 0 <= i < k :: s[i] != c
  {
    if s == [] || s[0] == c then 0 else 1 + IndexOf(s[1..], c)
  }

  /** Splits a thumbnail file name back into its digest, time and extension. */
  function ParseFileName(name: string): Option<NameParts> {
    if |name| < 33 || name[32] != '_' then None
    else
      var rest := name[33..];
      var dot := IndexOf(rest, '.');
      if dot == |rest| then None
      else
        match (ParseHex(name[..32]), ParseInt(rest[..dot]))
        case (Some(d), Some(t)) => Some(NameParts(d, t, rest[dot + 1..]))
        case _ => None
  }

  /** The file name can be read back: it records the digest, the time and the extension. */
  lemma FileNameRoundTrip(digest: Digest, timeMs: int, ext: string)
    ensures ParseFileName(FileName(digest, timeMs, ext)) == Some(NameParts(digest, timeMs, ext))
  {
    var hex, dec := Md5Hex(digest), IntDecimal(timeMs);
    var name := FileName(digest, timeMs, ext);
    assert name == hex + "_" + (dec + "." + ext);
    assert |hex| == 32;
    assert name[..32] == hex;
    assert name[32] == '_';
    var rest := name[33..];
    assert rest == dec + "." + ext;
    Md5HexRoundTrip(digest);
    IntDecimalRoundTrip(timeMs);
    var dot := IndexOf(rest, '.');
    assert rest[|dec|] == '.';
    assert dot == |dec|;
    assert rest[..dot] == dec;
    assert rest[dot + 1..] == ext;
  }

  /**
   * A path names its directory and its last component: two joins with slash-free names are
   * equal exactly when their directories and their names are.
   */
  lemma JoinInjective(d1: string, n1: string, d2: string, n2: string)
    requires '/' !in n1 && '/' !in n2
    ensures Join(d1, n1) == Join(d2, n2) <==> d1 == d2 && n1 == n2
  {
  }

  /**
   * Content-addressed naming: two thumbnails get the same file name exactly when their
   * digests, times and extensions are equal. Headers, bounds and quality never enter the name,
   * and two format codes with the same extension share it.
   */
  lemma FileNameInjective(d1: Digest, t1: int, e1: string, d2: Digest, t2: int, e2: string)
    ensures FileName(d1, t1, e1) == FileName(d2, t2, e2) <==> d1 == d2 && t1 == t2 && e1 == e2
  {
    FileNameRoundTrip(d1, t1, e1);
    FileNameRoundTrip(d2, t2, e2);
  }

  /**
   * A thumbnail path determines where it lies and what it records: two output paths are
   * equal exactly when their directories, digests, times and extensions are.
   */
  lemma OutputPathInjective(dir1: string, d1: Digest, t1: int, e1: string,
                            dir2: string, d2: Digest, t2: int, e2: string)
    requires '/' !in e1 && '/' !in e2
    ensures Join(dir1, FileName(d1, t1, e1)) == Join(dir2, FileName(d2, t2, e2))
            <==> dir1 == dir2 && d1 == d2 && t1 == t2 && e1 == e2
  {
    JoinInjective(dir1, FileName(d1, t1, e1), dir2, FileName(d2, t2, e2));
    FileNameInjective(d1, t1, e1, d2, t2, e2);
  }
}

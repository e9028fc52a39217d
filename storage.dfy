/**
 * The part of the file system the plugin touches: which directories exist and what each file
 * holds. Whether a platform call on it succeeds is decided by the caller (the platforms' own
 * oracles); these methods only record the effect of a call that did.
 */
module Storage {
  import opened Common

  class Disk {
    var dirs: set<string>
    var files: map<string, seq<byte>>

    constructor (dirs: set<string>, files: map<string, seq<byte>>)
      ensures this.dirs == dirs && this.files == files
    {
      this.dirs := dirs;
      this.files := files;
    }

    /** Creates `dir` (with any missing parents, which the model does not track). */
    method MakeDirectory(dir: string)
      modifies this
      ensures dirs == old(dirs) + {dir}
      ensures files == old(files)
    {
      dirs := dirs + {dir};
    }

    /** Opens `path` for writing: creates the file, or truncates it when it exists. */
    method CreateFile(path: string)
      modifies this
      ensures files == old(files)[path := []]
      ensures dirs == old(dirs)
    {
      files := files[path := []];
    }

    /** Appends to a file that is open. */
    method Append(path: string, data: seq<byte>)
      requires path in files
      modifies this
      ensures files == old(files)[path := old(files)[path] + data]
      ensures dirs == old(dirs)
    {
      files := files[path := files[path] + data];
    }

    /** Replaces the contents of `path` in one write. */
    method WriteFile(path: string, data: seq<byte>)
      modifies this
      ensures files == old(files)[path := data]
      ensures dirs == old(dirs)
    {
      files := files[path := data];
    }
  }
}

/**
 * Attachments: the file name sent for a path and the encoded content read
 * from it. The file system is a map from path to entry, and the Base64
 * encoding is a function supplied with it.
 */
module Files {
  import opened Values
  import opened Errors

  datatype Entry = File(content: seq<bv8>) | Directory

  /** The files visible to the client and the text encoding applied to their bytes. */
  datatype FileSystem = FileSystem(entries: map<string, Entry>, encode: seq<bv8> -> string)

  /** `os.path.basename`: everything after the last `/` of the path. */
  function Basename(path: string): string {
    if |path| == 0 || path[|path| - 1] == '/' then ""
    else Basename(path[..|path| - 1]) + [path[|path| - 1]]
  }

  /**
   * The base name is the longest suffix of the path without a `/`: the whole
   * path when it has none, the empty string when it ends in `/`.
   */
  lemma {:induction false} BasenameIsLastSegment(path: string)
    ensures var name := Basename(path);
      |name| <= |path| && name == path[|path| - |name|..]
      && (forall i :: 0 <= i < |name| ==> name[i] != '/')
      && (|name| < |path| ==> path[|path| - |name| - 1] == '/')
  {
    if |path| > 0 && path[|path| - 1] != '/' {
      var rest := path[..|path| - 1];
      BasenameIsLastSegment(rest);
      var name := Basename(path);
      assert rest[|rest| - |Basename(rest)|..] + [path[|path| - 1]] == path[|path| - |name|..];
    }
  }

  /** A path the client can attach: an existing regular file with at least one byte. */
  predicate Readable(fs: FileSystem, path: string) {
    path in fs.entries && fs.entries[path].File? && |fs.entries[path].content| > 0
  }

  /** Every path of the list can be attached. */
  predicate AllReadable(fs: FileSystem, paths: seq<string>) {
    forall i :: 0 <= i < |paths| ==> Readable(fs, paths[i])
  }

  /**
   * Reads and encodes a file: missing paths, directories and empty files are
   * rejected, each with its own message.
   */
  function GetFileContent(fs: FileSystem, path: string): (r: Result<string>)
    ensures r.Ok? <==> Readable(fs, path)
    ensures r.Ok? ==> r.value == fs.encode(fs.entries[path].content)
    ensures path !in fs.entries ==> r == Err(Exception("File does not exists: " + path))
    ensures r.Err? ==> r.error.Exception?
  {
    if path !in fs.entries then Err(Exception("File does not exists: " + path))
    else if fs.entries[path].Directory? then Err(Exception("Not a file: " + path))
    else if |fs.entries[path].content| == 0 then Err(Exception("Error reading file or file empty: " + path))
    else Ok(fs.encode(fs.entries[path].content))
  }
}

/**
 * The flat parameter mapping every request sends: the fallback rule for
 * optional values, the check that no value is `None`, the numbered file
 * parameters and the `|`-joined destination list.
 */
module Parameters {
  import opened Values
  import opened Errors
  import opened Files

  /** Parameter name to value; `None` is a value the caller forgot to set. */
  type Params = map<string, Option<string>>

  /** Python truthiness of an optional string: `None` and `''` are false. */
  predicate Truthy(v: Option<string>) {
    v.Some? && v.value != ""
  }

  /** Python's `a or b`: `a` when it is truthy, `b` otherwise. */
  function Or(a: Option<string>, b: Option<string>): (r: Option<string>)
    ensures r == a || r == b
    ensures Truthy(a) ==> r == a
    ensures Truthy(r) <==> Truthy(a) || Truthy(b)
  {
    if Truthy(a) then a else b
  }

  /** Every parameter has a value. */
  predicate NoneFree(params: Params) {
    forall k :: k in params ==> params[k].Some?
  }

  /** The error raised for a parameter whose value is `None`. */
  function NotSet(key: string): Error {
    TypeError(key + " not set")
  }

  /**
   * Visits the keys in no particular order and fails on the first one whose
   * value is `None`; otherwise passes and leaves the mapping as it was.
   */
  method VerifyParameters(params: Params) returns (r: Outcome)
    ensures r.Pass? <==> NoneFree(params)
    ensures r.Fail? ==> exists k :: k in params && params[k] == None && r.error == NotSet(k)
  {
    var keys := params.Keys;
    while keys != {}
      invariant keys <= params.Keys
      invariant forall k :: k in params && k !in keys ==> params[k].Some?
      decreases |keys|
    {
      var key :| key in keys;
      if params[key] == None {
        return Fail(NotSet(key));
      }
      keys := keys - {key};
    }
    return Pass;
  }

  function DigitChar(d: nat): (c: char)
    requires d < 10
  {
    "0123456789"[d]
  }

  /** `'%d' % n`: the decimal digits of `n`. */
  function Decimal(n: nat): (s: string)
    ensures |s| >= 1
    ensures n >= 10 <==> |s| >= 2
  {
    if n < 10 then [DigitChar(n)] else Decimal(n / 10) + [DigitChar(n % 10)]
  }

  /** Different numbers have different decimal forms. */
  lemma {:induction false} DecimalInjective(a: nat, b: nat)
    requires Decimal(a) == Decimal(b)
    ensures a == b
  {
    if a >= 10 && b >= 10 {
      var da, db := Decimal(a), Decimal(b);
      assert da[..|da| - 1] == Decimal(a / 10) && db[..|db| - 1] == Decimal(b / 10);
      DecimalInjective(a / 10, b / 10);
      assert DigitChar(a % 10) == da[|da| - 1] == DigitChar(b % 10);
    }
  }

  /** `sFileName_k`. */
  function FileNameKey(k: nat): string {
    "sFileName_" + Decimal(k)
  }

  /** `sFileContent_k`. */
  function FileContentKey(k: nat): string {
    "sFileContent_" + Decimal(k)
  }

  /** The name keys `sFileName_1` .. `sFileName_n`. */
  function FileNameKeys(n: nat): set<string> {
    set k | 1 <= k <= n :: FileNameKey(k)
  }

  /** The name and content keys for `n` attachments. */
  function AttachmentKeys(n: nat): set<string> {
    FileNameKeys(n) + set k | 1 <= k <= n :: FileContentKey(k)
  }

  lemma FileNameKeysStep(n: nat)
    requires n >= 1
    ensures FileNameKeys(n) == FileNameKeys(n - 1) + {FileNameKey(n)}
  {
  }

  lemma AttachmentKeysStep(n: nat)
    requires n >= 1
    ensures AttachmentKeys(n) == AttachmentKeys(n - 1) + {FileNameKey(n), FileContentKey(n)}
  {
  }

  /** File parameters are told apart by their number, and a name key is never a content key. */
  lemma FileKeysDistinct(j: nat, k: nat)
    ensures FileNameKey(j) == FileNameKey(k) ==> j == k
    ensures FileContentKey(j) == FileContentKey(k) ==> j == k
    ensures FileNameKey(j) != FileContentKey(k)
  {
    var a, b := "sFileName_", "sFileContent_";
    if FileNameKey(j) == FileNameKey(k) {
      assert Decimal(j) == FileNameKey(j)[|a|..] == FileNameKey(k)[|a|..] == Decimal(k);
      DecimalInjective(j, k);
    }
    if FileContentKey(j) == FileContentKey(k) {
      assert Decimal(j) == FileContentKey(j)[|b|..] == FileContentKey(k)[|b|..] == Decimal(k);
      DecimalInjective(j, k);
    }
    assert FileNameKey(j)[5] != FileContentKey(k)[5];
  }

  /** A key that does not start with `?Fi` is not the key of any file parameter. */
  lemma NotAttachmentKey(key: string, n: nat)
    requires |key| < 3 || key[1] != 'F' || key[2] != 'i'
    ensures key !in AttachmentKeys(n) && key !in FileNameKeys(n)
  {
    forall k | 1 <= k <= n ensures key != FileNameKey(k) && key != FileContentKey(k) {
      assert FileNameKey(k)[1] == 'F' && FileNameKey(k)[2] == 'i';
      assert FileContentKey(k)[1] == 'F' && FileContentKey(k)[2] == 'i';
    }
  }

  /** The (base name, encoded content) pair sent for each readable path, in order. */
  function Attachments(fs: FileSystem, paths: seq<string>): (files: seq<(string, string)>)
    requires AllReadable(fs, paths)
    ensures |files| == |paths|
  {
    seq(|paths|, i requires 0 <= i < |paths| => (Basename(paths[i]), GetFileContent(fs, paths[i]).value))
  }

  /** The mapping with `sFileName_k` and `sFileContent_k` added for the k-th pair of `files`. */
  function WithFiles(params: Params, files: seq<(string, string)>): Params {
    if |files| == 0 then params
    else
      var n := |files|;
      WithFiles(params, files[..n - 1])[FileNameKey(n) := Some(files[n - 1].0)][FileContentKey(n) := Some(files[n - 1].1)]
  }

  /** The keys of the mapping are the given keys and the name and content keys for 1..N. */
  lemma {:induction false} FileParamKeys(params: Params, files: seq<(string, string)>)
    ensures WithFiles(params, files).Keys == params.Keys + AttachmentKeys(|files|)
  {
    var n := |files|;
    if n > 0 {
      FileParamKeys(params, files[..n - 1]);
      AttachmentKeysStep(n);
    }
  }

  /** A key the attachments do not use keeps its value. */
  lemma {:induction false} FileParamKept(params: Params, files: seq<(string, string)>, key: string)
    requires key in params && key !in AttachmentKeys(|files|)
    ensures key in WithFiles(params, files) && WithFiles(params, files)[key] == params[key]
  {
    var n := |files|;
    if n > 0 {
      AttachmentKeysStep(n);
      FileParamKept(params, files[..n - 1], key);
    }
  }

  /** The k-th pair, k = 1..N, gives `sFileName_k` and `sFileContent_k`, whatever follows it. */
  lemma {:induction false} FileParamAdded(params: Params, files: seq<(string, string)>, k: nat)
    requires 1 <= k <= |files|
    ensures FileNameKey(k) in WithFiles(params, files) && WithFiles(params, files)[FileNameKey(k)] == Some(files[k - 1].0)
    ensures FileContentKey(k) in WithFiles(params, files) && WithFiles(params, files)[FileContentKey(k)] == Some(files[k - 1].1)
  {
    var n := |files|;
    FileKeysDistinct(k, n);
    FileKeysDistinct(n, k);
    if k < n {
      var prev := files[..n - 1];
      FileParamAdded(params, prev, k);
      assert prev[k - 1] == files[k - 1];
    }
  }

  /**
   * The k-th pair, k = 1..N, gives `sFileName_k` and `sFileContent_k`; no
   * other key is added or changed.
   */
  lemma {:induction false} FileParamValues(params: Params, files: seq<(string, string)>)
    ensures forall k :: 1 <= k <= |files| ==>
      && FileNameKey(k) in WithFiles(params, files) && WithFiles(params, files)[FileNameKey(k)] == Some(files[k - 1].0)
      && FileContentKey(k) in WithFiles(params, files) && WithFiles(params, files)[FileContentKey(k)] == Some(files[k - 1].1)
    ensures forall key :: key in params && key !in AttachmentKeys(|files|) ==>
      key in WithFiles(params, files) && WithFiles(params, files)[key] == params[key]
  {
    forall k | 1 <= k <= |files|
      ensures FileNameKey(k) in WithFiles(params, files) && WithFiles(params, files)[FileNameKey(k)] == Some(files[k - 1].0)
      ensures FileContentKey(k) in WithFiles(params, files) && WithFiles(params, files)[FileContentKey(k)] == Some(files[k - 1].1)
    {
      FileParamAdded(params, files, k);
    }
    forall key | key in params && key !in AttachmentKeys(|files|)
      ensures key in WithFiles(params, files) && WithFiles(params, files)[key] == params[key]
    {
      FileParamKept(params, files, key);
    }
  }

  /** One more readable path adds its name and content parameters under the next number. */
  lemma AttachmentsStep(params: Params, fs: FileSystem, paths: seq<string>, i: nat)
    requires i < |paths| && AllReadable(fs, paths[..i + 1])
    ensures AllReadable(fs, paths[..i])
    ensures WithFiles(params, Attachments(fs, paths[..i + 1]))
      == WithFiles(params, Attachments(fs, paths[..i]))[FileNameKey(i + 1) := Some(Basename(paths[i]))]
           [FileContentKey(i + 1) := Some(GetFileContent(fs, paths[i]).value)]
  {
    var longer := Attachments(fs, paths[..i + 1]);
    assert paths[..i + 1][..i] == paths[..i];
    assert longer[..i] == Attachments(fs, paths[..i]);
  }

  /**
   * Adds the parameters of each attachment, in order, and fails with the
   * error of the first path that cannot be read.
   */
  method AddAttachments(params: Params, paths: seq<string>, fs: FileSystem) returns (r: Result<Params>)
    ensures r.Ok? <==> AllReadable(fs, paths)
    ensures r.Err? ==>
      exists j :: 0 <= j < |paths| && !Readable(fs, paths[j])
        && (forall i :: 0 <= i < j ==> Readable(fs, paths[i]))
        && r.error == GetFileContent(fs, paths[j]).error
    ensures r.Ok? ==> r.value == WithFiles(params, Attachments(fs, paths))
  {
    var out := params;
    var i := 0;
    while i < |paths|
      invariant 0 <= i <= |paths|
      invariant forall j :: 0 <= j < i ==> Readable(fs, paths[j])
      invariant out == WithFiles(params, Attachments(fs, paths[..i]))
    {
      var path := paths[i];
      out := out[FileNameKey(i + 1) := Some(Basename(path))];
      var content := GetFileContent(fs, path);
      if content.Err? {
        return Err(content.error);
      }
      out := out[FileContentKey(i + 1) := Some(content.value)];
      AttachmentsStep(params, fs, paths, i);
      i := i + 1;
    }
    assert paths[..i] == paths;
    return Ok(out);
  }

  /** The mapping with `sFileName_k` added for each of `names`. */
  function WithFileNames(params: Params, names: seq<string>): Params {
    if |names| == 0 then params
    else WithFileNames(params, names[..|names| - 1])[FileNameKey(|names|) := Some(names[|names| - 1])]
  }

  /** The keys of the mapping are the given keys and `sFileName_1` .. `sFileName_N`. */
  lemma {:induction false} FileNameParamKeys(params: Params, names: seq<string>)
    ensures WithFileNames(params, names).Keys == params.Keys + FileNameKeys(|names|)
  {
    var n := |names|;
    if n > 0 {
      FileNameParamKeys(params, names[..n - 1]);
      FileNameKeysStep(n);
    }
  }

  /** A key that is not a file name key keeps its value. */
  lemma {:induction false} FileNameKept(params: Params, names: seq<string>, key: string)
    requires key in params && key !in FileNameKeys(|names|)
    ensures key in WithFileNames(params, names) && WithFileNames(params, names)[key] == params[key]
  {
    var n := |names|;
    if n > 0 {
      FileNameKeysStep(n);
      FileNameKept(params, names[..n - 1], key);
    }
  }

  /** The k-th name, k = 1..N, becomes `sFileName_k`, whatever follows it. */
  lemma {:induction false} FileNameAdded(params: Params, names: seq<string>, k: nat)
    requires 1 <= k <= |names|
    ensures FileNameKey(k) in WithFileNames(params, names) && WithFileNames(params, names)[FileNameKey(k)] == Some(names[k - 1])
  {
    var n := |names|;
    FileKeysDistinct(k, n);
    if k < n {
      var prev := names[..n - 1];
      FileNameAdded(params, prev, k);
      assert prev[k - 1] == names[k - 1];
    }
  }

  /** Adds `sFileName_k` for the k-th file name, k = 1..N, in order. */
  method AddFileNames(params: Params, names: seq<string>) returns (r: Params)
    ensures r == WithFileNames(params, names)
  {
    r := params;
    var i := 0;
    while i < |names|
      invariant 0 <= i <= |names|
      invariant r == WithFileNames(params, names[..i])
    {
      r := r[FileNameKey(i + 1) := Some(names[i])];
      assert names[..i + 1][..i] == names[..i];
      i := i + 1;
    }
    assert names[..i] == names;
  }

  /** `sep.join(parts)`. */
  function Join(parts: seq<string>, sep: char): string {
    if |parts| == 0 then ""
    else if |parts| == 1 then parts[0]
    else parts[0] + [sep] + Join(parts[1..], sep)
  }

  /** `s.split(sep)`: the pieces between separators; the empty string gives one empty piece. */
  function Split(s: string, sep: char): (parts: seq<string>)
    ensures |parts| >= 1
  {
    if |s| == 0 then [""]
    else
      var rest := Split(s[1..], sep);
      if s[0] == sep then [""] + rest else [[s[0]] + rest[0]] + rest[1..]
  }

  lemma {:induction false} SplitSingle(a: string, sep: char)
    requires sep !in a
    ensures Split(a, sep) == [a]
  {
    if |a| > 0 {
      SplitSingle(a[1..], sep);
      assert a == [a[0]] + a[1..];
    }
  }

  lemma {:induction false} SplitAfterPiece(a: string, b: string, sep: char)
    requires sep !in a
    ensures Split(a + [sep] + b, sep) == [a] + Split(b, sep)
  {
    if |a| > 0 {
      SplitAfterPiece(a[1..], b, sep);
      assert (a + [sep] + b)[1..] == a[1..] + [sep] + b;
      assert a == [a[0]] + a[1..];
    } else {
      assert (a + [sep] + b)[1..] == b;
    }
  }

  /** Splitting a join of separator-free pieces gives the pieces back. */
  lemma {:induction false} SplitJoin(parts: seq<string>, sep: char)
    requires |parts| >= 1
    requires forall i :: 0 <= i < |parts| ==> sep !in parts[i]
    ensures Split(Join(parts, sep), sep) == parts
  {
    if |parts| == 1 {
      SplitSingle(parts[0], sep);
    } else {
      SplitJoin(parts[1..], sep);
      SplitAfterPiece(parts[0], Join(parts[1..], sep), sep);
    }
  }

  /** The separator occurs in the join of separator-free pieces exactly when there are two or more. */
  lemma {:induction false} JoinHasSeparator(parts: seq<string>, sep: char)
    requires forall i :: 0 <= i < |parts| ==> sep !in parts[i]
    ensures sep in Join(parts, sep) <==> |parts| > 1
  {
    if |parts| > 1 {
      assert Join(parts, sep)[|parts[0]|] == sep;
    }
  }
}

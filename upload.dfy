/** The name an uploaded photo is stored under (the `/upload` handler,
    api/index.js): the temporary path the upload middleware chose, a dot and
    the last dot-separated segment of the client's file name, with the first
    occurrence of the upload directory removed. */
module Upload {
  import opened Common

  /** The directory the upload middleware writes to. */
  const UploadsDir: string := "uploads/"

  /** A file as the upload middleware describes it. */
  datatype UploadedFile = UploadedFile(path: string, originalname: string)

  /** `s.split(sep)` for a one-character separator. */
  function Split(s: string, sep: char): (parts: seq<string>)
    ensures |parts| >= 1
    ensures forall i :: 0 <= i < |parts| ==> sep !in parts[i]
  {
    if s == [] then [[]]
    else
      var rest := Split(s[1..], sep);
      if s[0] == sep then [[]] + rest
      else [[s[0]] + rest[0]] + rest[1..]
  }

  /** `parts.join(sep)`. */
  function Join(parts: seq<string>, sep: char): string
    requires |parts| >= 1
  {
    if |parts| == 1 then parts[0] else parts[0] + [sep] + Join(parts[1..], sep)
  }

  /** Splitting loses nothing: joining the parts with the separator gives the string back. */
  lemma {:induction false} JoinSplit(s: string, sep: char)
    ensures Join(Split(s, sep), sep) == s
  {
    if s != [] {
      var rest := Split(s[1..], sep);
      JoinSplit(s[1..], sep);
      if s[0] == sep {
        assert Split(s, sep)[1..] == rest;
      } else {
        var parts := Split(s, sep);
        assert parts[1..] == rest[1..];
        if |rest| > 1 {
          assert Join(rest, sep) == rest[0] + [sep] + Join(rest[1..], sep);
        }
      }
    }
  }

  /** The text after the last `sep` of `s`, or all of `s` when it has none. */
  function LastSegment(s: string, sep: char): string
  {
    if sep in s then LastSegment(s[1..], sep) else s
  }

  /** The last segment is a suffix of `s` without the separator, and it is
      preceded by the separator unless it is all of `s`. */
  lemma {:induction false} LastSegmentIsSuffix(s: string, sep: char)
    ensures var r := LastSegment(s, sep);
      && sep !in r
      && |r| <= |s| && r == s[|s| - |r|..]
      && (|r| < |s| ==> s[|s| - |r| - 1] == sep)
  {
    if sep in s {
      LastSegmentIsSuffix(s[1..], sep);
      var r := LastSegment(s, sep);
      assert s[1..][|s| - 1 - |r|..] == s[|s| - |r|..];
    }
  }

  /** The last element of `s.split(sep)` is the last segment of `s`. */
  lemma {:induction false} SplitLast(s: string, sep: char)
    ensures Split(s, sep)[|Split(s, sep)| - 1] == LastSegment(s, sep)
  {
    if s == [] {
      assert Split(s, sep) == [[]];
      assert LastSegment(s, sep) == [];
    } else {
      var t := s[1..];
      var rest := Split(t, sep);
      var parts := Split(s, sep);
      SplitLast(t, sep);
      if s[0] == sep {
        assert parts == [[]] + rest;
        assert sep in s;
        assert LastSegment(s, sep) == LastSegment(t, sep);
        assert parts[|parts| - 1] == rest[|rest| - 1];
      } else if |rest| == 1 {
        SingleSegment(t, sep);
        assert parts == [[s[0]] + t];
        assert s == [s[0]] + t;
        assert LastSegment(s, sep) == s;
      } else {
        assert parts == [[s[0]] + rest[0]] + rest[1..];
        if sep !in t {
          NoSeparatorSplit(t, sep);
        }
        assert parts[|parts| - 1] == rest[|rest| - 1];
        assert sep in s;
        assert LastSegment(s, sep) == LastSegment(t, sep);
      }
    }
  }

  /** A string that splits into one part has no separator and is that part. */
  lemma SingleSegment(t: string, sep: char)
    requires |Split(t, sep)| == 1
    ensures Split(t, sep) == [t] && sep !in t
  {
    JoinSplit(t, sep);
  }

  /** A string without the separator splits into itself alone. */
  lemma {:induction false} NoSeparatorSplit(s: string, sep: char)
    requires sep !in s
    ensures Split(s, sep) == [s]
  {
    if s != [] {
      NoSeparatorSplit(s[1..], sep);
      assert s == [s[0]] + s[1..];
    }
  }

  /** `pat` occurs in `s` starting at index `i`. */
  predicate OccursAt(s: string, pat: string, i: nat)
  {
    i + |pat| <= |s| && s[i..i + |pat|] == pat
  }

  /** The first index at which `pat` occurs in `s`, if it occurs at all. */
  function IndexOf(s: string, pat: string): (r: Option<nat>)
    ensures r.Some? ==> OccursAt(s, pat, r.value)
    ensures r.Some? ==> forall j: nat :: j < r.value ==> !OccursAt(s, pat, j)
    ensures r.None? ==> forall j: nat :: !OccursAt(s, pat, j)
    decreases |s|
  {
    if |s| < |pat| then None
    else if s[..|pat|] == pat then Some(0)
    else
      var k := IndexOf(s[1..], pat);
      ShiftOccurs(s, pat);
      if k.None? then None else Some(k.value + 1)
  }

  /** An occurrence in the tail of `s` is an occurrence in `s` one place later. */
  lemma ShiftOccurs(s: string, pat: string)
    requires |s| >= 1
    ensures forall j: nat :: j >= 1 ==> (OccursAt(s, pat, j) <==> OccursAt(s[1..], pat, j - 1))
  {
  }

  /** `s.replace(pat, rep)` with a string pattern: only the first occurrence is replaced. */
  function ReplaceFirst(s: string, pat: string, rep: string): string
  {
    match IndexOf(s, pat)
    case None => s
    case Some(i) => s[..i] + rep + s[i + |pat|..]
  }

  /** A string without the pattern comes back unchanged; otherwise the
      pattern's first occurrence, and only that one, is replaced. */
  lemma ReplaceFirstSpec(s: string, pat: string, rep: string)
    ensures (forall j: nat :: !OccursAt(s, pat, j)) ==> ReplaceFirst(s, pat, rep) == s
    ensures forall i: nat :: OccursAt(s, pat, i) && (forall j: nat :: j < i ==> !OccursAt(s, pat, j)) ==>
      ReplaceFirst(s, pat, rep) == s[..i] + rep + s[i + |pat|..]
  {
  }

  /** The path a file is renamed to: its temporary path, a dot and the extension. */
  function RenamedPath(f: UploadedFile): string
  {
    f.path + "." + LastSegment(f.originalname, '.')
  }

  /** The name under which one uploaded file is reported back to the client. */
  function StoredName(f: UploadedFile): string
  {
    ReplaceFirst(RenamedPath(f), UploadsDir, "")
  }

  /** For a path inside the upload directory, as the middleware produces, the
      reported name is the path below that directory, a dot, and the extension. */
  lemma StoredNameInUploads(f: UploadedFile)
    requires |f.path| >= |UploadsDir| && f.path[..|UploadsDir|] == UploadsDir
    ensures StoredName(f) == f.path[|UploadsDir|..] + "." + LastSegment(f.originalname, '.')
  {
  }

  /** One step of the upload loop: the path the file is renamed to and the
      name reported for it, computed as the handler does, through `split`. */
  method RenameOne(f: UploadedFile) returns (newPath: string, name: string)
    ensures newPath == RenamedPath(f) && name == StoredName(f)
  {
    var parts := Split(f.originalname, '.');
    var ext := parts[|parts| - 1];
    SplitLast(f.originalname, '.');
    newPath := f.path + "." + ext;
    name := ReplaceFirst(newPath, UploadsDir, "");
  }

  /** The upload loop: each file is renamed to its path plus extension, and the
      list sent back holds the stored names, one per file, in the files' order.
      `renames` lists the `(from, to)` pairs of the file-system renames. */
  method RenameUploads(files: seq<UploadedFile>) returns (uploaded: seq<string>, renames: seq<(string, string)>)
    ensures |uploaded| == |files| && |renames| == |files|
    ensures forall i :: 0 <= i < |files| ==> uploaded[i] == StoredName(files[i])
    ensures forall i :: 0 <= i < |files| ==> renames[i] == (files[i].path, RenamedPath(files[i]))
  {
    uploaded, renames := [], [];
    for i := 0 to |files|
      invariant |uploaded| == i && |renames| == i
      invariant forall k :: 0 <= k < i ==> uploaded[k] == StoredName(files[k])
      invariant forall k :: 0 <= k < i ==> renames[k] == (files[k].path, RenamedPath(files[k]))
    {
      var newPath, name := RenameOne(files[i]);
      renames := renames + [(files[i].path, newPath)];
      uploaded := uploaded + [name];
    }
  }
}

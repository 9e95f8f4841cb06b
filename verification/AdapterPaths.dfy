/** Where adapter exports may write (`_safe_relative_output_path`, `AdapterExport.__post_init__` and
    `_AdapterCheckpointSource.from_exports` in vrl/trainers/checkpointing.py). */
module AdapterPaths {
  import opened Sequences

  /** A path is the list of its segments. */
  type Path = seq<string>

  /** `str.split("/")`. */
  function Split(value: string): (path: Path)
    ensures path != []
    ensures forall i :: 0 <= i < |path| ==> '/' !in path[i]
  {
    if value == "" then [""]
    else
      var rest := Split(value[1..]);
      if value[0] == '/' then [""] + rest else [[value[0]] + rest[0]] + rest[1..]
  }

  function Join(path: Path): string {
    if path == [] then "" else if |path| == 1 then path[0] else path[0] + "/" + Join(path[1..])
  }

  /** Splitting loses nothing, so different export names are different paths. */
  lemma {:induction false} JoinSplit(value: string)
    ensures Join(Split(value)) == value
  {
    if value != "" {
      var rest := Split(value[1..]);
      JoinSplit(value[1..]);
      if value[0] == '/' {
        assert ([""] + rest)[1..] == rest;
      } else {
        var path := [[value[0]] + rest[0]] + rest[1..];
        assert path[1..] == rest[1..];
        assert value == [value[0]] + value[1..];
      }
    }
  }

  // ---- Safe names ---------------------------------------------------------------------------

  /** What `str.strip` removes. */
  predicate IsSpace(c: char) {
    || '\U{0009}' <= c <= '\U{000D}' || '\U{001C}' <= c <= '\U{0020}' || c == '\U{0085}' || c == '\U{00A0}'
    || c == '\U{1680}' || '\U{2000}' <= c <= '\U{200A}' || c == '\U{2028}' || c == '\U{2029}'
    || c == '\U{202F}' || c == '\U{205F}' || c == '\U{3000}'
  }

  predicate Trimmed(value: string) {
    value != "" && !IsSpace(value[0]) && !IsSpace(value[|value| - 1])
  }

  /** `PureWindowsPath(value).drive`, for a value that starts with no separator. */
  predicate HasDrive(value: string) { |value| >= 2 && value[1] == ':' }

  /** What `_safe_relative_output_path` accepts, check by check. */
  predicate Safe(value: string, allowNested: bool) {
    && Trimmed(value)
    && value[0] != '/'
    && !HasDrive(value)
    && '\\' !in value
    && (forall i :: 0 <= i < |Split(value)| ==> Split(value)[i] !in {"", ".", ".."})
    && (allowNested || |Split(value)| == 1)
  }

  /** An accepted path names a place below its base: no segment is empty, the base or its parent, and
      none holds a separator. */
  lemma SafeStaysBelow(value: string, allowNested: bool)
    requires Safe(value, allowNested)
    ensures forall i :: 0 <= i < |Split(value)| ==>
              var s := Split(value)[i]; s != "" && s != "." && s != ".." && '/' !in s && '\\' !in s
    ensures !allowNested ==> Split(value) == [value]
  {
    JoinSplit(value);
    forall i | 0 <= i < |Split(value)| ensures '\\' !in Split(value)[i] {
      SplitChars(value, i);
    }
  }

  lemma {:induction false} SplitChars(value: string, i: nat)
    requires i < |Split(value)|
    ensures forall c :: c in Split(value)[i] ==> c in value
  {
    if value != "" {
      var rest := Split(value[1..]);
      var k := if value[0] == '/' then (if i == 0 then 0 else i - 1) else i;
      SplitChars(value[1..], k);
      assert value == [value[0]] + value[1..];
      if value[0] == '/' {
        assert i > 0 ==> Split(value)[i] == rest[i - 1];
      } else {
        assert i > 0 ==> Split(value)[i] == rest[i];
        assert Split(value)[0] == [value[0]] + rest[0];
      }
    }
  }

  /** A segment names a file or a directory below the one before it. */
  ghost predicate CleanSegment(s: string) {
    s != "" && s != "." && s != ".." && '/' !in s && '\\' !in s
  }

  /** The segments of a path can be read back off its name. */
  lemma {:induction false} SplitJoin(path: Path)
    requires path != [] && forall s :: s in path ==> '/' !in s
    ensures Split(Join(path)) == path
  {
    if |path| == 1 {
      SplitHead(path[0], "");
      assert Join(path) == path[0] + "" && path[0] + "" == path[0];
    } else {
      var tail := "/" + Join(path[1..]);
      SplitJoin(path[1..]);
      SplitSlash(Join(path[1..]));
      SplitHead(path[0], tail);
      assert Join(path) == path[0] + tail && path[0] + "" == path[0];
      hide Split, Join;
      assert Split(tail)[0] == "" && Split(tail)[1..] == path[1..];
    }
  }

  /** Characters before the first separator belong to the first segment. */
  lemma {:induction false} SplitHead(head: string, tail: string)
    requires '/' !in head
    ensures Split(head + tail) == [head + Split(tail)[0]] + Split(tail)[1..]
  {
    if head == "" {
      var t := Split(tail);
      assert head + tail == tail && head + t[0] == t[0];
      assert [head + t[0]] + t[1..] == t;
    } else {
      assert (head + tail)[1..] == head[1..] + tail;
      SplitHead(head[1..], tail);
      var rest, t := Split(head[1..] + tail), Split(tail);
      assert head[0] in head && Split(head + tail) == [[head[0]] + rest[0]] + rest[1..];
      assert rest[0] == head[1..] + t[0] && rest[1..] == t[1..];
      assert [head[0]] + (head[1..] + t[0]) == head + t[0];
      assert [[head[0]] + rest[0]] + rest[1..] == [head + t[0]] + t[1..];
    }
  }

  lemma SplitSlash(rest: string)
    ensures Split("/" + rest) == [""] + Split(rest)
  {
    assert ("/" + rest)[1..] == rest;
  }

  lemma {:induction false} JoinChars(path: Path, c: char)
    requires c in Join(path) && c != '/'
    ensures exists s :: s in path && c in s
  {
    if |path| == 1 {
      assert c in path[0];
    } else {
      assert Join(path) == path[0] + "/" + Join(path[1..]);
      if c in path[0] {
        assert path[0] in path;
      } else {
        JoinChars(path[1..], c);
      }
    }
  }

  /** The accepted names are exactly the clean segments joined, one of them when nesting is not allowed,
      that neither begin nor end with white space and have no colon in the second place. */
  lemma SafeIff(value: string, allowNested: bool)
    ensures Safe(value, allowNested) <==>
              && value != "" && !IsSpace(value[0]) && !IsSpace(value[|value| - 1])
              && (|value| > 1 ==> value[1] != ':')
              && exists path :: path != [] && (forall s :: s in path ==> CleanSegment(s)) && value == Join(path)
                                && (allowNested || |path| == 1)
  {
    if Safe(value, allowNested) {
      SafeStaysBelow(value, allowNested);
      JoinSplit(value);
      assert forall s :: s in Split(value) ==> CleanSegment(s);
    } else if path: Path :| path != [] && (forall s :: s in path ==> CleanSegment(s)) && value == Join(path)
                            && (allowNested || |path| == 1) {
      JoinedIsSafe(path);
    }
  }

  lemma JoinedIsSafe(path: Path)
    requires path != [] && forall s :: s in path ==> CleanSegment(s)
    ensures var value := Join(path);
            && Split(value) == path && value != "" && value[0] != '/' && '\\' !in value
            && forall i :: 0 <= i < |path| ==> path[i] !in {"", ".", ".."}
  {
    SplitJoin(path);
    JoinStart(path);
    if '\\' in Join(path) {
      JoinChars(path, '\\');
    }
    assert forall i :: 0 <= i < |path| ==> path[i] in path;
    hide Split, Join;
  }

  lemma JoinStart(path: Path)
    requires path != [] && CleanSegment(path[0])
    ensures Join(path) != "" && Join(path)[0] == path[0][0] != '/'
  {
  }

  // ---- Exports ------------------------------------------------------------------------------

  const DEFAULT := "default"

  /** An export's name and the adapter saved under it; the default adapter is written into the
      directory itself. */
  datatype Export = Export(name: string, adapter: string) {
    function Directory(): Path { Split(name) }

    function Output(): Path { if adapter == DEFAULT then Directory() else Directory() + [adapter] }
  }

  /** One of the paths is the other or one of its parents. */
  predicate Overlap(a: Path, b: Path) { a <= b || b <= a }

  ghost predicate PairwiseApart(exports: seq<Export>) {
    forall i, j :: 0 <= i < j < |exports| ==> !Overlap(exports[i].Directory(), exports[j].Directory())
  }

  /** Two exports that would write the same adapter path have overlapping directories: the first of
      the two checks in the loop is never the only one to fire. */
  lemma SameOutputOverlaps(a: Export, b: Export)
    requires a.Output() == b.Output()
    ensures Overlap(a.Directory(), b.Directory())
  {
    var shared, p, q := a.Output(), a.Directory(), b.Directory();
    assert p == shared[..|p|] && q == shared[..|q|];
    assert |p| <= |q| ==> p == q[..|p|];
    assert |q| <= |p| ==> q == p[..|q|];
  }

  /** No file lies below two accepted exports. */
  lemma NoFileShared(exports: seq<Export>, i: nat, j: nat, file: Path)
    requires PairwiseApart(exports) && i < |exports| && j < |exports|
    requires exports[i].Directory() <= file && exports[j].Directory() <= file
    ensures i == j
  {
    var a, b := exports[i].Directory(), exports[j].Directory();
    assert a == file[..|a|] && b == file[..|b|];
    assert |a| <= |b| ==> a == b[..|a|];
    assert |b| <= |a| ==> b == a[..|b|];
  }

  /** The path checks of `from_exports`, in a loop over the export mapping: they accept exactly the safe
      names whose directories do not overlap. */
  method FromExports(exports: seq<Export>) returns (accepted: bool)
    ensures accepted <==> (forall i :: 0 <= i < |exports| ==> Safe(exports[i].name, true)) && PairwiseApart(exports)
  {
    var outputs: seq<Path>, effective: set<Path> := [], {};
    hide Safe, Split;
    for i := 0 to |exports|
      invariant |outputs| == i && forall j :: 0 <= j < i ==>
                outputs[j] == exports[j].Directory() && Safe(exports[j].name, true)
      invariant effective == set j | 0 <= j < i :: exports[j].Output()
      invariant PairwiseApart(exports[..i])
    {
      var e := exports[i];
      if !Safe(e.name, true) {
        return false;
      }
      if e.Output() in effective {
        var j :| 0 <= j < i && exports[j].Output() == e.Output();
        SameOutputOverlaps(exports[j], e);
        return false;
      }
      for j := 0 to i
        invariant forall k :: 0 <= k < j ==> !Overlap(outputs[k], e.Directory())
      {
        if outputs[j] == e.Directory() || outputs[j] <= e.Directory() || e.Directory() <= outputs[j] {
          return false;
        }
      }
      outputs := outputs + [e.Directory()];
      effective := effective + {e.Output()};
    }
    assert exports[..|exports|] == exports;
    return true;
  }
}

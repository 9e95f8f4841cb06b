/** The byte stream a local checkpoint tree is hashed from (vrl/models/checkpoint_identity.py): it
    determines the tree, and it does not depend on the order a directory is listed in. Bytes are
    characters; names are their own encoding. */
module TreeStream {
  import opened Sequences

  datatype Node = File(payload: string) | Directory(children: seq<Child>)
  datatype Child = Child(name: string, node: Node)

  /** One hashed node: its path and, for a file, its payload. */
  datatype Record = Record(path: string, payload: Option<string>)

  predicate Free(s: string, c: char) { forall i :: 0 <= i < |s| ==> s[i] != c }

  /** A file name: not empty, no NUL, no slash. */
  predicate NameOk(name: string) { name != "" && Free(name, '\0') && Free(name, '/') }

  /** Any listing: good names, each once. */
  ghost predicate Listing(n: Node)
    decreases n
  {
    n.Directory? ==>
      && (forall i :: 0 <= i < |n.children| ==> NameOk(n.children[i].name) && Listing(n.children[i].node))
      && (forall i, j :: 0 <= i < j < |n.children| ==> n.children[i].name != n.children[j].name)
  }

  /** A listing whose directories are sorted by name. */
  ghost predicate Canonical(n: Node)
    decreases n
  {
    n.Directory? ==>
      && (forall i :: 0 <= i < |n.children| ==> NameOk(n.children[i].name) && Canonical(n.children[i].node))
      && (forall i, j :: 0 <= i < j < |n.children| ==> Less(n.children[i].name, n.children[j].name))
  }

  function Join(relative: string, name: string): string {
    if relative == "" then name else relative + "/" + name
  }

  // ---- Content and stream -----------------------------------------------------------------

  /** The nodes in hashing order, each directory before its children. */
  function Records(relative: string, n: Node): seq<Record>
    decreases n, 1
  {
    match n
    case File(payload) => [Record(relative, Some(payload))]
    case Directory(children) => [Record(relative, None)] + ChildRecords(relative, n, 0)
  }

  /** The records of the children from the `i`-th on. */
  function ChildRecords(relative: string, n: Node, i: nat): seq<Record>
    requires n.Directory? && i <= |n.children|
    decreases n, 0, |n.children| - i
  {
    if i == |n.children| then []
    else Records(Join(relative, n.children[i].name), n.children[i].node) + ChildRecords(relative, n, i + 1)
  }

  /** What a tree holds, in no order: the reference the stream is measured against. */
  ghost function Entries(relative: string, n: Node): set<Record> {
    Elements(Records(relative, n))
  }

  function Digits(n: nat): string {
    if n < 10 then [Digit(n)] else Digits(n / 10) + [Digit(n % 10)]
  }

  function Digit(d: nat): char
    requires d < 10
  {
    "0123456789"[d]
  }

  function Encode(r: Record): string {
    match r.payload
    case None => "dir\0" + r.path + "\0"
    case Some(payload) => "file\0" + r.path + "\0" + Digits(|payload|) + "\0" + payload + "\0"
  }

  function Flatten(records: seq<Record>): string {
    if records == [] then "" else Encode(records[0]) + Flatten(records[1..])
  }

  // ---- Sorting ----------------------------------------------------------------------------

  function Insert(c: Child, cs: seq<Child>): seq<Child> {
    if cs == [] || Less(c.name, cs[0].name) then [c] + cs else [cs[0]] + Insert(c, cs[1..])
  }

  function SortChildren(cs: seq<Child>): seq<Child> {
    if cs == [] then [] else Insert(cs[0], SortChildren(cs[1..]))
  }

  function Sort(n: Node): Node
    decreases n, 1
  {
    match n
    case File(_) => n
    case Directory(_) => Directory(SortChildren(SortEach(n, 0)))
  }

  function SortEach(n: Node, i: nat): (sorted: seq<Child>)
    requires n.Directory? && i <= |n.children|
    ensures |sorted| == |n.children| - i
    ensures forall j :: 0 <= j < |sorted| ==> sorted[j] == Child(n.children[i + j].name, Sort(n.children[i + j].node))
    decreases n, 0, |n.children| - i
  {
    if i == |n.children| then []
    else [Child(n.children[i].name, Sort(n.children[i].node))] + SortEach(n, i + 1)
  }

  /** The bytes fed to the digest for a listed tree. */
  function Stream(n: Node): string {
    Flatten(Records("", Sort(n)))
  }

  // ---- Splitting at a separator -----------------------------------------------------------

  /** Nothing, or something that begins with the separator. */
  predicate Rest(s: string, c: char) { s == "" || s[0] == c }

  lemma {:induction false} SplitAt(a: string, x: string, b: string, y: string, c: char)
    requires a + x == b + y && Free(a, c) && Free(b, c) && Rest(x, c) && Rest(y, c)
    ensures a == b && x == y
  {
    if a == "" || b == "" {
      assert a == "" ==> a + x == x;
      assert b == "" ==> b + y == y;
    } else {
      assert (a + x)[0] == a[0] && (b + y)[0] == b[0];
      assert (a + x)[1..] == a[1..] + x && (b + y)[1..] == b[1..] + y;
      SplitAt(a[1..], x, b[1..], y, c);
      assert a == [a[0]] + a[1..] && b == [b[0]] + b[1..];
    }
  }

  /** `q` is the node at `p` or lies below it. */
  predicate Under(p: string, q: string) { p <= q && Rest(q[|p|..], '/') }

  lemma UnderSibling(relative: string, m: string, n: string, q: string)
    requires NameOk(m) && NameOk(n) && Under(Join(relative, m), q) && Under(Join(relative, n), q)
    ensures m == n
  {
    var head := if relative == "" then "" else relative + "/";
    assert Join(relative, m) == head + m && Join(relative, n) == head + n;
    var x, y := q[|head + m|..], q[|head + n|..];
    assert q == head + m + x && q == head + n + y;
    assert q[|head|..] == m + x && q[|head|..] == n + y;
    SplitAt(m, x, n, y, '/');
  }

  lemma UnderTwice(p: string, q: string, r: string)
    requires Under(p, q) && Under(q, r)
    ensures Under(p, r)
  {
    assert r[..|p|] == q[..|p|];
    if |q| > |p| {
      assert r[|p|..][0] == r[|p|] == q[|p|] == q[|p|..][0];
    } else {
      assert p == q;
    }
  }

  lemma ChildUnder(relative: string, name: string)
    requires NameOk(name) && relative != ""
    ensures Under(relative, Join(relative, name))
  {
    assert Join(relative, name)[|relative|..] == "/" + name;
  }

  // ---- Records and their tree -------------------------------------------------------------

  lemma {:induction false} ChildRecord(relative: string, n: Node, i: nat, r: Record)
    requires n.Directory? && i <= |n.children|
    ensures r in ChildRecords(relative, n, i) <==>
              exists j :: i <= j < |n.children| && r in Records(Join(relative, n.children[j].name), n.children[j].node)
    decreases |n.children| - i
  {
    if i < |n.children| {
      ChildRecord(relative, n, i + 1, r);
      var first := Records(Join(relative, n.children[i].name), n.children[i].node);
      assert ChildRecords(relative, n, i) == first + ChildRecords(relative, n, i + 1);
      if j :| i <= j < |n.children| && r in Records(Join(relative, n.children[j].name), n.children[j].node) {
        assert j == i || i + 1 <= j;
      }
    }
  }

  /** Every record of a non-root node lies at or under its path. */
  lemma {:induction false} RecordsUnder(p: string, n: Node, r: Record)
    requires p != "" && Listing(n) && r in Records(p, n)
    ensures Under(p, r.path)
    decreases n
  {
    if n.Directory? && r.path != p {
      ChildRecord(p, n, 0, r);
      var j :| 0 <= j < |n.children| && r in Records(Join(p, n.children[j].name), n.children[j].node);
      RecordsUnder(Join(p, n.children[j].name), n.children[j].node, r);
      ChildUnder(p, n.children[j].name);
      UnderTwice(p, Join(p, n.children[j].name), r.path);
    }
  }

  // ---- The content determines the sorted tree -----------------------------------------------

  /** A name is listed exactly when the content has a node right below under that name. */
  lemma ListedName(relative: string, n: Node, name: string)
    requires n.Directory? && Listing(n) && NameOk(name)
    ensures (exists j :: 0 <= j < |n.children| && n.children[j].name == name) <==>
              exists r :: r in Entries(relative, n) && r.path == Join(relative, name) && r.path != relative
  {
    var p := Join(relative, name);
    if j :| 0 <= j < |n.children| && n.children[j].name == name {
      ListedHasRecord(relative, n, j);
    }
    if r :| r in Entries(relative, n) && r.path == p && r.path != relative {
      ChildRecord(relative, n, 0, r);
      var j :| 0 <= j < |n.children| && r in Records(Join(relative, n.children[j].name), n.children[j].node);
      RecordsUnder(Join(relative, n.children[j].name), n.children[j].node, r);
      hide Records, ChildRecords;
      assert p[|p|..] == "";
      UnderSibling(relative, name, n.children[j].name, p);
    }
  }

  lemma ListedHasRecord(relative: string, n: Node, j: nat)
    requires n.Directory? && Listing(n) && j < |n.children|
    ensures exists r :: r in Entries(relative, n) && r.path == Join(relative, n.children[j].name) && r.path != relative
  {
    var p := Join(relative, n.children[j].name);
    var r := Records(p, n.children[j].node)[0];
    assert r in Records(p, n.children[j].node) && r.path == p && |p| > |relative|;
    ChildRecord(relative, n, 0, r);
    assert r in Entries(relative, n);
  }

  /** The part of the content at or under a child is the child's content. */
  lemma ChildEntries(relative: string, n: Node, i: nat)
    requires n.Directory? && Listing(n) && i < |n.children|
    ensures var p := Join(relative, n.children[i].name);
            Entries(p, n.children[i].node) == set r | r in Entries(relative, n) && Under(p, r.path)
  {
    var name := n.children[i].name;
    var p := Join(relative, name);
    forall r | r in Entries(p, n.children[i].node) ensures r in Entries(relative, n) && Under(p, r.path) {
      ChildRecord(relative, n, 0, r);
      RecordsUnder(p, n.children[i].node, r);
    }
    forall r | r in Entries(relative, n) && Under(p, r.path) ensures r in Entries(p, n.children[i].node) {
      assert |relative| < |p| <= |r.path|;
      ChildRecord(relative, n, 0, r);
      var j :| 0 <= j < |n.children| && r in Records(Join(relative, n.children[j].name), n.children[j].node);
      RecordsUnder(Join(relative, n.children[j].name), n.children[j].node, r);
      UnderSibling(relative, name, n.children[j].name, r.path);
      assert j == i;
    }
  }

  lemma EmptyAlike(a: seq<string>, b: seq<string>)
    requires forall x :: x in a <==> x in b
    ensures a == [] <==> b == []
  {
    assert a != [] ==> a[0] in b;
    assert b != [] ==> b[0] in a;
  }

  lemma HeadLeast(a: seq<string>, x: string)
    requires Sorted(a) && x in a
    ensures x == a[0] || Less(a[0], x)
  {
    var i := IndexOf(a, x);
  }

  lemma LessOneWay(a: string, b: string)
    ensures !Less(a, b) || !Less(b, a)
  {
    if Less(a, b) {
      LessAsymmetric(a, b);
    }
  }

  lemma TailNames(a: seq<string>, x: string)
    requires a != [] && Sorted(a)
    ensures x in a[1..] <==> x in a && x != a[0]
  {
    if x in a[1..] {
      var i := IndexOf(a[1..], x);
      assert Less(a[0], a[i + 1]);
      LessIrreflexive(x);
    }
  }

  /** Strictly sorted name lists with the same names are the same list. */
  lemma {:induction false} SortedSame(a: seq<string>, b: seq<string>)
    requires Sorted(a) && Sorted(b) && forall x :: x in a <==> x in b
    ensures a == b
  {
    EmptyAlike(a, b);
    if a != [] {
      HeadLeast(a, b[0]);
      HeadLeast(b, a[0]);
      LessOneWay(a[0], b[0]);
      forall x ensures x in a[1..] <==> x in b[1..] {
        TailNames(a, x);
        TailNames(b, x);
      }
      SortedSame(a[1..], b[1..]);
    }
  }

  lemma {:induction false} CanonicalListing(n: Node)
    requires Canonical(n)
    ensures Listing(n)
    decreases n
  {
    if n.Directory? {
      forall i | 0 <= i < |n.children| ensures Listing(n.children[i].node) {
        CanonicalListing(n.children[i].node);
      }
      forall i, j | 0 <= i < j < |n.children| ensures n.children[i].name != n.children[j].name {
        LessIrreflexive(n.children[i].name);
      }
    }
  }

  function NamesOf(n: Node): seq<string>
    requires n.Directory?
  {
    Image((c: Child) => c.name, n.children)
  }

  /** Only a directory's own record has its path. */
  lemma Deeper(relative: string, n: Node, r: Record)
    requires n.Directory? && Listing(n) && r in ChildRecords(relative, n, 0)
    ensures r.path != relative
  {
    ChildRecord(relative, n, 0, r);
    var j :| 0 <= j < |n.children| && r in Records(Join(relative, n.children[j].name), n.children[j].node);
    RecordsUnder(Join(relative, n.children[j].name), n.children[j].node, r);
  }

  lemma OwnRecord(relative: string, n: Node, r: Record)
    requires Listing(n) && r in Entries(relative, n) && r.path == relative
    ensures r == Records(relative, n)[0]
  {
    if n.Directory? && r in ChildRecords(relative, n, 0) {
      Deeper(relative, n, r);
    }
  }

  lemma NameCarries(relative: string, a: Node, b: Node, i: nat)
    requires a.Directory? && b.Directory? && Listing(a) && Listing(b) && Entries(relative, a) == Entries(relative, b)
    requires i < |a.children|
    ensures a.children[i].name in NamesOf(b)
  {
    var name := a.children[i].name;
    ListedName(relative, a, name);
    ListedName(relative, b, name);
    var j :| 0 <= j < |b.children| && b.children[j].name == name;
    assert NamesOf(b)[j] == name;
  }

  lemma SameNames(relative: string, a: Node, b: Node)
    requires a.Directory? && b.Directory? && Canonical(a) && Canonical(b)
              && Entries(relative, a) == Entries(relative, b)
    ensures NamesOf(a) == NamesOf(b)
  {
    CanonicalListing(a);
    CanonicalListing(b);
    forall i | 0 <= i < |a.children| ensures NamesOf(a)[i] in NamesOf(b) {
      NameCarries(relative, a, b, i);
    }
    forall i | 0 <= i < |b.children| ensures NamesOf(b)[i] in NamesOf(a) {
      NameCarries(relative, b, a, i);
    }
    SortedSame(NamesOf(a), NamesOf(b));
  }

  lemma {:induction false} ContentDetermines(relative: string, a: Node, b: Node)
    requires Canonical(a) && Canonical(b) && Entries(relative, a) == Entries(relative, b)
    ensures a == b
    decreases a
  {
    CanonicalListing(a);
    CanonicalListing(b);
    var own := Records(relative, a)[0];
    assert own in Records(relative, a) && own in Entries(relative, b);
    OwnRecord(relative, b, own);
    if a.Directory? {
      SameNames(relative, a, b);
      forall i | 0 <= i < |a.children| ensures a.children[i] == b.children[i] {
        assert NamesOf(a)[i] == NamesOf(b)[i];
        ChildEntries(relative, a, i);
        ChildEntries(relative, b, i);
        ContentDetermines(Join(relative, a.children[i].name), a.children[i].node, b.children[i].node);
      }
      assert a.children == b.children;
    }
  }

  // ---- Sorting keeps the content ------------------------------------------------------------

  lemma LessTransitive(a: string, b: string, c: string)
    requires Less(a, b) && Less(b, c)
    ensures Less(a, c)
  {
    if a != [] && a[0] == b[0] && b[0] == c[0] {
      LessTransitive(a[1..], b[1..], c[1..]);
    }
  }

  predicate Ordered(cs: seq<Child>) {
    forall i, j :: 0 <= i < j < |cs| ==> Less(cs[i].name, cs[j].name)
  }

  lemma {:induction false} InsertOk(c: Child, cs: seq<Child>)
    requires Ordered(cs) && forall d :: d in cs ==> d.name != c.name
    ensures Ordered(Insert(c, cs)) && multiset(Insert(c, cs)) == multiset(cs) + multiset{c}
  {
    if cs == [] {
    } else {
      assert cs[0] in cs;
      LessTotal(c.name, cs[0].name);
      if Less(c.name, cs[0].name) {
        forall i | 0 <= i < |cs| ensures Less(c.name, cs[i].name) {
          if i > 0 {
            LessTransitive(c.name, cs[0].name, cs[i].name);
          }
        }
      } else {
        var tail := Insert(c, cs[1..]);
        InsertOk(c, cs[1..]);
        forall i | 0 <= i < |tail| ensures Less(cs[0].name, tail[i].name) {
          assert tail[i] in multiset(tail);
          assert tail[i] == c || tail[i] in cs[1..];
        }
        assert cs == [cs[0]] + cs[1..];
      }
    }
  }

  lemma {:induction false} SortChildrenOk(cs: seq<Child>)
    requires forall i, j :: 0 <= i < j < |cs| ==> cs[i].name != cs[j].name
    ensures Ordered(SortChildren(cs)) && multiset(SortChildren(cs)) == multiset(cs)
  {
    if cs != [] {
      SortChildrenOk(cs[1..]);
      assert cs == [cs[0]] + cs[1..];
      forall d | d in SortChildren(cs[1..]) ensures d.name != cs[0].name {
        assert d in multiset(SortChildren(cs[1..]));
        var i := IndexOf(cs[1..], d);
        assert cs[i + 1] == d;
      }
      InsertOk(cs[0], SortChildren(cs[1..]));
    }
  }

  /** Each child of `a` has a child of `b` with its name and content. */
  ghost predicate Mirrored(relative: string, a: Node, b: Node)
    requires a.Directory? && b.Directory?
  {
    forall i :: 0 <= i < |a.children| ==> HasTwin(relative, a.children[i], b)
  }

  ghost predicate HasTwin(relative: string, c: Child, b: Node)
    requires b.Directory?
  {
    exists j :: 0 <= j < |b.children| && b.children[j].name == c.name
                && Entries(Join(relative, c.name), c.node) == Entries(Join(relative, c.name), b.children[j].node)
  }

  lemma MirroredSubset(relative: string, a: Node, b: Node)
    requires a.Directory? && b.Directory? && Mirrored(relative, a, b)
    ensures Entries(relative, a) <= Entries(relative, b)
  {
    forall r | r in Entries(relative, a) ensures r in Entries(relative, b) {
      if r in ChildRecords(relative, a, 0) {
        ChildRecord(relative, a, 0, r);
        var i :| 0 <= i < |a.children| && r in Records(Join(relative, a.children[i].name), a.children[i].node);
        assert HasTwin(relative, a.children[i], b);
        assert r in Entries(Join(relative, a.children[i].name), a.children[i].node);
        ChildRecord(relative, b, 0, r);
      }
    }
  }

  /** Sorting a listing gives a canonical tree with the same content. */
  lemma {:induction false} SortOk(relative: string, n: Node)
    requires Listing(n)
    ensures Canonical(Sort(n)) && Entries(relative, Sort(n)) == Entries(relative, n)
    decreases n
  {
    if n.Directory? {
      var each := SortEach(n, 0);
      var sorted := Sort(n);
      SortChildrenOk(each);
      forall j | 0 <= j < |n.children| ensures each[j] in sorted.children && each[j].name == n.children[j].name {
        assert each[j] in multiset(sorted.children);
      }
      forall c | c in sorted.children ensures c in each {
        assert c in multiset(each);
      }
      forall j | 0 <= j < |n.children|
        ensures Canonical(each[j].node)
        ensures Entries(Join(relative, each[j].name), each[j].node) ==
                  Entries(Join(relative, each[j].name), n.children[j].node)
      {
        SortOk(Join(relative, each[j].name), n.children[j].node);
      }
      SortedMirrors(relative, n, each, sorted);
    }
  }

  lemma SortedMirrors(relative: string, n: Node, each: seq<Child>, sorted: Node)
    requires n.Directory? && sorted.Directory? && |each| == |n.children| && Listing(n) && Ordered(sorted.children)
    requires forall j :: 0 <= j < |each| ==>
              each[j].name == n.children[j].name && Canonical(each[j].node) && each[j] in sorted.children
    requires forall c :: c in sorted.children ==> c in each
    requires forall j :: 0 <= j < |each| ==>
               Entries(Join(relative, each[j].name), each[j].node) ==
                   Entries(Join(relative, each[j].name), n.children[j].node)
    ensures Canonical(sorted) && Entries(relative, sorted) == Entries(relative, n)
  {
    hide Entries;
    forall i | 0 <= i < |sorted.children|
      ensures NameOk(sorted.children[i].name) && Canonical(sorted.children[i].node)
                && HasTwin(relative, sorted.children[i], n)
    {
      var j := IndexOf(each, sorted.children[i]);
      assert n.children[j].name == each[j].name;
    }
    forall j | 0 <= j < |n.children| ensures HasTwin(relative, n.children[j], sorted) {
      var i := IndexOf(sorted.children, each[j]);
      assert sorted.children[i].name == n.children[j].name;
    }
    MirroredSubset(relative, n, sorted);
    MirroredSubset(relative, sorted, n);
  }

  // ---- The stream determines the records ------------------------------------------------------

  lemma {:induction false} DigitsFree(n: nat)
    ensures Free(Digits(n), '\0') && |Digits(n)| > 0
  {
    if n >= 10 {
      DigitsFree(n / 10);
    }
  }

  lemma {:induction false} DigitsInjective(m: nat, n: nat)
    requires Digits(m) == Digits(n)
    ensures m == n
  {
    DigitsLength(m);
    DigitsLength(n);
    if m < 10 || n < 10 {
      assert Digits(m)[0] == Digits(n)[0];
    } else {
      LastDigit(m);
      LastDigit(n);
      hide Digits, Digit;
      DigitsInjective(m / 10, n / 10);
      DigitInjective(m % 10, n % 10);
    }
  }

  lemma DigitsLength(n: nat)
    ensures |Digits(n)| == 1 <==> n < 10
  {
    if n >= 10 {
      DigitsFree(n / 10);
    }
  }

  lemma LastDigit(n: nat)
    requires n >= 10
    ensures var d := Digits(n); |d| > 0 && d[..|d| - 1] == Digits(n / 10) && d[|d| - 1] == Digit(n % 10)
  {
  }

  lemma DigitInjective(a: nat, b: nat)
    requires a < 10 && b < 10 && Digit(a) == Digit(b)
    ensures a == b
  {
  }

  /** A field ended by NUL is read back. */
  lemma ReadField(a: string, x: string, b: string, y: string)
    requires Free(a, '\0') && Free(b, '\0') && a + "\0" + x == b + "\0" + y
    ensures a == b && x == y
  {
    assert a + "\0" + x == a + ("\0" + x) && b + "\0" + y == b + ("\0" + y);
    SplitAt(a, "\0" + x, b, "\0" + y, '\0');
    assert ("\0" + x)[1..] == x && ("\0" + y)[1..] == y;
  }

  /** A length-delimited payload is read back whatever it contains. */
  lemma ReadPayload(a: string, x: string, b: string, y: string)
    requires Digits(|a|) + "\0" + (a + x) == Digits(|b|) + "\0" + (b + y)
    ensures a == b && x == y
  {
    DigitsFree(|a|);
    DigitsFree(|b|);
    ReadField(Digits(|a|), a + x, Digits(|b|), b + y);
    DigitsInjective(|a|, |b|);
    assert (a + x)[..|a|] == a && (b + y)[..|b|] == b;
    assert (a + x)[|a|..] == x && (b + y)[|b|..] == y;
  }

  lemma ReadFile(r: Record, x: string, q: Record, y: string)
    requires Free(r.path, '\0') && Free(q.path, '\0') && r.payload.Some? && q.payload.Some?
    requires Encode(r) + x == Encode(q) + y
    ensures r == q && x == y
  {
    var a, b := r.payload.value, q.payload.value;
    FileTail(r, x);
    FileTail(q, y);
    hide Encode, Digits;
    ReadField(r.path, PayloadField(a, x), q.path, PayloadField(b, y));
    ReadPayload(a, "\0" + x, b, "\0" + y);
    assert ("\0" + x)[1..] == x && ("\0" + y)[1..] == y;
  }

  /** The length, the payload and what follows it. */
  function PayloadField(payload: string, x: string): string {
    Digits(|payload|) + "\0" + (payload + ("\0" + x))
  }

  lemma FileTail(r: Record, x: string)
    requires r.payload.Some?
    ensures |Encode(r) + x| >= 5 && (Encode(r) + x)[5..] == r.path + "\0" + PayloadField(r.payload.value, x)
  {
    assert Encode(r) + x == "file\0" + (r.path + "\0" + PayloadField(r.payload.value, x));
  }

  /** One record and what follows it are read back. */
  lemma ReadRecord(r: Record, x: string, q: Record, y: string)
    requires Free(r.path, '\0') && Free(q.path, '\0') && Encode(r) + x == Encode(q) + y
    ensures r == q && x == y
  {
    assert (Encode(r) + x)[0] == (if r.payload.None? then 'd' else 'f');
    assert (Encode(q) + y)[0] == (if q.payload.None? then 'd' else 'f');
    if r.payload.None? {
      assert (Encode(r) + x)[4..] == r.path + "\0" + x;
      assert (Encode(q) + y)[4..] == q.path + "\0" + y;
      ReadField(r.path, x, q.path, y);
    } else {
      ReadFile(r, x, q, y);
    }
  }

  ghost predicate PathsFree(records: seq<Record>) {
    forall i :: 0 <= i < |records| ==> Free(records[i].path, '\0')
  }

  lemma {:induction false} FlattenInjective(a: seq<Record>, b: seq<Record>)
    requires PathsFree(a) && PathsFree(b) && Flatten(a) == Flatten(b)
    ensures a == b
  {
    assert a != [] ==> |Flatten(a)| > 0;
    assert b != [] ==> |Flatten(b)| > 0;
    if a != [] && b != [] {
      ReadRecord(a[0], Flatten(a[1..]), b[0], Flatten(b[1..]));
      FlattenInjective(a[1..], b[1..]);
    }
  }

  lemma {:induction false} RecordPathsFree(relative: string, n: Node, r: Record)
    requires Listing(n) && Free(relative, '\0') && r in Records(relative, n)
    ensures Free(r.path, '\0')
    decreases n
  {
    if n.Directory? && r in ChildRecords(relative, n, 0) {
      ChildRecord(relative, n, 0, r);
      var j :| 0 <= j < |n.children| && r in Records(Join(relative, n.children[j].name), n.children[j].node);
      RecordPathsFree(Join(relative, n.children[j].name), n.children[j].node, r);
    }
  }

  lemma StreamPathsFree(n: Node)
    requires Canonical(n)
    ensures PathsFree(Records("", n))
  {
    CanonicalListing(n);
    forall i | 0 <= i < |Records("", n)| ensures Free(Records("", n)[i].path, '\0') {
      RecordPathsFree("", n, Records("", n)[i]);
    }
  }

  /** Two listed trees feed the digest the same bytes exactly when they hold the same files and
      directories: the stream is uniquely decodable and blind to listing order. */
  lemma SameStreamIffSameContent(a: Node, b: Node)
    requires Listing(a) && Listing(b)
    ensures Stream(a) == Stream(b) <==> Entries("", a) == Entries("", b)
  {
    SortOk("", a);
    SortOk("", b);
    if Stream(a) == Stream(b) {
      StreamPathsFree(Sort(a));
      StreamPathsFree(Sort(b));
      FlattenInjective(Records("", Sort(a)), Records("", Sort(b)));
    } else if Entries("", a) == Entries("", b) {
      ContentDetermines("", Sort(a), Sort(b));
    }
  }

  // ---- The hashing walk -----------------------------------------------------------------------

  function Files(n: Node): nat
    decreases n, 1
  {
    match n
    case File(_) => 1
    case Directory(_) => ChildFiles(n, 0)
  }

  function ChildFiles(n: Node, i: nat): nat
    requires n.Directory? && i <= |n.children|
    decreases n, 0, |n.children| - i
  {
    if i == |n.children| then 0 else Files(n.children[i].node) + ChildFiles(n, i + 1)
  }

  function Bytes(n: Node): nat
    decreases n, 1
  {
    match n
    case File(payload) => |payload|
    case Directory(_) => ChildBytes(n, 0)
  }

  function ChildBytes(n: Node, i: nat): nat
    requires n.Directory? && i <= |n.children|
    decreases n, 0, |n.children| - i
  {
    if i == |n.children| then 0 else Bytes(n.children[i].node) + ChildBytes(n, i + 1)
  }

  lemma {:induction false} FlattenAppend(a: seq<Record>, b: seq<Record>)
    ensures Flatten(a + b) == Flatten(a) + Flatten(b)
  {
    hide Encode;
    if a == [] {
      assert a + b == b;
    } else {
      FlattenAppend(a[1..], b);
      assert (a + b)[1..] == a[1..] + b && (a + b)[0] == a[0];
      Regroup(Encode(a[0]), Flatten(a[1..]), Flatten(b));
    }
  }

  class Digest {
    var stream: string

    constructor ()
      ensures stream == ""
    {
      stream := "";
    }

    method Update(data: string)
      modifies this
      ensures stream == old(stream) + data
    {
      stream := stream + data;
    }
  }

  method HashFileHeader(digest: Digest, payload: string, relative: string)
    modifies digest
    ensures digest.stream == old(digest.stream) + ("file\0" + relative + "\0" + Digits(|payload|) + "\0")
  {
    hide Digits;
    digest.Update("file\0");
    digest.Update(relative);
    digest.Update("\0");
    digest.Update(Digits(|payload|));
    digest.Update("\0");
  }

  /** The regular-file branch of `_hash_local_node`: the payload is read in chunks of any size. */
  method HashFile(digest: Digest, payload: string, relative: string, chunk: nat) returns (bytes: nat)
    requires chunk > 0
    modifies digest
    ensures digest.stream == old(digest.stream) + Encode(Record(relative, Some(payload))) && bytes == |payload|
  {
    hide Digits;
    HashFileHeader(digest, payload, relative);
    ghost var before := digest.stream;
    bytes := 0;
    while bytes < |payload|
      invariant 0 <= bytes <= |payload| && digest.stream == before + payload[..bytes]
    {
      var end := if bytes + chunk < |payload| then bytes + chunk else |payload|;
      digest.Update(payload[bytes..end]);
      assert payload[..end] == payload[..bytes] + payload[bytes..end];
      bytes := end;
    }
    assert payload[..bytes] == payload;
    digest.Update("\0");
  }

  method HashDirectoryName(digest: Digest, relative: string)
    modifies digest
    ensures digest.stream == old(digest.stream) + Encode(Record(relative, None))
  {
    digest.Update("dir\0");
    digest.Update(relative);
    digest.Update("\0");
  }

  // ---- Sorting one directory at a time --------------------------------------------------------

  function SortNodes(cs: seq<Child>): seq<Child> {
    Image((c: Child) => Child(c.name, Sort(c.node)), cs)
  }

  lemma {:induction false} InsertNodes(c: Child, cs: seq<Child>)
    ensures SortNodes(Insert(c, cs)) == Insert(Child(c.name, Sort(c.node)), SortNodes(cs))
  {
    if cs != [] && !Less(c.name, cs[0].name) {
      InsertNodes(c, cs[1..]);
      assert SortNodes(cs)[1..] == SortNodes(cs[1..]);
    }
  }

  /** Sorting a directory's names before its subtrees or after them is the same. */
  lemma {:induction false} SortChildrenNodes(cs: seq<Child>)
    ensures SortChildren(SortNodes(cs)) == SortNodes(SortChildren(cs))
  {
    if cs != [] {
      SortChildrenNodes(cs[1..]);
      InsertNodes(cs[0], SortChildren(cs[1..]));
      assert SortNodes(cs)[1..] == SortNodes(cs[1..]);
    }
  }

  lemma SortedDirectory(n: Node)
    requires n.Directory?
    ensures Sort(n) == Directory(SortNodes(SortChildren(n.children)))
  {
    assert SortEach(n, 0) == SortNodes(n.children);
    SortChildrenNodes(n.children);
  }

  lemma {:induction false} InsertMembers(c: Child, cs: seq<Child>)
    ensures forall d :: d in Insert(c, cs) ==> d == c || d in cs
  {
    if cs != [] && !Less(c.name, cs[0].name) {
      InsertMembers(c, cs[1..]);
    }
  }

  lemma {:induction false} SortMembers(cs: seq<Child>)
    ensures forall d :: d in SortChildren(cs) ==> d in cs
  {
    if cs != [] {
      SortMembers(cs[1..]);
      InsertMembers(cs[0], SortChildren(cs[1..]));
    }
  }

  lemma SmallerChild(n: Node, c: Child)
    requires n.Directory? && c in n.children
    ensures c.node < n
  {
    assert n.children[IndexOf(n.children, c)] == c;
  }

  /** `_hash_local_node`: each directory is sorted as it is entered. The walk feeds the digest the stream
      of the listed tree, and counts its files and bytes. */
  method HashLocalNode(digest: Digest, n: Node, relative: string, chunk: nat) returns (bytes: nat, files: nat)
    requires chunk > 0
    modifies digest
    ensures digest.stream == old(digest.stream) + Flatten(Records(relative, Sort(n)))
    ensures bytes == Bytes(n) && files == Files(n)
    decreases n, 1
  {
    match n {
      case File(payload) =>
        hide Encode, Flatten;
        bytes := HashFile(digest, payload, relative, chunk);
        files := 1;
        FlattenOne(Record(relative, Some(payload)));
      case Directory(_) =>
        bytes, files := HashDirectory(digest, n, relative, chunk);
        SameCounts(n);
    }
  }

  method HashDirectory(digest: Digest, n: Node, relative: string, chunk: nat) returns (bytes: nat, files: nat)
    requires chunk > 0 && n.Directory?
    modifies digest
    ensures digest.stream == old(digest.stream) + Flatten(Records(relative, Sort(n)))
    ensures bytes == SumBytes(SortChildren(n.children)) && files == SumFiles(SortChildren(n.children))
    decreases n, 0
  {
    hide Encode, Flatten, Files, Bytes, SortChildren;
    var children := SortChildren(n.children);
    ghost var m := Sort(n);
    SortedDirectory(n);
    SortMembers(n.children);
    hide Sort;
    HashDirectoryName(digest, relative);
    ghost var own := digest.stream;
    bytes, files := 0, 0;
    for i := 0 to |children|
      invariant digest.stream + Flatten(ChildRecords(relative, m, i)) == own + Flatten(ChildRecords(relative, m, 0))
      invariant bytes + SumBytes(children[i..]) == SumBytes(children)
                && files + SumFiles(children[i..]) == SumFiles(children)
    {
      var child := children[i];
      SmallerChild(n, child);
      assert m.children[i] == Child(child.name, Sort(child.node));
      assert children[i..][1..] == children[i + 1..];
      FlattenAppend(Records(Join(relative, child.name), Sort(child.node)), ChildRecords(relative, m, i + 1));
      ghost var before := digest.stream;
      var childBytes, childFiles := HashLocalNode(digest, child.node, Join(relative, child.name), chunk);
      bytes, files := bytes + childBytes, files + childFiles;
      Regroup(before, Flatten(Records(Join(relative, child.name), Sort(child.node))),
          Flatten(ChildRecords(relative, m, i + 1)));
    }
    FlattenOne(Record(relative, None));
    FlattenAppend([Record(relative, None)], ChildRecords(relative, m, 0));
    Regroup(old(digest.stream), Encode(Record(relative, None)), Flatten(ChildRecords(relative, m, 0)));
    FlattenNone();
    assert digest.stream + "" == digest.stream;
  }

  // ---- Counts do not depend on the order ------------------------------------------------------

  function SumBytes(cs: seq<Child>): nat {
    if cs == [] then 0 else Bytes(cs[0].node) + SumBytes(cs[1..])
  }

  function SumFiles(cs: seq<Child>): nat {
    if cs == [] then 0 else Files(cs[0].node) + SumFiles(cs[1..])
  }

  lemma {:induction false} InsertSums(c: Child, cs: seq<Child>)
    ensures SumBytes(Insert(c, cs)) == Bytes(c.node) + SumBytes(cs)
    ensures SumFiles(Insert(c, cs)) == Files(c.node) + SumFiles(cs)
  {
    hide Bytes, Files;
    if cs != [] && !Less(c.name, cs[0].name) {
      InsertSums(c, cs[1..]);
    }
  }

  lemma {:induction false} SortSums(cs: seq<Child>)
    ensures SumBytes(SortChildren(cs)) == SumBytes(cs) && SumFiles(SortChildren(cs)) == SumFiles(cs)
  {
    hide Bytes, Files;
    if cs != [] {
      SortSums(cs[1..]);
      InsertSums(cs[0], SortChildren(cs[1..]));
    }
  }

  lemma {:induction false} ChildSums(n: Node, i: nat)
    requires n.Directory? && i <= |n.children|
    ensures ChildBytes(n, i) == SumBytes(n.children[i..]) && ChildFiles(n, i) == SumFiles(n.children[i..])
    decreases |n.children| - i
  {
    hide Bytes, Files;
    if i < |n.children| {
      ChildSums(n, i + 1);
      assert n.children[i..][1..] == n.children[i + 1..];
    }
  }

  lemma SameCounts(n: Node)
    requires n.Directory?
    ensures Bytes(n) == SumBytes(SortChildren(n.children)) && Files(n) == SumFiles(SortChildren(n.children))
  {
    ChildSums(n, 0);
    assert n.children[0..] == n.children;
    SortSums(n.children);
  }

  lemma Regroup(a: string, b: string, c: string)
    ensures (a + b) + c == a + (b + c)
  {
  }

  lemma FlattenNone()
    ensures Flatten([]) == ""
  {
  }

  lemma FlattenOne(r: Record)
    ensures Flatten([r]) == Encode(r)
  {
    hide Encode;
    assert [r][1..] == [] && Encode(r) + "" == Encode(r);
  }
}

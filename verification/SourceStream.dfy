/** The byte stream a vendored source tree is pinned by (vrl/models/source_integrity.py): the
    selection and the stream do not depend on the order globs are given or answer in, and the
    stream determines every path and payload. */
module SourceStream {
  import opened Sequences
  import opened TreeStream

  /** One path a glob can answer. */
  datatype Found = Found(relative: string, isFile: bool, isLink: bool, payload: string)

  type Selection = map<string, string>

  /** `relative` is an excluded prefix or lies below one. */
  predicate Excluded(relative: string, excluded: seq<string>) {
    exists p :: p in excluded && (relative == p || p + "/" <= relative)
  }

  predicate Wanted(found: Found, excluded: seq<string>) {
    found.isFile && !Excluded(found.relative, excluded)
  }

  /** Everything any glob answers. */
  ghost function Answers(globs: seq<seq<Found>>): set<Found> {
    set i, f | 0 <= i < |globs| && f in globs[i] :: f
  }

  /** All globs look at one file tree: a path is one file. */
  ghost predicate OneTree(answers: set<Found>) {
    forall x, y :: x in answers && y in answers && x.relative == y.relative ==> x == y
  }

  /** What is selected: every wanted answer, none of which may be a symlink. */
  ghost predicate Selects(answers: set<Found>, excluded: seq<string>, selected: Selection) {
    && (forall f :: f in answers && Wanted(f, excluded) ==>
          !f.isLink && f.relative in selected && selected[f.relative] == f.payload)
    && (forall r :: r in selected ==> exists f :: f in answers && Wanted(f, excluded) && f.relative == r)
  }

  /** The nested selection loops; `None` is the error on a symlink. */
  method Select(globs: seq<seq<Found>>, excluded: seq<string>) returns (selected: Option<Selection>)
    requires OneTree(Answers(globs))
    ensures selected.Some? ==> Selects(Answers(globs), excluded, selected.value)
    ensures selected.None? <==> exists f :: f in Answers(globs) && Wanted(f, excluded) && f.isLink
  {
    var chosen: Selection := map[];
    ghost var seen: set<Found> := {};
    for i := 0 to |globs|
      invariant seen == Answers(globs[..i]) && seen <= Answers(globs) && Selects(seen, excluded, chosen)
    {
      ghost var earlier := seen;
      for j := 0 to |globs[i]|
        invariant seen == earlier + Elements(globs[i][..j]) && seen <= Answers(globs) && Selects(seen, excluded, chosen)
      {
        var found := globs[i][j];
        assert found in globs[i] && found in Answers(globs);
        assert Elements(globs[i][..j + 1]) == Elements(globs[i][..j]) + {found};
        if Wanted(found, excluded) {
          if found.isLink {
            return None;
          }
          SelectMore(Answers(globs), seen, found, excluded, chosen);
          chosen := chosen[found.relative := found.payload];
        }
        seen := seen + {found};
      }
      assert globs[i][..|globs[i]|] == globs[i];
      AnswersMore(globs, i);
    }
    assert globs[..|globs|] == globs;
    return Some(chosen);
  }

  lemma AnswersMore(globs: seq<seq<Found>>, i: nat)
    requires i < |globs|
    ensures Answers(globs[..i + 1]) == Answers(globs[..i]) + Elements(globs[i])
  {
    assert globs[..i + 1] == globs[..i] + [globs[i]];
    forall f | f in Answers(globs[..i]) || f in globs[i] ensures f in Answers(globs[..i + 1]) {
      if f in globs[i] {
        assert f in globs[..i + 1][i];
      } else {
        var k :| 0 <= k < i && f in globs[..i][k];
        assert f in globs[..i + 1][k];
      }
    }
  }

  lemma SelectMore(answers: set<Found>, seen: set<Found>, found: Found, excluded: seq<string>, chosen: Selection)
    requires OneTree(answers) && seen <= answers && found in answers && Selects(seen, excluded, chosen)
    requires Wanted(found, excluded) && !found.isLink
    ensures Selects(seen + {found}, excluded, chosen[found.relative := found.payload])
  {
  }

  /** Any two ways of listing the same files select the same. */
  lemma SelectionOrderBlind(a: seq<seq<Found>>, b: seq<seq<Found>>, excluded: seq<string>, s: Selection, t: Selection)
    requires Answers(a) == Answers(b)
    requires Selects(Answers(a), excluded, s) && Selects(Answers(b), excluded, t)
    ensures s == t
  {
    forall r | r in s ensures r in t && t[r] == s[r] {
      var f :| f in Answers(a) && Wanted(f, excluded) && f.relative == r;
    }
    forall r | r in t ensures r in s {
      var f :| f in Answers(b) && Wanted(f, excluded) && f.relative == r;
    }
  }

  // ---- The stream ---------------------------------------------------------------------------

  function Field(relative: string, payload: string): string {
    relative + "\0" + Digits(|payload|) + "\0" + payload + "\0"
  }

  /** The bytes fed to the digest for `selected`, in the order of `paths`. */
  function StreamOf(paths: seq<string>, selected: Selection): string
    requires forall p :: p in paths ==> p in selected
  {
    if paths == [] then "" else Field(paths[0], selected[paths[0]]) + StreamOf(paths[1..], selected)
  }

  /** `sorted(selected.items())`. */
  ghost predicate PathsOf(paths: seq<string>, selected: Selection) {
    Sorted(paths) && (forall p :: p in paths <==> p in selected) && forall p :: p in paths ==> Free(p, '\0')
  }

  lemma ReadEntry(p: string, x: string, a: string, q: string, y: string, b: string)
    requires Free(p, '\0') && Free(q, '\0') && Field(p, x) + a == Field(q, y) + b
    ensures p == q && x == y && a == b
  {
    var restX, restY := Digits(|x|) + "\0" + (x + ("\0" + a)), Digits(|y|) + "\0" + (y + ("\0" + b));
    assert Field(p, x) + a == p + "\0" + restX;
    assert Field(q, y) + b == q + "\0" + restY;
    ReadField(p, restX, q, restY);
    ReadPayload(x, "\0" + a, y, "\0" + b);
    assert ("\0" + a)[1..] == a && ("\0" + b)[1..] == b;
  }

  lemma {:induction false} StreamReads(ps: seq<string>, s: Selection, qs: seq<string>, t: Selection)
    requires (forall p :: p in ps ==> p in s && Free(p, '\0')) && forall q :: q in qs ==> q in t && Free(q, '\0')
    requires StreamOf(ps, s) == StreamOf(qs, t)
    ensures ps == qs && forall p :: p in ps ==> s[p] == t[p]
  {
    assert ps != [] ==> |StreamOf(ps, s)| > 0;
    assert qs != [] ==> |StreamOf(qs, t)| > 0;
    if ps != [] && qs != [] {
      ReadEntry(ps[0], s[ps[0]], StreamOf(ps[1..], s), qs[0], t[qs[0]], StreamOf(qs[1..], t));
      StreamReads(ps[1..], s, qs[1..], t);
      assert ps == [ps[0]] + ps[1..];
    }
  }

  /** Two selections are pinned by the same bytes exactly when they hold the same paths and payloads. */
  lemma SameStreamIffSameSelection(ps: seq<string>, s: Selection, qs: seq<string>, t: Selection)
    requires PathsOf(ps, s) && PathsOf(qs, t)
    ensures StreamOf(ps, s) == StreamOf(qs, t) <==> s == t
  {
    if StreamOf(ps, s) == StreamOf(qs, t) {
      StreamReads(ps, s, qs, t);
      assert s.Keys == t.Keys;
    } else if s == t {
      SortedSame(ps, qs);
    }
  }

  method HashEntry(digest: Digest, relative: string, payload: string)
    modifies digest
    ensures digest.stream == old(digest.stream) + Field(relative, payload)
  {
    digest.Update(relative);
    digest.Update("\0");
    digest.Update(Digits(|payload|));
    digest.Update("\0");
    digest.Update(payload);
    digest.Update("\0");
  }

  /** The hashing loop; an empty selection is an error. */
  method HashSelection(digest: Digest, paths: seq<string>, selected: Selection) returns (ok: bool)
    requires PathsOf(paths, selected)
    modifies digest
    ensures ok <==> selected != map[]
    ensures digest.stream == if ok then old(digest.stream) + StreamOf(paths, selected) else old(digest.stream)
  {
    hide Field;
    if selected == map[] {
      return false;
    }
    for i := 0 to |paths|
      invariant digest.stream + StreamOf(paths[i..], selected) == old(digest.stream) + StreamOf(paths, selected)
    {
      assert paths[i..][0] == paths[i] && paths[i..][1..] == paths[i + 1..];
      ghost var before := digest.stream;
      HashEntry(digest, paths[i], selected[paths[i]]);
      Regroup(before, Field(paths[i], selected[paths[i]]), StreamOf(paths[i + 1..], selected));
    }
    assert digest.stream + "" == digest.stream;
    return true;
  }
}

/** Which published checkpoint a restart picks (`is_complete_checkpoint`,
    `find_latest_complete_checkpoint`). A directory is a map from relative file names to files;
    nested adapter directories are flattened into their slash-separated names. */
module CheckpointDiscovery {
  import opened Sequences

  const CHECKPOINT := "checkpoint.pt"
  const META := "checkpoint_meta.json"
  const STAGING_MARK := ".tmp-"
  const CANDIDATE_PREFIX := "checkpoint-"
  const BYTES_FIELD := "checkpoint_file_bytes"
  const STEP_FIELD := "global_step"

  datatype Json = JNull | JInt(value: int) | JOther

  /** What `read_checkpoint_meta` finds in a metadata file. */
  datatype MetaText = Unreadable | Object(fields: map<string, Json>)

  /** `whole` says that the file holds everything its writer meant it to hold. */
  datatype File = File(whole: bool, size: nat, text: MetaText, synced: bool)

  type Files = map<string, File>

  predicate Contains(s: string, mark: string) {
    mark <= s || (s != [] && Contains(s[1..], mark))
  }

  lemma {:induction false} ContainsAfter(prefix: string, mark: string, suffix: string)
    ensures Contains(prefix + mark + suffix, mark)
  {
    if prefix == [] {
      assert mark <= prefix + mark + suffix;
    } else {
      assert (prefix + mark + suffix)[1..] == prefix[1..] + mark + suffix;
      ContainsAfter(prefix[1..], mark, suffix);
    }
  }

  predicate StartsWith(s: string, prefix: string) { prefix <= s }

  predicate IsComplete(name: string, files: Files) {
    && !Contains(name, STAGING_MARK)
    && CHECKPOINT in files && META in files
    && files[META].text.Object? && files[META].text.fields != map[]
    && SizeMatches(files[META].text.fields, files[CHECKPOINT].size)
  }

  /** The recorded size, when there is one, is an integer and the size on disk. */
  predicate SizeMatches(fields: map<string, Json>, size: nat) {
    BYTES_FIELD in fields && fields[BYTES_FIELD] != JNull ==> fields[BYTES_FIELD] == JInt(size)
  }

  function WithMeta(files: Files, text: MetaText): Files
    requires META in files
  {
    files[META := files[META].(text := text)]
  }

  /** What damage a complete checkpoint shows: a payload of another size is noticed exactly when the
      metadata records one; metadata that lost the record vouches for any size, unless nothing else is left in
      it; metadata that cannot be read vouches for none. */
  lemma DamageSeen(name: string, files: Files, size: nat)
    requires IsComplete(name, files)
    ensures var cut := files[CHECKPOINT := files[CHECKPOINT].(size := size)];
            var fields := files[META].text.fields;
            && (IsComplete(name, cut) <==>
                  size == files[CHECKPOINT].size || BYTES_FIELD !in fields || fields[BYTES_FIELD] == JNull)
            && (IsComplete(name, WithMeta(cut, Object(fields - {BYTES_FIELD}))) <==>
                  exists field :: field in fields && field != BYTES_FIELD)
            && !IsComplete(name, WithMeta(files, Unreadable))
            && !IsComplete(name, files - {CHECKPOINT}) && !IsComplete(name, files - {META})
  {
    var fields := files[META].text.fields;
    var rest := fields - {BYTES_FIELD};
    assert rest != map[] <==> exists field :: field in fields && field != BYTES_FIELD by {
      if field :| field in fields && field != BYTES_FIELD {
        assert field in rest;
      } else {
        assert rest.Keys == {};
      }
    }
  }

  function StepOf(files: Files): Option<nat> {
    if META in files && files[META].text.Object? && STEP_FIELD in files[META].text.fields then
      match files[META].text.fields[STEP_FIELD]
      case JInt(k) => if k >= 0 then Some(k) else None
      case _ => None
    else None
  }

  predicate Candidate(dirs: map<string, Files>, name: string) {
    name in dirs && StartsWith(name, CANDIDATE_PREFIX) && IsComplete(name, dirs[name])
  }

  datatype Latest = Nothing | Found(name: string, step: nat) | BadProgress(name: string)

  /** The highest step among complete candidates, the first path on ties; an error as soon as a
      complete candidate has no valid step. */
  ghost predicate IsLatest(dirs: map<string, Files>, latest: Latest) {
    match latest
    case Nothing => forall n :: !Candidate(dirs, n)
    case BadProgress(n) => Candidate(dirs, n) && StepOf(dirs[n]).None?
    case Found(n, k) =>
      && Candidate(dirs, n) && StepOf(dirs[n]) == Some(k)
      && forall m :: Candidate(dirs, m) ==>
           StepOf(dirs[m]).Some? && (StepOf(dirs[m]).value < k || (StepOf(dirs[m]).value == k && !Less(m, n)))
  }

  /** The loop of `find_latest_complete_checkpoint` over the sorted glob. */
  method FindLatest(dirs: map<string, Files>, listing: seq<string>) returns (latest: Latest)
    requires Sorted(listing) && forall n :: n in listing <==> n in dirs && StartsWith(n, CANDIDATE_PREFIX)
    ensures IsLatest(dirs, latest)
  {
    latest := Nothing;
    for i := 0 to |listing|
      invariant !latest.BadProgress?
      invariant latest.Nothing? ==> forall n :: n in listing[..i] ==> !Candidate(dirs, n)
      invariant latest.Found? ==>
                  && latest.name in listing[..i] && Candidate(dirs, latest.name)
                  && StepOf(dirs[latest.name]) == Some(latest.step)
                  && forall n :: n in listing[..i] && Candidate(dirs, n) ==>
                        NotBefore(dirs, n, latest.name, latest.step)
    {
      var n := listing[i];
      assert listing[..i + 1] == listing[..i] + [n];
      assert n in listing;
      forall m | m in listing[..i] ensures !Less(n, m) {
        LessAsymmetric(m, n);
      }
      if IsComplete(n, dirs[n]) {
        var step := StepOf(dirs[n]);
        if step.None? {
          return BadProgress(n);
        }
        if latest.Nothing? || step.value > latest.step {
          LessIrreflexive(n);
          latest := Found(n, step.value);
        }
      }
    }
    assert listing[..|listing|] == listing;
  }

  ghost predicate NotBefore(dirs: map<string, Files>, m: string, n: string, k: nat)
    requires m in dirs
  {
    StepOf(dirs[m]).Some? && (StepOf(dirs[m]).value < k || (StepOf(dirs[m]).value == k && !Less(m, n)))
  }

  /** Apart from which malformed directory the error names, the choice is unique. */
  lemma LatestUnique(dirs: map<string, Files>, a: Latest, b: Latest)
    requires IsLatest(dirs, a) && IsLatest(dirs, b)
    ensures a == b || (a.BadProgress? && b.BadProgress?)
  {
    if a.Found? && b.Found? {
      assert Candidate(dirs, a.name) && Candidate(dirs, b.name);
      LessTotal(a.name, b.name);
    }
  }

  /** Adding one new directory never takes progress away, exactly when it carries a valid step or
      is no candidate at all: otherwise discovery raises from then on. */
  lemma AddingHides(dirs: map<string, Files>, name: string, files: Files, before: Latest, after: Latest)
    requires name !in dirs && IsLatest(dirs, before) && IsLatest(dirs[name := files], after) && before.Found?
    ensures (after.Found? && before.step <= after.step) <==>
              (Candidate(dirs[name := files], name) ==> StepOf(files).Some?)
    ensures after.Found? ==>
              after == if Candidate(dirs[name := files], name)
                          && (before.step < StepOf(files).value
                                || (before.step == StepOf(files).value && Less(name, before.name)))
                       then Found(name, StepOf(files).value) else before
  {
    var dirs' := dirs[name := files];
    assert forall n :: n != name ==> (Candidate(dirs', n) <==> Candidate(dirs, n));
    assert Candidate(dirs', before.name);
    if after.Found? {
      assert Candidate(dirs', name) ==> StepOf(files).Some?;
      assert Candidate(dirs', after.name);
      LessTotal(after.name, before.name);
      LessTotal(name, before.name);
    }
  }
}

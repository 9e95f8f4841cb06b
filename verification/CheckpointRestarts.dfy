/** What restarts find over any sequence of saves into one output directory, each finished, failed,
    killed or cut off by a power loss (`find_latest_complete_checkpoint` after `_CheckpointSaveTransaction`). */
module CheckpointRestarts {
  import opened Sequences
  import opened CheckpointDiscovery
  import opened CheckpointDisk

  // ---- Sequences of saves -------------------------------------------------------------------

  datatype Job = Job(request: Request, final: string, suffix: string) {
    function Staging(): string { final + STAGING_MARK + suffix }
  }

  /** One save, or a power loss between saves. A save that raises and one whose process is killed both
      stop in a safe state; a power loss strikes in one. */
  datatype Life =
    | Finishes(job: Job)
    | Stops(job: Job)
    | LosesPower(job: Job, at: DiskState, after: map<string, Files>)
    | Outage(after: map<string, Files>)

  ghost predicate Ends(s: DiskState, life: Life, s': DiskState) {
    && (!life.Outage? ==> life.job.Staging() !in s.live)
    && match life
       case Finishes(job) => Published(s, job.request, job.final, job.Staging(), s')
       case Stops(job) => Safe(s, job.request, job.final, job.Staging(), s')
       case LosesPower(job, at, after) =>
         Safe(s, job.request, job.final, job.Staging(), at) && CrashOf(at, after) && s' == Rebooted(after)
       case Outage(after) => CrashOf(s, after) && s' == Rebooted(after)
  }

  /** The disk before the first save and after each of them. */
  ghost predicate Lived(states: seq<DiskState>, lives: seq<Life>) {
    |states| == |lives| + 1 && forall i :: 0 <= i < |lives| ==> Ends(states[i], lives[i], states[i + 1])
  }

  // ---- What discovery may rely on -----------------------------------------------------------

  /** Discovery can rely on a directory: it is skipped as a staging leftover, or its files are flushed
      and, if it looks complete, `checkpoint.pt` is whole. */
  ghost predicate Reliable(n: string, d: Dir) {
    Contains(n, STAGING_MARK)
    || ((forall f :: f in d.files ==> d.files[f].synced) && (IsComplete(n, d.files) ==> d.files[CHECKPOINT].whole))
  }

  ghost predicate Trusted(s: DiskState) {
    && (forall n :: n in s.live ==> Reliable(n, s.live[n]))
    && (forall n :: n in s.settled ==> Reliable(n, s.settled[n]))
  }

  lemma StagingIgnored(job: Job)
    ensures Contains(job.Staging(), STAGING_MARK)
  {
    ContainsAfter(job.final, STAGING_MARK, job.suffix);
  }

  /** What still looks complete looked complete before, with the same payload and progress. */
  lemma CompleteBefore(n: string, d: Dir, files: Files)
    requires Reliable(n, d) && PartOf(d, files) && IsComplete(n, files)
    ensures IsComplete(n, d.files) && files[CHECKPOINT] == d.files[CHECKPOINT] && StepOf(files) == StepOf(d.files)
  {
  }

  lemma PartReliable(n: string, d: Dir, files: Files)
    requires Reliable(n, d) && PartOf(d, files)
    ensures Reliable(n, Dir(files, true))
  {
    if IsComplete(n, files) {
      CompleteBefore(n, d, files);
    }
  }

  lemma RemnantIsPart(before: Dir, d: Dir)
    requires Remnant(before, d)
    ensures PartOf(before, d.files)
  {
  }

  lemma CrashTrusted(s: DiskState, after: map<string, Files>)
    requires Trusted(s) && CrashOf(s, after)
    ensures Trusted(Rebooted(after))
  {
    hide Reliable;
    forall n | n in after ensures Reliable(n, Dir(after[n], true)) {
      assert CrashEntry(s, after, n);
      if n in s.live && Decayed(s.live[n], after[n]) {
        PartReliable(n, s.live[n], after[n]);
      } else {
        PartReliable(n, s.settled[n], after[n]);
      }
    }
  }

  lemma SafeTrusted(s: DiskState, job: Job, s': DiskState)
    requires Trusted(s) && Safe(s, job.request, job.final, job.Staging(), s')
    ensures Trusted(s')
  {
    StagingIgnored(job);
    forall n | n in s'.live ensures Reliable(n, s'.live[n]) {
      if n == job.final && n != job.Staging() && !Finished(job.request, s'.live[n]) {
        RemnantIsPart(s.live[n], s'.live[n]);
        PartReliable(n, s.live[n], s'.live[n].files);
      }
    }
  }

  lemma EndTrusted(s: DiskState, life: Life, s': DiskState)
    requires Trusted(s) && Ends(s, life, s')
    ensures Trusted(s')
  {
    hide Trusted, CrashOf, Safe;
    match life {
      case Finishes(job) => PublishedSafe(s, job, s'); SafeTrusted(s, job, s');
      case Stops(job) => SafeTrusted(s, job, s');
      case LosesPower(job, at, after) => SafeTrusted(s, job, at); CrashTrusted(at, after);
      case Outage(after) => CrashTrusted(s, after);
    }
  }

  lemma PublishedSafe(s: DiskState, job: Job, s': DiskState)
    requires Published(s, job.request, job.final, job.Staging(), s')
    ensures Safe(s, job.request, job.final, job.Staging(), s')
  {
  }

  /** However many saves, and however each of them ends, a directory a restart may pick is one whose
      files are flushed and whose `checkpoint.pt` is whole. */
  lemma {:induction false} AlwaysTrusted(states: seq<DiskState>, lives: seq<Life>, k: nat)
    requires Lived(states, lives) && k <= |lives| && Trusted(states[0])
    ensures Trusted(states[k])
  {
    if k > 0 {
      AlwaysTrusted(states, lives, k - 1);
      EndTrusted(states[k - 1], lives[k - 1], states[k]);
    }
  }

  /** So a restart after any of them finds only fully written checkpoints. */
  lemma RestartFindsWhole(states: seq<DiskState>, lives: seq<Life>, k: nat, latest: Latest)
    requires Lived(states, lives) && k <= |lives| && Trusted(states[0])
    requires IsLatest(Names(states[k].live), latest)
    ensures forall n :: Candidate(Names(states[k].live), n) ==> states[k].live[n].files[CHECKPOINT].whole
    ensures latest.Found? ==> states[k].live[latest.name].files[CHECKPOINT].whole
  {
    AlwaysTrusted(states, lives, k);
    forall n | Candidate(Names(states[k].live), n) ensures states[k].live[n].files[CHECKPOINT].whole {
      assert Reliable(n, states[k].live[n]);
    }
  }

  // ---- Finished saves last ------------------------------------------------------------------

  /** No power loss can take this directory away. */
  ghost predicate Durable(s: DiskState, n: string, d: Dir) {
    && !Contains(n, STAGING_MARK) && n in s.live && n in s.settled && s.live[n] == d && s.settled[n] == d
    && d.synced && forall f :: f in d.files ==> d.files[f].synced
  }

  lemma DurableCrash(s: DiskState, n: string, d: Dir, after: map<string, Files>)
    requires Durable(s, n, d) && CrashOf(s, after)
    ensures Durable(Rebooted(after), n, d)
  {
    assert CrashEntry(s, after, n);
    assert after[n] == d.files;
  }

  lemma DurableSafe(s: DiskState, n: string, d: Dir, job: Job, s': DiskState)
    requires Durable(s, n, d) && n != job.final && Safe(s, job.request, job.final, job.Staging(), s')
    ensures Durable(s', n, d)
  {
    StagingIgnored(job);
  }

  predicate Spares(life: Life, n: string) { !life.Outage? ==> life.job.final != n }

  /** Only a save to its own name touches a durable checkpoint. */
  lemma DurableEnd(s: DiskState, n: string, d: Dir, life: Life, s': DiskState)
    requires Durable(s, n, d) && Spares(life, n) && Ends(s, life, s')
    ensures Durable(s', n, d)
  {
    hide Durable, CrashOf, Safe;
    match life {
      case Finishes(job) => PublishedSafe(s, job, s'); DurableSafe(s, n, d, job, s');
      case Stops(job) => DurableSafe(s, n, d, job, s');
      case LosesPower(job, at, after) => DurableSafe(s, n, d, job, at); DurableCrash(at, n, d, after);
      case Outage(after) => DurableCrash(s, n, d, after);
    }
  }

  lemma {:induction false} DurableForGood(states: seq<DiskState>, lives: seq<Life>, i: nat, k: nat, n: string, d: Dir)
    requires Lived(states, lives) && i <= k <= |lives| && Durable(states[i], n, d)
    requires forall j :: i <= j < k ==> Spares(lives[j], n)
    ensures Durable(states[k], n, d)
    decreases k - i
  {
    if i < k {
      DurableForGood(states, lives, i, k - 1, n, d);
      DurableEnd(states[k - 1], n, d, lives[k - 1], states[k]);
    }
  }

  /** A directory name discovery looks at once it is complete. */
  predicate Publishable(name: string) {
    StartsWith(name, CANDIDATE_PREFIX) && !Contains(name, STAGING_MARK)
  }

  lemma FinishedStep(request: Request, final: string, files: Files)
    requires Finished(request, Dir(files, true))
    ensures IsComplete(final, files) <==> !Contains(final, STAGING_MARK)
    ensures StepOf(files) == if STEP_FIELD in request.progress then Some(request.progress[STEP_FIELD].value) else None
  {
    var fields := MetaFor(request);
    assert BYTES_FIELD !in MIRRORED;
    assert fields[BYTES_FIELD] == JInt(request.size);
    assert fields != map[];
    assert STEP_FIELD in MIRRORED && !BadField(request.progress, STEP_FIELD);
    assert STEP_FIELD in fields <==> STEP_FIELD in request.progress;
  }

  predicate CarriesStep(job: Job, step: int) {
    STEP_FIELD in job.request.progress && job.request.progress[STEP_FIELD] == JInt(step)
  }

  /** A restart gets at least the step of any candidate, unless some candidate has none. */
  lemma AtLeast(dirs: map<string, Files>, n: string, latest: Latest)
    requires Candidate(dirs, n) && StepOf(dirs[n]).Some? && IsLatest(dirs, latest)
    ensures (latest.Found? && latest.step >= StepOf(dirs[n]).value) <==>
              forall m :: Candidate(dirs, m) ==> StepOf(dirs[m]).Some?
  {
  }

  /** Whatever happens after a save at some step has finished, a restart resumes at that step or a
      later one, as long as nothing saves to the same name, exactly when no candidate lacks a step. */
  lemma FinishedSaveLasts(states: seq<DiskState>, lives: seq<Life>, i: nat, k: nat, step: int, latest: Latest)
    requires Lived(states, lives) && i < k <= |lives| && lives[i].Finishes? && Publishable(lives[i].job.final)
    requires CarriesStep(lives[i].job, step)
    requires forall j :: i < j < k ==> Spares(lives[j], lives[i].job.final)
    requires IsLatest(Names(states[k].live), latest)
    ensures var dirs := Names(states[k].live);
            (latest.Found? && latest.step >= step) <==> forall m :: Candidate(dirs, m) ==> StepOf(dirs[m]).Some?
  {
    var n, d := lives[i].job.final, states[i + 1].live[lives[i].job.final];
    assert Ends(states[i], lives[i], states[i + 1]);
    DurableForGood(states, lives, i + 1, k, n, d);
    FinishedStep(lives[i].job.request, n, d.files);
    AtLeast(Names(states[k].live), n, latest);
  }

  // ---- Steps on every candidate -------------------------------------------------------------

  /** Nothing that looks complete lacks a step. */
  ghost predicate Stepped(dirs: map<string, Dir>) {
    forall n :: n in dirs && Publishable(n) && IsComplete(n, dirs[n].files) ==> StepOf(dirs[n].files).Some?
  }

  predicate Numbered(life: Life) {
    !life.Outage? && Publishable(life.job.final) ==> STEP_FIELD in life.job.request.progress
  }

  lemma SteppedCrash(s: DiskState, after: map<string, Files>)
    requires Trusted(s) && Stepped(s.live) && Stepped(s.settled) && CrashOf(s, after)
    ensures Stepped(Rebooted(after).live)
  {
    forall n | n in after && Publishable(n) && IsComplete(n, after[n]) ensures StepOf(after[n]).Some? {
      assert CrashEntry(s, after, n);
      if n in s.live && Decayed(s.live[n], after[n]) {
        CompleteBefore(n, s.live[n], after[n]);
      } else {
        CompleteBefore(n, s.settled[n], after[n]);
      }
    }
  }

  lemma SteppedSafe(s: DiskState, job: Job, s': DiskState)
    requires Trusted(s) && Stepped(s.live) && Stepped(s.settled) && Safe(s, job.request, job.final, job.Staging(), s')
    requires Publishable(job.final) ==> STEP_FIELD in job.request.progress
    ensures Stepped(s'.live) && Stepped(s'.settled)
  {
    StagingIgnored(job);
    forall n | n in s'.live && Publishable(n) && IsComplete(n, s'.live[n].files)
      ensures StepOf(s'.live[n].files).Some?
    {
      if n == job.final {
        if Finished(job.request, s'.live[n]) {
          FinishedStep(job.request, n, s'.live[n].files);
        } else {
          RemnantIsPart(s.live[n], s'.live[n]);
          CompleteBefore(n, s.live[n], s'.live[n].files);
        }
      }
    }
  }

  lemma SteppedEnd(s: DiskState, life: Life, s': DiskState)
    requires Trusted(s) && Stepped(s.live) && Stepped(s.settled) && Ends(s, life, s') && Numbered(life)
    ensures Stepped(s'.live) && Stepped(s'.settled)
  {
    hide Trusted, CrashOf, Safe, Stepped;
    match life {
      case Finishes(job) => PublishedSafe(s, job, s'); SteppedSafe(s, job, s');
      case Stops(job) => SteppedSafe(s, job, s');
      case LosesPower(job, at, after) =>
        SafeTrusted(s, job, at);
        SteppedSafe(s, job, at);
        SteppedCrash(at, after);
      case Outage(after) => SteppedCrash(s, after);
    }
  }

  lemma {:induction false} AlwaysStepped(states: seq<DiskState>, lives: seq<Life>, k: nat)
    requires Lived(states, lives) && k <= |lives| && Trusted(states[0]) && Stepped(states[0].live)
              && Stepped(states[0].settled)
    requires forall j :: 0 <= j < k ==> Numbered(lives[j])
    ensures Stepped(states[k].live) && Stepped(states[k].settled)
  {
    if k > 0 {
      AlwaysStepped(states, lives, k - 1);
      AlwaysTrusted(states, lives, k - 1);
      SteppedEnd(states[k - 1], lives[k - 1], states[k]);
    }
  }

  /** Crash-safe progress: when every published save carries its step, a restart after any sequence of
      saves, kills and power losses resumes at or after the step of every save that finished and whose
      name was not saved to again. */
  lemma ProgressKept(states: seq<DiskState>, lives: seq<Life>, i: nat, k: nat, step: int, latest: Latest)
    requires Lived(states, lives) && Trusted(states[0]) && Stepped(states[0].live) && Stepped(states[0].settled)
    requires i < k <= |lives| && lives[i].Finishes? && Publishable(lives[i].job.final)
              && CarriesStep(lives[i].job, step)
    requires forall j :: 0 <= j < k ==> Numbered(lives[j])
    requires forall j :: i < j < k ==> Spares(lives[j], lives[i].job.final)
    requires IsLatest(Names(states[k].live), latest)
    ensures latest.Found? && latest.step >= step
    ensures states[k].live[latest.name].files[CHECKPOINT].whole
  {
    AlwaysStepped(states, lives, k);
    FinishedSaveLasts(states, lives, i, k, step, latest);
    RestartFindsWhole(states, lives, k, latest);
  }

  // ---- One save to a new name ---------------------------------------------------------------

  /** The directories of `after` but for those of the save. */
  function Elsewhere(after: map<string, Files>, job: Job): map<string, Files> {
    after - {job.final, job.Staging()}
  }

  /** A save to a new name, stopped anywhere or finished, takes no progress away from a restart exactly
      when the directory it published, if any, carries `global_step`. The code does not require it:
      without it the new directory is complete and discovery raises from then on. */
  lemma NewSaveHides(init: DiskState, job: Job, s: DiskState, before: Latest, latest: Latest)
    requires job.final !in init.live && job.Staging() !in init.live
    requires Safe(init, job.request, job.final, job.Staging(), s)
    requires IsLatest(Names(init.live), before) && before.Found? && IsLatest(Names(s.live), latest)
    ensures (latest.Found? && before.step <= latest.step) <==>
              (job.final in s.live && Publishable(job.final) ==> STEP_FIELD in job.request.progress)
  {
    OthersNamed(init, job, s);
    hide *;
    SaveHides(job, Names(s.live), before, latest);
  }

  lemma OthersNamed(init: DiskState, job: Job, s: DiskState)
    requires job.final !in init.live && job.Staging() !in init.live
    requires Safe(init, job.request, job.final, job.Staging(), s)
    ensures Names(init.live) == Elsewhere(Names(s.live), job)
    ensures job.final in s.live <==> job.final in Names(s.live)
    ensures job.final in s.live ==> Finished(job.request, Dir(Names(s.live)[job.final], true))
  {
    hide Finished;
    FinishedAgain(job, s);
  }

  lemma FinishedAgain(job: Job, s: DiskState)
    ensures job.final in s.live && Finished(job.request, s.live[job.final]) ==>
              Finished(job.request, Dir(s.live[job.final].files, true))
  {
    if job.final in s.live && Finished(job.request, s.live[job.final]) {
      assert s.live[job.final] == Dir(s.live[job.final].files, true);
    }
  }

  /** The same for a power loss, against what a power loss just before the save could have left: the
      disk after it without the directories of the save. */
  lemma LostSaveHides(init: DiskState, job: Job, s: DiskState, after: map<string, Files>, before: Latest,
      latest: Latest)
    requires job.final !in init.live && job.final !in init.settled && job.Staging() !in init.live
    requires Safe(init, job.request, job.final, job.Staging(), s) && CrashOf(s, after)
    requires IsLatest(Elsewhere(after, job), before) && before.Found? && IsLatest(after, latest)
    ensures CrashOf(init, Elsewhere(after, job))
    ensures (latest.Found? && before.step <= latest.step) <==>
              (job.final in after && Publishable(job.final) ==> STEP_FIELD in job.request.progress)
  {
    CrashIntact(init, job.request, job.final, job.Staging(), s, after);
    forall n ensures CrashEntry(init, Elsewhere(after, job), n) {
      assert n != job.final && n != job.Staging() ==> CrashEntry(init, after, n);
    }
    hide Safe, CrashOf, IsLatest;
    SaveHides(job, after, before, latest);
  }

  lemma SaveHides(job: Job, after: map<string, Files>, before: Latest, latest: Latest)
    requires job.final in after ==> Finished(job.request, Dir(after[job.final], true))
    requires IsLatest(Elsewhere(after, job), before) && before.Found? && IsLatest(after, latest)
    ensures (latest.Found? && before.step <= latest.step) <==>
              (job.final in after && Publishable(job.final) ==> STEP_FIELD in job.request.progress)
  {
    var known, final := Elsewhere(after, job), job.final;
    SameElsewhere(job, after);
    hide Candidate, Elsewhere, Finished;
    if final in after {
      SameCandidates(after, known[final := after[final]], latest);
      hide IsLatest;
      PublishedAdds(job, known, after[final], before, latest);
    } else {
      SameCandidates(after, known, latest);
      LatestUnique(known, before, latest);
    }
  }

  lemma PublishedAdds(job: Job, known: map<string, Files>, files: Files, before: Latest, latest: Latest)
    requires job.final !in known && Finished(job.request, Dir(files, true))
    requires IsLatest(known, before) && before.Found? && IsLatest(known[job.final := files], latest)
    ensures (latest.Found? && before.step <= latest.step) <==>
              (Publishable(job.final) ==> STEP_FIELD in job.request.progress)
  {
    FinishedStep(job.request, job.final, files);
    assert Candidate(known[job.final := files], job.final) <==> Publishable(job.final);
    hide IsLatest, Finished, Candidate;
    AddingHides(known, job.final, files, before, latest);
  }

  /** The staging directory is no candidate, so only the published one makes a difference. */
  lemma SameElsewhere(job: Job, after: map<string, Files>)
    ensures var known, final := Elsewhere(after, job), job.final;
            && final !in known
            && (final in after ==>
                  && (forall n :: Candidate(after, n) <==> Candidate(known[final := after[final]], n))
                  && (forall n :: Candidate(after, n) ==> after[n] == known[final := after[final]][n]))
            && (final !in after ==>
                  && (forall n :: Candidate(after, n) <==> Candidate(known, n))
                  && (forall n :: Candidate(after, n) ==> after[n] == known[n]))
  {
    StagingIgnored(job);
    hide IsComplete;
    assert !IsComplete(job.Staging(), if job.Staging() in after then after[job.Staging()] else map[]) by {
      MarkedIncomplete(job.Staging(), if job.Staging() in after then after[job.Staging()] else map[]);
    }
  }

  lemma MarkedIncomplete(n: string, files: Files)
    requires Contains(n, STAGING_MARK)
    ensures !IsComplete(n, files)
  {
  }

  lemma SameCandidates(a: map<string, Files>, b: map<string, Files>, latest: Latest)
    requires forall n :: Candidate(a, n) <==> Candidate(b, n)
    requires forall n :: Candidate(a, n) && Candidate(b, n) ==> a[n] == b[n]
    requires IsLatest(a, latest)
    ensures IsLatest(b, latest)
  {
  }

  /** A save at step 1, then a save whose progress has no `global_step`: discovery found the first
      before the second was published, and raises after it. */
  lemma MissingStepHides(first: string, files: Files, second: string, files': Files, request: Request, latest: Latest)
    requires first != second && Publishable(first) && Publishable(second)
    requires IsComplete(first, files) && StepOf(files) == Some(1)
    requires request.progress == map[] && Finished(request, Dir(files', true))
    requires IsLatest(map[first := files, second := files'], latest)
    ensures IsLatest(map[first := files], Found(first, 1))
    ensures latest == BadProgress(second)
  {
    LessIrreflexive(first);
    FinishedStep(request, second, files');
    assert Candidate(map[first := files, second := files'], second);
  }
}

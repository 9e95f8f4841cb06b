/** `_CheckpointSaveTransaction`: write in a staging directory, flush, publish by rename, on a disk
    that can lose power after every single operation. */
module CheckpointDisk {
  import opened Sequences
  import opened CheckpointDiscovery
  import opened Environment

  /** A directory; `synced` says that its entries were flushed since they last changed. */
  datatype Dir = Dir(files: Files, synced: bool)

  /** What the running system sees, and the parent's entries as last flushed. */
  datatype DiskState = DiskState(live: map<string, Dir>, settled: map<string, Dir>)

  /** The request of a save: payload size, the progress fields and the adapter files. A progress
      value that is no non-negative integer makes `write_checkpoint_meta` raise. */
  datatype Request = Request(size: nat, progress: map<string, Json>, adapters: seq<string>)

  // ---- Losing power -----------------------------------------------------------------------

  /** Part of a directory: flushed files are intact, others may be torn, and any may be gone. */
  ghost predicate PartOf(d: Dir, files: Files) {
    forall f :: f in files ==> f in d.files && (d.files[f].synced ==> files[f] == d.files[f])
  }

  /** What can be left of a directory nobody removed: a flushed one keeps its flushed files. */
  ghost predicate Decayed(d: Dir, files: Files) {
    PartOf(d, files) && (d.synced ==> forall f :: f in d.files && d.files[f].synced ==> f in files)
  }

  /** One entry after a power loss: it comes from the live tree or from the last flush of the parent,
      where files removed since may be missing; an entry that is the same in both stays. */
  ghost predicate CrashEntry(s: DiskState, after: map<string, Files>, n: string) {
    && (n in after ==>
          (n in s.live && Decayed(s.live[n], after[n])) || (n in s.settled && PartOf(s.settled[n], after[n])))
    && (n in s.live && n in s.settled && s.live[n] == s.settled[n] ==> n in after && Decayed(s.live[n], after[n]))
  }

  ghost predicate CrashOf(s: DiskState, after: map<string, Files>) {
    forall n :: CrashEntry(s, after, n)
  }

  /** The disk as the next boot finds it: what is there is on the disk. */
  function Rebooted(after: map<string, Files>): DiskState {
    var dirs := map n | n in after :: Dir(after[n], true);
    DiskState(dirs, dirs)
  }

  function Names(dirs: map<string, Dir>): map<string, Files> {
    map n | n in dirs :: dirs[n].files
  }

  // ---- What a finished save leaves ----------------------------------------------------------

  const MIRRORED := {"completed_epoch", "next_epoch", "completed_step", "next_step", STEP_FIELD}

  predicate BadField(progress: map<string, Json>, name: string) {
    name in progress && !(progress[name].JInt? && progress[name].value >= 0)
  }

  /** Every mirrored progress field that is there is a non-negative integer. */
  ghost predicate GoodFields(request: Request) {
    forall name :: name in MIRRORED ==> !BadField(request.progress, name)
  }

  /** The metadata `write_checkpoint_meta` writes, as far as discovery reads it. */
  function MetaFor(request: Request): map<string, Json> {
    map["schema_version" := JInt(2), BYTES_FIELD := JInt(request.size)]
    + map name | name in MIRRORED && name in request.progress :: request.progress[name]
  }

  /** A completely written and flushed checkpoint directory. */
  ghost predicate Finished(request: Request, d: Dir) {
    && d.synced && (forall f :: f in d.files ==> d.files[f].synced && d.files[f].whole)
    && CHECKPOINT in d.files && d.files[CHECKPOINT].size == request.size
    && META in d.files && d.files[META].text == Object(MetaFor(request))
    && (forall f :: f in request.adapters ==> f in d.files)
    && GoodFields(request)
  }

  /** What is left of an older checkpoint while it is being removed. */
  ghost predicate Remnant(before: Dir, d: Dir) {
    forall f :: f in d.files ==> f in before.files && d.files[f] == before.files[f]
  }

  ghost predicate FinalOk(init: map<string, Dir>, request: Request, final: string, place: map<string, Dir>) {
    final in place ==> (final in init && Remnant(init[final], place[final])) || Finished(request, place[final])
  }

  ghost predicate OthersKept(init: map<string, Dir>, final: string, staging: string, place: map<string, Dir>) {
    forall n :: n != final && n != staging ==> (n in place <==> n in init) && (n in init ==> place[n] == init[n])
  }

  /** A state in which a save that began on the disk `init` may be interrupted. Nothing is asked of
      `init`: earlier saves may have left anything behind, flushed or not. */
  ghost predicate Safe(init: DiskState, request: Request, final: string, staging: string, s: DiskState) {
    && OthersKept(init.live, final, staging, s.live) && FinalOk(init.live, request, final, s.live)
    && (s.settled == init.settled || s.settled == s.live)
  }

  /** A power loss at `init` could have left these files under that name. */
  ghost predicate Leftover(init: DiskState, n: string, files: Files) {
    (n in init.live && PartOf(init.live[n], files)) || (n in init.settled && PartOf(init.settled[n], files))
  }

  /** What any interruption leaves: of everybody else's directories only what a power loss before the
      save could have left, and under the published name nothing, what is left of an old checkpoint,
      or the complete new one. */
  ghost predicate Intact(init: DiskState, request: Request, final: string, staging: string, after: map<string, Files>) {
    && (forall n :: n != final && n != staging ==> CrashEntry(init, after, n))
    && (final in after ==> Leftover(init, final, after[final]) || Finished(request, Dir(after[final], true)))
  }

  lemma CrashIntact(
    init: DiskState, request: Request, final: string, staging: string, s: DiskState, after: map<string, Files>)
    requires Safe(init, request, final, staging, s) && CrashOf(s, after)
    ensures Intact(init, request, final, staging, after)
  {
    forall n | n != final && n != staging ensures CrashEntry(init, after, n) {
      assert CrashEntry(s, after, n);
    }
    assert CrashEntry(s, after, final);
    if final in after && final in s.live && Decayed(s.live[final], after[final]) && Finished(request, s.live[final]) {
      assert after[final] == s.live[final].files;
    }
  }

  // ---- The disk ---------------------------------------------------------------------------

  /** Every operation is recorded in `history`; the operations numbered in `faults` raise. */
  class Disk {
    var live: map<string, Dir>
    ghost var settled: map<string, Dir>
    ghost var history: seq<DiskState>
    var clock: nat
    const faults: set<nat>

    constructor (live: map<string, Dir>, ghost settled: map<string, Dir>, faults: set<nat>)
      ensures Now() == DiskState(live, settled) && history == [Now()] && this.faults == faults && clock == 0
    {
      this.live, clock := live, 0;
      this.faults := faults;
      this.settled, history := settled, [DiskState(live, settled)];
    }

    ghost function Now(): DiskState
      reads this
    {
      DiskState(live, settled)
    }

    /** Count one operation; it raises when its number is drawn. */
    method Tick() returns (ok: bool)
      modifies `clock
      ensures clock == old(clock) + 1 && (ok <==> old(clock) !in faults)
    {
      ok := clock !in faults;
      clock := clock + 1;
    }

    method MakeDir(name: string) returns (ok: bool)
      requires name !in live
      modifies this
      ensures settled == old(settled)
      ensures live == if ok then old(live)[name := Dir(map[], false)] else old(live)
      ensures history == old(history) + [Now()]
      ensures clock == old(clock) + 1 && (ok <==> old(clock) !in faults)
    {
      ok := Tick();
      if ok {
        live := live[name := Dir(map[], false)];
      }
      history := history + [DiskState(live, settled)];
    }

    /** Put a file: its writer is at any point, so it counts as torn until it is whole. */
    method Put(name: string, f: string, whole: bool, size: nat, text: MetaText) returns (ok: bool)
      requires name in live
      modifies this
      ensures settled == old(settled)
      ensures live ==
                if ok then old(live)[name := Dir(old(live)[name].files[f := File(whole, size, text, false)], false)]
                else old(live)
      ensures history == old(history) + [Now()]
      ensures clock == old(clock) + 1 && (ok <==> old(clock) !in faults)
    {
      ok := Tick();
      if ok {
        live := live[name := Dir(live[name].files[f := File(whole, size, text, false)], false)];
      }
      history := history + [DiskState(live, settled)];
    }

    method SyncFile(name: string, f: string) returns (ok: bool)
      requires name in live && f in live[name].files
      modifies this
      ensures settled == old(settled)
      ensures var d := old(live)[name];
              live == if ok then old(live)[name := Dir(d.files[f := d.files[f].(synced := true)], d.synced)]
                  else old(live)
      ensures history == old(history) + [Now()]
      ensures clock == old(clock) + 1 && (ok <==> old(clock) !in faults)
    {
      ok := Tick();
      if ok {
        var d := live[name];
        live := live[name := Dir(d.files[f := d.files[f].(synced := true)], d.synced)];
      }
      history := history + [DiskState(live, settled)];
    }

    method SyncDir(name: string) returns (ok: bool)
      requires name in live
      modifies this
      ensures settled == old(settled)
      ensures live == if ok then old(live)[name := Dir(old(live)[name].files, true)] else old(live)
      ensures history == old(history) + [Now()]
      ensures clock == old(clock) + 1 && (ok <==> old(clock) !in faults)
    {
      ok := Tick();
      if ok {
        live := live[name := Dir(live[name].files, true)];
      }
      history := history + [DiskState(live, settled)];
    }

    /** `os.replace` of one file inside a directory. */
    method RenameFile(name: string, f: string, g: string) returns (ok: bool)
      requires name in live && f in live[name].files && f != g
      modifies this
      ensures settled == old(settled)
      ensures var d := old(live)[name];
              live == if ok then old(live)[name := Dir((d.files - {f})[g := d.files[f]], false)] else old(live)
      ensures history == old(history) + [Now()]
      ensures clock == old(clock) + 1 && (ok <==> old(clock) !in faults)
    {
      ok := Tick();
      if ok {
        var d := live[name];
        live := live[name := Dir((d.files - {f})[g := d.files[f]], false)];
      }
      history := history + [DiskState(live, settled)];
    }

    method Unlink(name: string, f: string) returns (ok: bool)
      requires name in live && f in live[name].files
      modifies this
      ensures settled == old(settled)
      ensures live == if ok then old(live)[name := Dir(old(live)[name].files - {f}, false)] else old(live)
      ensures history == old(history) + [Now()]
      ensures clock == old(clock) + 1 && (ok <==> old(clock) !in faults)
    {
      ok := Tick();
      if ok {
        live := live[name := Dir(live[name].files - {f}, false)];
      }
      history := history + [DiskState(live, settled)];
    }

    method RemoveDir(name: string) returns (ok: bool)
      requires name in live && live[name].files == map[]
      modifies this
      ensures settled == old(settled)
      ensures live == if ok then old(live) - {name} else old(live)
      ensures history == old(history) + [Now()]
      ensures clock == old(clock) + 1 && (ok <==> old(clock) !in faults)
    {
      ok := Tick();
      if ok {
        live := live - {name};
      }
      history := history + [DiskState(live, settled)];
    }

    /** `os.replace` of a directory onto a free name. */
    method RenameDir(from: string, to: string) returns (ok: bool)
      requires from in live && to !in live
      modifies this
      ensures settled == old(settled)
      ensures live == if ok then (old(live) - {from})[to := old(live)[from]] else old(live)
      ensures history == old(history) + [Now()]
      ensures clock == old(clock) + 1 && (ok <==> old(clock) !in faults)
    {
      ok := Tick();
      if ok {
        live := (live - {from})[to := live[from]];
      }
      history := history + [DiskState(live, settled)];
    }

    /** `fsync_directory` of the parent. */
    method SyncParent() returns (ok: bool)
      modifies this
      ensures live == old(live)
      ensures settled == if ok then old(live) else old(settled)
      ensures history == old(history) + [Now()]
      ensures clock == old(clock) + 1 && (ok <==> old(clock) !in faults)
    {
      ok := Tick();
      if ok {
        settled := live;
      }
      history := history + [DiskState(live, settled)];
    }
  }

  const META_TEMP := ".checkpoint_meta.json.tmp"

  /** The adapter files lie below their exports' own directories. */
  predicate OwnFiles(request: Request) {
    NoDup(request.adapters) && forall f :: f in request.adapters ==> f != CHECKPOINT && f != META && f != META_TEMP
  }

  // ---- The transaction ----------------------------------------------------------------------

  class SaveTransaction {
    const disk: Disk
    const final: string
    const staging: string
    const request: Request
    ghost const init: DiskState

    constructor (disk: Disk, final: string, suffix: string, request: Request)
      requires OwnFiles(request)
      requires final + STAGING_MARK + suffix !in disk.live
      requires disk.history == [disk.Now()]
      ensures this.disk == disk && this.final == final && this.staging == final + STAGING_MARK + suffix
      ensures this.request == request && init == disk.Now() && Valid()
    {
      this.disk, this.final, this.request := disk, final, request;
      this.staging := final + STAGING_MARK + suffix;
      init := disk.Now();
    }

    ghost predicate Valid()
      reads disk
    {
      && OwnFiles(request) && staging !in init.live && staging != final
      && (staging in disk.live ==> disk.settled == init.settled)
      && disk.history != [] && disk.history[|disk.history| - 1] == disk.Now()
      && forall s :: s in disk.history ==> Safe(init, request, final, staging, s)
    }

    /** Nothing but the staging directory differs from the start. */
    ghost predicate Staged()
      reads disk
    {
      disk.settled == init.settled && staging in disk.live && disk.live == init.live[staging := disk.live[staging]]
    }

    /** Begin the transaction. */
    method Begin() returns (ok: bool)
      requires Valid() && disk.Now() == init
      modifies disk
      ensures Valid()
      ensures ok ==> Staged() && disk.live[staging] == Dir(map[], false)
      ensures !ok ==> disk.Now() == init
      ensures old(disk.clock) <= disk.clock && (ok <==> Quiet(disk.faults, old(disk.clock), disk.clock))
    {
      ok := disk.MakeDir(staging);
    }

    /** Write one file: torn for a while, then whole. */
    method WriteFile(f: string, size: nat, text: MetaText) returns (ok: bool)
      requires Valid() && Staged()
      modifies disk
      ensures Valid() && Staged()
      ensures ok ==> disk.live[staging] == Dir(old(disk.live[staging].files)[f := File(true, size, text, false)], false)
      ensures old(disk.clock) <= disk.clock && (ok <==> Quiet(disk.faults, old(disk.clock), disk.clock))
    {
      ok := PutStaged(f, false, 0, Unreadable);
      if ok {
        ok := PutStaged(f, true, size, text);
      }
    }

    method PutStaged(f: string, whole: bool, size: nat, text: MetaText) returns (ok: bool)
      requires Valid() && Staged()
      modifies disk
      ensures Valid() && Staged()
      ensures ok ==>
                disk.live[staging] == Dir(old(disk.live[staging].files)[f := File(whole, size, text, false)], false)
      ensures old(disk.clock) <= disk.clock && (ok <==> Quiet(disk.faults, old(disk.clock), disk.clock))
    {
      ok := disk.Put(staging, f, whole, size, text);
    }

    /** `write` up to `_publish`. */
    method Write() returns (ok: bool)
      requires Valid() && Staged() && disk.live[staging].files == map[]
      modifies disk
      ensures Valid() && Staged()
      ensures ok ==> Filled(disk.live[staging].files)
      ensures old(disk.clock) <= disk.clock
      ensures ok <==> GoodFields(request) && Quiet(disk.faults, old(disk.clock), disk.clock)
    {
      assert OwnFiles(request);
      hide Valid;
      ok := WriteFile(CHECKPOINT, request.size, Unreadable);
      if !ok { return; }
      ok := SyncStaged(CHECKPOINT);
      if !ok { return; }
      for i := 0 to |request.adapters|
        invariant Valid() && Staged() && AllWhole(disk.live[staging].files)
        invariant CHECKPOINT in disk.live[staging].files && disk.live[staging].files[CHECKPOINT].size == request.size
        invariant forall f :: f in request.adapters[..i] ==> f in disk.live[staging].files
        invariant old(disk.clock) <= disk.clock && Quiet(disk.faults, old(disk.clock), disk.clock)
      {
        assert request.adapters[i] in request.adapters;
        assert request.adapters[..i + 1] == request.adapters[..i] + [request.adapters[i]];
        ok := WriteFile(request.adapters[i], 0, Unreadable);
        if !ok { return; }
      }
      assert request.adapters[..|request.adapters|] == request.adapters;
      if exists name :: name in MIRRORED && BadField(request.progress, name) {
        return false;
      }
      ok := WriteMeta();
    }

    ghost predicate AllWhole(files: Files) { forall f :: f in files ==> files[f].whole }

    ghost predicate Filled(files: Files) {
      && AllWhole(files)
      && CHECKPOINT in files && files[CHECKPOINT].size == request.size
      && META in files && files[META].text == Object(MetaFor(request))
      && (forall f :: f in request.adapters ==> f in files)
      && GoodFields(request)
    }

    method SyncStaged(f: string) returns (ok: bool)
      requires Valid() && Staged() && f in disk.live[staging].files
      modifies disk
      ensures Valid() && Staged()
      ensures var d := old(disk.live[staging]);
              disk.live[staging] == if ok then Dir(d.files[f := d.files[f].(synced := true)], d.synced) else d
      ensures old(disk.clock) <= disk.clock && (ok <==> Quiet(disk.faults, old(disk.clock), disk.clock))
    {
      ok := disk.SyncFile(staging, f);
    }

    method RenameStaged(f: string, g: string) returns (ok: bool)
      requires Valid() && Staged() && f in disk.live[staging].files && f != g
      modifies disk
      ensures Valid() && Staged()
      ensures var d := old(disk.live[staging]);
              disk.live[staging] == if ok then Dir((d.files - {f})[g := d.files[f]], false) else d
      ensures old(disk.clock) <= disk.clock && (ok <==> Quiet(disk.faults, old(disk.clock), disk.clock))
    {
      ok := disk.RenameFile(staging, f, g);
    }

    method UnlinkStaged(f: string) returns (ok: bool)
      requires Valid() && Staged() && f in disk.live[staging].files
      modifies disk
      ensures Valid() && Staged()
      ensures var d := old(disk.live[staging]);
              disk.live[staging] == if ok then Dir(d.files - {f}, false) else d
      ensures old(disk.clock) <= disk.clock && (ok <==> Quiet(disk.faults, old(disk.clock), disk.clock))
    {
      ok := disk.Unlink(staging, f);
    }

    /** `atomic_file` for the metadata: a temporary sibling, flushed, then renamed over it. */
    method WriteMeta() returns (ok: bool)
      requires Valid() && Staged() && AllWhole(disk.live[staging].files)
      requires CHECKPOINT in disk.live[staging].files && disk.live[staging].files[CHECKPOINT].size == request.size
      requires forall f :: f in request.adapters ==> f in disk.live[staging].files
      requires GoodFields(request)
      modifies disk
      ensures Valid() && Staged()
      ensures ok ==> Filled(disk.live[staging].files)
      ensures old(disk.clock) <= disk.clock && (ok <==> Quiet(disk.faults, old(disk.clock), disk.clock))
    {
      ok := WriteFile(META_TEMP, 0, Object(MetaFor(request)));
      if ok {
        ok := SyncStaged(META_TEMP);
      }
      if ok {
        ok := RenameStaged(META_TEMP, META);
      }
      if !ok && META_TEMP in disk.live[staging].files {
        var _ := UnlinkStaged(META_TEMP);
      }
    }

    method SyncStaging() returns (ok: bool)
      requires Valid() && Staged()
      modifies disk
      ensures Valid() && Staged()
      ensures disk.live[staging] == if ok then Dir(old(disk.live[staging].files), true) else old(disk.live[staging])
      ensures old(disk.clock) <= disk.clock && (ok <==> Quiet(disk.faults, old(disk.clock), disk.clock))
    {
      ok := disk.SyncDir(staging);
    }

    /** The first half of `_publish`: flush every file, in whatever order the walk finds them, and
        then the directory. */
    method Flush() returns (ok: bool)
      requires Valid() && Staged() && Filled(disk.live[staging].files)
      modifies disk
      ensures Valid() && Staged()
      ensures ok ==> Finished(request, disk.live[staging])
      ensures old(disk.clock) <= disk.clock && (ok <==> Quiet(disk.faults, old(disk.clock), disk.clock))
    {
      hide Valid;
      var todo := disk.live[staging].files.Keys;
      while todo != {}
        invariant Valid() && Staged() && Filled(disk.live[staging].files) && todo <= disk.live[staging].files.Keys
        invariant forall f :: f in disk.live[staging].files && f !in todo ==> disk.live[staging].files[f].synced
        invariant old(disk.clock) <= disk.clock && Quiet(disk.faults, old(disk.clock), disk.clock)
        decreases |todo|
      {
        var f :| f in todo;
        ok := SyncStaged(f);
        if !ok { return; }
        todo := todo - {f};
      }
      ok := SyncStaging();
    }

    /** The staging directory is finished; the old checkpoint may be partly gone. */
    ghost predicate Publishing()
      reads disk
    {
      && disk.settled == init.settled && staging in disk.live && Finished(request, disk.live[staging])
      && OthersKept(init.live, final, staging, disk.live)
      && (final in disk.live ==> final in init.live && Remnant(init.live[final], disk.live[final]))
    }

    lemma StillPublishing(live: map<string, Dir>)
      requires Valid() && Publishing() && final in disk.live
      requires live == disk.live - {final}
               || exists f :: f in disk.live[final].files
                     && live == disk.live[final := Dir(disk.live[final].files - {f}, false)]
      ensures Safe(init, request, final, staging, DiskState(live, disk.settled))
      ensures OthersKept(init.live, final, staging, live) && staging in live && live[staging] == disk.live[staging]
      ensures final in live ==> Remnant(init.live[final], live[final])
    {
    }

    /** One file of the old checkpoint goes. */
    method UnlinkOld(f: string) returns (ok: bool)
      requires Valid() && Publishing() && final in disk.live && f in disk.live[final].files
      modifies disk
      ensures Valid() && Publishing() && final in disk.live
      ensures disk.live[final].files == if ok then old(disk.live[final].files) - {f} else old(disk.live[final].files)
      ensures old(disk.clock) <= disk.clock && (ok <==> Quiet(disk.faults, old(disk.clock), disk.clock))
    {
      StillPublishing(disk.live[final := Dir(disk.live[final].files - {f}, false)]);
      hide Remnant, Finished, OthersKept;
      ok := disk.Unlink(final, f);
    }

    method DropOld() returns (ok: bool)
      requires Valid() && Publishing() && final in disk.live && disk.live[final].files == map[]
      modifies disk
      ensures Valid() && Publishing()
      ensures ok ==> final !in disk.live
      ensures old(disk.clock) <= disk.clock && (ok <==> Quiet(disk.faults, old(disk.clock), disk.clock))
    {
      StillPublishing(disk.live - {final});
      hide Remnant, Finished, OthersKept;
      ok := disk.RemoveDir(final);
    }

    /** `shutil.rmtree` of the old checkpoint, in whatever order it finds the files. */
    method RemoveOld() returns (ok: bool)
      requires Valid() && Publishing() && final in disk.live
      modifies disk
      ensures Valid() && Publishing()
      ensures ok ==> final !in disk.live
      ensures old(disk.clock) <= disk.clock && (ok <==> Quiet(disk.faults, old(disk.clock), disk.clock))
    {
      hide Remnant, Finished, OthersKept, Safe;
      var todo := disk.live[final].files.Keys;
      while todo != {}
        invariant Valid() && Publishing() && final in disk.live && todo == disk.live[final].files.Keys
        invariant old(disk.clock) <= disk.clock && Quiet(disk.faults, old(disk.clock), disk.clock)
        decreases |todo|
      {
        var f :| f in todo;
        ok := UnlinkOld(f);
        if !ok { return; }
        todo := todo - {f};
      }
      assert disk.live[final].files.Keys == {};
      ok := DropOld();
    }

    /** The rename makes the finished directory the published one. */
    method MoveIn() returns (ok: bool)
      requires Valid() && Publishing() && final !in disk.live
      modifies disk
      ensures Valid() && disk.settled == init.settled
      ensures ok ==> OthersKept(init.live, final, staging, disk.live)
                     && final in disk.live && staging !in disk.live && Finished(request, disk.live[final])
      ensures old(disk.clock) <= disk.clock && (ok <==> Quiet(disk.faults, old(disk.clock), disk.clock))
    {
      assert final in init.live ==> Remnant(init.live[final], init.live[final]);
      hide Remnant, Finished;
      ok := disk.RenameDir(staging, final);
    }

    /** `_publish`. The save succeeded only if the parent was flushed after the rename. */
    method Publish() returns (ok: bool)
      requires Valid() && Staged() && Filled(disk.live[staging].files)
      modifies disk
      ensures Valid()
      ensures ok ==> disk.settled == disk.live && OthersKept(init.live, final, staging, disk.live)
                     && final in disk.live && staging !in disk.live && Finished(request, disk.live[final])
      ensures old(disk.clock) <= disk.clock && (ok <==> Quiet(disk.faults, old(disk.clock), disk.clock))
    {
      ok := Flush();
      if !ok { return; }
      assert final in disk.live ==> Remnant(init.live[final], disk.live[final]);
      hide Remnant, Finished;
      if final in disk.live {
        ok := RemoveOld();
        if !ok { return; }
      }
      ok := MoveIn();
      if !ok { return; }
      ok := disk.SyncParent();
    }

    /** `__exit__` after an error: remove the staging directory, ignoring every further error. */
    method Discard()
      requires Valid()
      modifies disk
      ensures Valid() && disk.settled == old(disk.settled) && old(disk.clock) <= disk.clock
      ensures disk.live - {staging} == old(disk.live) - {staging}
      ensures Quiet(disk.faults, old(disk.clock), disk.clock) ==> staging !in disk.live
    {
      if staging !in disk.live {
        return;
      }
      var todo := disk.live[staging].files.Keys;
      while todo != {}
        invariant Valid() && staging in disk.live && todo <= disk.live[staging].files.Keys
        invariant disk.settled == old(disk.settled) && old(disk.clock) <= disk.clock
        invariant disk.live - {staging} == old(disk.live) - {staging}
        invariant Quiet(disk.faults, old(disk.clock), disk.clock) ==> todo == disk.live[staging].files.Keys
        decreases |todo|
      {
        var f :| f in todo;
        UnlinkAny(f);
        todo := todo - {f};
      }
      if disk.live[staging].files == map[] {
        DropStaging();
      }
    }

    method UnlinkAny(f: string)
      requires Valid() && staging in disk.live && f in disk.live[staging].files
      modifies disk
      ensures Valid() && staging in disk.live && disk.settled == old(disk.settled) && disk.clock == old(disk.clock) + 1
      ensures disk.live - {staging} == old(disk.live) - {staging}
      ensures old(disk.live[staging].files.Keys) - {f} <= disk.live[staging].files.Keys
      ensures old(disk.clock) !in disk.faults ==> f !in disk.live[staging].files
      ensures disk.live[staging].files.Keys <= old(disk.live[staging].files.Keys)
    {
      assert disk.Now() in disk.history;
      hide Remnant, Finished;
      var _ := disk.Unlink(staging, f);
    }

    method DropStaging()
      requires Valid() && staging in disk.live && disk.live[staging].files == map[]
      modifies disk
      ensures Valid() && disk.settled == old(disk.settled) && disk.clock == old(disk.clock) + 1
      ensures disk.live - {staging} == old(disk.live) - {staging}
      ensures old(disk.clock) !in disk.faults ==> staging !in disk.live
    {
      assert disk.Now() in disk.history;
      hide Remnant, Finished;
      var _ := disk.RemoveDir(staging);
    }
  }

  /** What a save that succeeded leaves. */
  ghost predicate Published(init: DiskState, request: Request, final: string, staging: string, s: DiskState) {
    && s.settled == s.live && OthersKept(init.live, final, staging, s.live)
    && final in s.live && staging !in s.live && Finished(request, s.live[final])
  }

  /** One whole save, on whatever disk earlier saves left. Whatever raises and wherever the process or
      the power goes, the disk is in a safe state. */
  method Save(disk: Disk, final: string, suffix: string, request: Request) returns (ok: bool)
    requires OwnFiles(request) && final + STAGING_MARK + suffix !in disk.live && disk.history == [disk.Now()]
    modifies disk
    ensures disk.history != [] && disk.history[|disk.history| - 1] == disk.Now()
    ensures forall s :: s in disk.history ==> Safe(old(disk.Now()), request, final, final + STAGING_MARK + suffix, s)
    ensures ok ==> Published(old(disk.Now()), request, final, final + STAGING_MARK + suffix, disk.Now())
    ensures old(disk.clock) <= disk.clock
    ensures ok <==> GoodFields(request) && Quiet(disk.faults, old(disk.clock), disk.clock)
    ensures !GoodFields(request) && Quiet(disk.faults, old(disk.clock), disk.clock) ==> disk.Now() == old(disk.Now())
  {
    var transaction := new SaveTransaction(disk, final, suffix, request);
    ok := transaction.Begin();
    if !ok { return; }
    ok := transaction.Write();
    assert disk.live - {transaction.staging} == old(disk.live);
    if ok {
      ok := transaction.Publish();
    }
    if !ok {
      transaction.Discard();
      assert transaction.staging !in disk.live ==> disk.live - {transaction.staging} == disk.live;
    }
  }
}

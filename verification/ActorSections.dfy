/** Each atomic stretch of `run` keeps the local invariants, or leaves cleanly. */
module ActorSections {
  import opened Sequences
  import opened ActorFleet
  import opened ActorRuns
  import opened ActorProofs

  /** The locals a submission pass leaves alone. */
  ghost predicate SameRequest(run: Run, run': Run) {
    && run'.jobs == run.jobs && run'.methods == run.methods && run'.task == run.task
    && run'.deliveries == run.deliveries && run'.answers == run.answers && run'.results == run.results
  }

  /** A run in the middle of a turn: jobs accounted for, own calls holding their slots. */
  ghost predicate Working(f: Fleet, run: Run, pending: seq<nat>) {
    && FleetOk(f)
    && JobsOk(f.workers, run)
    && Ledger(run, pending)
    && (f.Open() ==> Registered(f.active, run.flights))
  }

  // ---- Submission ---------------------------------------------------------------------

  ghost predicate PassOk(f: Fleet, r: RunId, run: Run, pass: Pass) {
    match pass
    case Passed(g, run') =>
      && Working(g, run', run'.pending) && g.Open() && SameRequest(run, run') && OthersKeep(f, g, r)
      && SameRest(f.active, run.flights, g.active, run'.flights)
      && Grows(f.active, run.flights, run'.flights)
    case Stopped(s) => Departed(f, run.flights, r, s)
  }

  lemma KeepPending(run: Run, pending: seq<nat>)
    requires Ledger(run, pending)
    ensures Ledger(run.(pending := pending), pending)
    ensures forall workers :: JobsOk(workers, run) ==> JobsOk(workers, run.(pending := pending))
  {
    var run' := run.(pending := pending);
    assert forall p :: run'.Candidates(p) == run.Candidates(p);
    assert forall p :: InFlight(run', p) <==> InFlight(run, p);
    assert forall p :: HasResult(run', p) <==> HasResult(run, p);
    assert forall p, w :: BoundTo(run', p, w) <==> BoundTo(run, p, w);
  }

  /** A job tried without a slot is not bound to the worker a later job takes. */
  lemma BlockedElsewhere(f: Fleet, r: RunId, run: Run, kept: seq<nat>, p: nat, w: WorkerId)
    requires Pick(f, r, run.Candidates(p)) == Some(w)
    requires forall q :: q in kept ==> !f.CanAcquire(r, run.Candidates(q))
    ensures forall v, q :: q in kept && BoundTo(run, q, v) ==> !BoundTo(run, p, v)
  {
    forall v, q | q in kept && BoundTo(run, q, v) ensures !BoundTo(run, p, v) {
      assert v in run.Candidates(q);
      assert !CanTake(f.available, f.queues, r, v);
      assert CanTake(f.available, f.queues, r, w);
    }
  }

  /** Every job tried so far finds no slot. */
  ghost predicate Blocked(f: Fleet, r: RunId, run: Run, kept: seq<nat>) {
    forall p :: p in kept ==> !f.CanAcquire(r, run.Candidates(p))
  }

  /** What a successful submission establishes. */
  ghost predicate FlewOk(f: Fleet, r: RunId, run: Run, kept: seq<nat>, pending: seq<nat>, h: Fleet, run': Run) {
    && h.Open() && Working(h, run', pending) && SameRequest(run, run') && OthersKeep(f, h, r)
    && Blocked(h, r, run', kept)
    && SameRest(f.active, run.flights, h.active, run'.flights)
    && Grows(f.active, run.flights, run'.flights)
  }

  /** Calls are only added, under refs nobody held. */
  ghost predicate Grows(active: map<Ref, WorkerId>, flights: map<Ref, Flight>, flights': map<Ref, Flight>) {
    && (forall ref :: ref in flights ==> ref in flights')
    && (forall ref :: ref in flights' && ref !in flights ==> ref !in active)
  }

  ghost predicate AttemptOk(f: Fleet, r: RunId, run: Run, kept: seq<nat>, todo: seq<nat>, attempt: Attempt)
    requires todo != []
  {
    match attempt
    case NoSlot => !f.CanAcquire(r, run.Candidates(todo[0]))
    case Ended(s) => Departed(f, run.flights, r, s)
    case Flew(h, run') => FlewOk(f, r, run, kept, kept + todo[1..], h, run')
  }

  lemma NothingInFlight(run: Run)
    requires Progress(run) && run.submitted == []
    ensures run.flights == map[]
  {
    assert run.flights.Keys == {};
  }

  lemma RaiseOk(f: Fleet, g: Fleet, r: RunId, run: Run, p: nat, w: WorkerId, rest: seq<nat>)
    requires f.Open() && TakenOk(g, w) && OthersKeep(f, g, r) && g.active == f.active && Progress(run)
    requires Registered(f.active, run.flights) && g.Wants(r) == []
    ensures Departed(f, run.flights, r, Launch(g, r, run, CallRaises, p, w, rest).section)
  {
    ReleaseOk(g, w);
    if run.submitted == [] {
      NothingInFlight(run);
      hide Progress, Slots, Shape, Queues, Wakeups, SlotsBut;
      LeaveFleetOk(Release(g, w), r);
      assert Withdraw(Release(g, w), r) == Release(g, w);
    } else {
      hide Progress, Slots, Shape, Queues, Wakeups, SlotsBut;
      CloseAndLeaveOk(f, Release(g, w), run.flights, r, run.(pending := rest), CallFailed(r, p));
    }
  }

  lemma AcceptFleetOk(f: Fleet, r: RunId, ref: Ref, w: WorkerId, flights: map<Ref, Flight>, p: nat)
    requires f.Open() && FleetOk(f) && CanTake(f.available, f.queues, r, w)
    requires ref !in f.active && Registered(f.active, flights)
    ensures var h, flights' := Register(Take(f, r, w), ref, w), flights[ref := Flight(p, w)];
            && FleetOk(h) && h.Open() && OthersKeep(f, h, r)
            && Registered(h.active, flights') && SameRest(f.active, flights, h.active, flights')
            && Grows(f.active, flights, flights')
  {
    TakeKeeps(f, r, w);
    var g := Take(f, r, w);
    assert g.Open() && ref !in g.active;
    hide Take, CanTake, FleetOk;
    RegisterOk(g, ref, w);
    hide TakenOk;
    RegisterKeeps(f, g, r, ref, w);
    RegisterRest(f.active, flights, ref, w, p);
  }

  lemma RegisterKeeps(f: Fleet, g: Fleet, r: RunId, ref: Ref, w: WorkerId)
    requires OthersKeep(f, g, r)
    ensures OthersKeep(f, Register(g, ref, w), r)
  {
  }

  lemma RegisterRest(active: map<Ref, WorkerId>, flights: map<Ref, Flight>, ref: Ref, w: WorkerId, p: nat)
    requires ref !in active && Registered(active, flights)
    ensures var active', flights' := active[ref := w], flights[ref := Flight(p, w)];
            && Registered(active', flights') && SameRest(active, flights, active', flights')
            && Grows(active, flights, flights')
  {
  }

  lemma AcceptBlocked(f: Fleet, r: RunId, ref: Ref, w: WorkerId, run: Run, kept: seq<nat>)
    requires f.Open() && FleetOk(f) && CanTake(f.available, f.queues, r, w) && Blocked(f, r, run, kept)
    ensures Blocked(Register(Take(f, r, w), ref, w), r, run, kept)
  {
    TakeKeeps(f, r, w);
    var g := Take(f, r, w);
    forall p | p in kept ensures !Register(g, ref, w).CanAcquire(r, run.Candidates(p)) {
      assert !f.CanAcquire(r, run.Candidates(p));
      assert !g.CanAcquire(r, run.Candidates(p));
    }
  }

  lemma AcceptLedger(f: Fleet, r: RunId, run: Run, ref: Ref, kept: seq<nat>, todo: seq<nat>, w: WorkerId)
    requires todo != [] && JobsOk(f.workers, run) && Ledger(run, kept + todo) && Blocked(f, r, run, kept)
    requires Pick(f, r, run.Candidates(todo[0])) == Some(w) && ref !in run.flights
    ensures var run' := Submit(run, ref, todo[0], w);
            && JobsOk(f.workers, run') && Ledger(run', kept + todo[1..]) && Blocked(f, r, run', kept)
  {
    BlockedElsewhere(f, r, run, kept, todo[0], w);
    hide Pick;
    assert Submit(run, ref, todo[0], w).jobs == run.jobs;
    assert forall q :: Submit(run, ref, todo[0], w).Candidates(q) == run.Candidates(q);
    hide Ledger;
    SubmitLedger(run, ref, kept, todo, w);
  }

  lemma AcceptRunOk(f: Fleet, r: RunId, run: Run, ref: Ref, kept: seq<nat>, todo: seq<nat>, w: WorkerId)
    requires f.Open() && todo != [] && Working(f, run, kept + todo) && Blocked(f, r, run, kept)
    requires Pick(f, r, run.Candidates(todo[0])) == Some(w) && ref !in run.flights
    ensures var run' := Submit(run, ref, todo[0], w);
            && JobsOk(f.workers, run') && Ledger(run', kept + todo[1..])
            && Blocked(Register(Take(f, r, w), ref, w), r, run', kept)
  {
    hide FleetOk, Ledger, JobsOk, Blocked, Registered, Take;
    AcceptLedger(f, r, run, ref, kept, todo, w);
    AcceptBlocked(f, r, ref, w, Submit(run, ref, todo[0], w), kept);
  }

  lemma AcceptOk(f: Fleet, r: RunId, run: Run, ref: Ref, kept: seq<nat>, todo: seq<nat>, w: WorkerId)
    requires f.Open() && todo != [] && Working(f, run, kept + todo) && Blocked(f, r, run, kept)
    requires Pick(f, r, run.Candidates(todo[0])) == Some(w) && ref !in f.active
    ensures var h, run' := Register(Take(f, r, w), ref, w), Submit(run, ref, todo[0], w);
            FlewOk(f, r, run, kept, kept + todo[1..], h, run')
  {
    assert ref !in run.flights;
    assert CanTake(f.available, f.queues, r, w);
    hide Ledger, JobsOk, FleetOk, SameRest, Registered, OthersKeep, Blocked, Take, Pick, CanTake, Grows;
    AcceptRunOk(f, r, run, ref, kept, todo, w);
    AcceptFleetOk(f, r, ref, w, run.flights, todo[0]);
  }

  lemma TryJobOk(f: Fleet, r: RunId, run: Run, call: Call, kept: seq<nat>, todo: seq<nat>)
    requires f.Open() && todo != [] && Working(f, run, kept + todo) && Blocked(f, r, run, kept)
    ensures AttemptOk(f, r, run, kept, todo, TryJob(f, r, run, call, todo[0], todo[1..] + kept))
  {
    var p, rest := todo[0], todo[1..] + kept;
    var choice := Pick(f, r, run.Candidates(p));
    if choice.Some? {
      var w := choice.value;
      var g := Take(f, r, w);
      TakeKeeps(f, r, w);
      match call {
        case CallRaises => RaiseOk(f, g, r, run, p, w, rest);
        case Accepted(ref) =>
          if ref in g.active {
            CloseAndLeaveOk(f, g, run.flights, r, run.(pending := rest), CallFailed(r, p));
          } else {
            AcceptOk(f, r, run, ref, kept, todo, w);
          }
      }
    }
  }

  lemma SameRestTwice(
    f: Fleet, flights: map<Ref, Flight>, g: Fleet, flights': map<Ref, Flight>, h: Fleet, flights'': map<Ref, Flight>)
    ensures SameRest(f.active, flights, g.active, flights') && SameRest(g.active, flights', h.active, flights'') ==>
              SameRest(f.active, flights, h.active, flights'')
  {
  }

  lemma GrowsTwice(
    f: Fleet, flights: map<Ref, Flight>, g: Fleet, flights': map<Ref, Flight>, flights'': map<Ref, Flight>)
    requires Grows(f.active, flights, flights') && Grows(g.active, flights', flights'')
    requires SameRest(f.active, flights, g.active, flights')
    ensures Grows(f.active, flights, flights'')
  {
  }

  lemma OthersKeepTwice(f: Fleet, g: Fleet, h: Fleet, r: RunId)
    requires FleetOk(f) && OthersKeep(f, g, r) && OthersKeep(g, h, r) && (f.Open() && h.Open() ==> g.Open())
    ensures OthersKeep(f, h, r)
  {
    forall w | f.Open() && h.Open() ensures Advances(f.Queue(w), h.Queue(w), r) {
      assert NoDup(QueueOf(f.queues, w));
      AdvancesTwice(f.Queue(w), g.Queue(w), h.Queue(w), r);
    }
  }

  /** What a stretch owes the rest of the world carries over from a later start to an earlier one. */
  lemma DepartVia(f: Fleet, flights: map<Ref, Flight>, r: RunId, h: Fleet, flights': map<Ref, Flight>, s: Section)
    requires FleetOk(f) && f.Open() && h.Open() && OthersKeep(f, h, r)
              && SameRest(f.active, flights, h.active, flights')
    requires Departed(h, flights', r, s)
    ensures Departed(f, flights, r, s)
  {
    SameRestTwice(f, flights, h, flights', s.fleet, map[]);
    OthersKeepTwice(f, h, s.fleet, r);
    hide OthersKeep, FleetOk, OutcomeOk;
  }

  lemma PassChain(f: Fleet, r: RunId, run: Run, h: Fleet, run': Run, pass: Pass)
    requires FleetOk(f) && f.Open() && h.Open() && OthersKeep(f, h, r) && SameRequest(run, run')
    requires SameRest(f.active, run.flights, h.active, run'.flights)
    requires Grows(f.active, run.flights, run'.flights)
    requires PassOk(h, r, run', pass)
    ensures PassOk(f, r, run, pass)
  {
    hide OthersKeep, SameRest, Departed, Working, Grows, FleetOk;
    match pass {
      case Passed(g, run'') =>
        OthersKeepTwice(f, h, g, r);
        SameRestTwice(f, run.flights, h, run'.flights, g, run''.flights);
        GrowsTwice(f, run.flights, h, run'.flights, run''.flights);
      case Stopped(s) =>
        DepartVia(f, run.flights, r, h, run'.flights, s);
    }
  }

  /** A submission pass over an open fleet: every slot it takes is registered to one of its
      own jobs, and nobody else loses a place. */
  lemma {:induction false} SubmitPassOk(
    f: Fleet, r: RunId, run: Run, calls: nat -> Call, kept: seq<nat>, todo: seq<nat>)
    requires f.Open() && Working(f, run, kept + todo) && Blocked(f, r, run, kept)
    ensures PassOk(f, r, run, SubmitPass(f, r, run, calls, kept, todo))
    decreases todo
  {
    if todo == [] {
      assert kept + todo == kept;
      KeepPending(run, kept);
    } else {
      var p, rest := todo[0], todo[1..];
      var attempt := TryJob(f, r, run, calls(p), p, rest + kept);
      TryJobOk(f, r, run, calls(p), kept, todo);
      match attempt {
        case NoSlot =>
          assert kept + [p] + rest == kept + todo;
          SubmitPassOk(f, r, run, calls, kept + [p], rest);
        case Ended(section) =>
        case Flew(h, run') =>
          if h.available == {} {
            FlewLast(f, r, run, kept, kept + rest, h, run');
          } else {
            SubmitPassOk(h, r, run', calls, kept, rest);
            FlewChain(f, r, run, kept, kept + rest, h, run', SubmitPass(h, r, run', calls, kept, rest));
          }
      }
    }
  }

  lemma FlewLast(f: Fleet, r: RunId, run: Run, kept: seq<nat>, pending: seq<nat>, h: Fleet, run': Run)
    requires FlewOk(f, r, run, kept, pending, h, run')
    ensures PassOk(f, r, run, Passed(h, run'.(pending := pending)))
  {
    hide FleetOk, Registered, OthersKeep, SameRest, Grows;
    KeepPending(run', pending);
  }

  lemma FlewChain(f: Fleet, r: RunId, run: Run, kept: seq<nat>, pending: seq<nat>, h: Fleet, run': Run, pass: Pass)
    requires FleetOk(f) && f.Open() && FlewOk(f, r, run, kept, pending, h, run') && PassOk(h, r, run', pass)
    ensures PassOk(f, r, run, pass)
  {
    hide FleetOk, Ledger, JobsOk, Registered, OthersKeep, SameRest, Grows, PassOk;
    PassChain(f, r, run, h, run', pass);
  }

  // ---- Waiting ------------------------------------------------------------------------

  /** A live run between two stretches. */
  ghost predicate AtRest(f: Fleet, r: RunId, run: Run) {
    && Working(f, run, run.pending)
    && (f.Open() ==> f.Wants(r) == Wanted(run, f.workers))
    && (run.pending == [] ==> f.Wants(r) == [])
    && (f.Wants(r) != [] ==> run.task != NoTask)
    && (r in f.asleep ==> run.task == Live)
    && (run.task == Crashed ==> !f.Open())
    && (run.phase.Waiting? ==> run.flights != map[] || run.task != NoTask)
    && (run.phase.Settling? ==> run.phase.settled != {} && run.phase.settled <= run.flights.Keys)
  }

  /** A live run in the middle of a stretch, about to submit or leave. */
  ghost predicate MidTurn(f: Fleet, r: RunId, run: Run) {
    && Working(f, run, run.pending)
    && (run.pending == [] && !f.Open() ==> f.Wants(r) == [])
    && (r in f.asleep ==> run.task == Live)
    && (run.task == Crashed ==> !f.Open())
  }

  /** A stretch that went on living; `flights` were in the air when it started on `f`. */
  ghost predicate WentOn(f: Fleet, flights: map<Ref, Flight>, r: RunId, s: Section) {
    && s.run.Alive() && AtRest(s.fleet, r, s.run) && OthersKeep(f, s.fleet, r)
    && s.doomed == {} && s.fleet.terminal == f.terminal
    && (f.Open() ==> SameRest(f.active, flights, s.fleet.active, s.run.flights))
    && Fresh(f, flights, s.run.flights)
  }

  /** New calls carry refs nobody held; a closed fleet takes none. */
  ghost predicate Fresh(f: Fleet, flights: map<Ref, Flight>, flights': map<Ref, Flight>) {
    forall ref :: ref in flights' && ref !in flights ==> f.Open() && ref !in f.active
  }

  ghost predicate SectionOk(f: Fleet, flights: map<Ref, Flight>, r: RunId, s: Section) {
    WentOn(f, flights, r, s) || Departed(f, flights, r, s)
  }

  /** A run with jobs left and nothing in flight wants some worker. */
  lemma SomethingWanted(f: Fleet, run: Run)
    requires JobsOk(f.workers, run) && Partition(run.jobs, run.pending, run.submitted)
    requires run.pending != [] && run.flights == map[]
    ensures Wanted(run, f.workers) != []
  {
    var p := run.pending[0];
    assert p in run.pending && p < |run.jobs|;
    var w := run.Candidates(p)[0];
    assert w in run.Candidates(p);
    assert run.Needs(w) && !run.Busy(w);
    assert w in Wanted(run, f.workers);
  }

  /** A pass cannot end with nothing to wait for. */
  lemma PassLeavesWork(run: Run, run': Run)
    requires Ledger(run, run.pending) && Ledger(run', run'.pending) && SameRequest(run, run')
    requires forall ref :: ref in run.flights ==> ref in run'.flights
    requires run'.pending == [] && run'.flights == map[]
    ensures run.pending == [] && run.flights == map[]
  {
    assert run.flights.Keys == {};
    forall p: nat | p < |run.jobs| ensures p in run.submitted {
      assert p in run'.submitted && !InFlight(run', p);
      assert HasResult(run', p) <==> HasResult(run, p);
    }
    assert Elements(run.pending) == {};
    NoDupSize(run.pending);
  }

  lemma ParkOk(f: Fleet, r: RunId, run: Run)
    requires MidTurn(f, r, run) && (f.Open() || run.pending == [])
    requires run.flights != map[] || run.pending != []
    ensures var s := Park(f, r, run);
            && s.run.Alive() && AtRest(s.fleet, r, s.run) && OthersKeep(f, s.fleet, r)
            && s.doomed == {} && s.fleet.terminal == f.terminal
            && s.fleet.active == f.active && s.run.flights == run.flights
  {
    var wanted := Wanted(run, f.workers);
    if run.pending != [] && run.flights == map[] {
      SomethingWanted(f, run);
    }
    SyncOk(f, r, wanted);
    var s := Park(f, r, run);
    KeepWanted(run, s.run, f.workers);
    KeepLedger(run, s.run);
  }

  /** The task and the phase are not part of the accounts. */
  lemma KeepLedger(run: Run, run': Run)
    requires run' == run.(task := run'.task, phase := run'.phase)
    ensures Ledger(run, run.pending) ==> Ledger(run', run'.pending)
    ensures forall workers :: JobsOk(workers, run) ==> JobsOk(workers, run')
  {
    assert forall p :: run'.Candidates(p) == run.Candidates(p);
    assert forall p :: InFlight(run', p) <==> InFlight(run, p);
    assert forall p :: HasResult(run', p) <==> HasResult(run, p);
    assert forall p, w :: BoundTo(run', p, w) <==> BoundTo(run, p, w);
  }

  lemma KeepWanted(run: Run, run': Run, workers: seq<WorkerId>)
    requires run' == run.(task := run'.task, phase := run'.phase)
    ensures Wanted(run', workers) == Wanted(run, workers)
  {
    assert forall p :: run'.Candidates(p) == run.Candidates(p);
    assert forall w :: run'.Needs(w) <==> run.Needs(w);
    assert forall w :: run'.Busy(w) <==> run.Busy(w);
  }

  lemma LoopHeadDrained(f: Fleet, r: RunId, run: Run, calls: nat -> Call)
    requires MidTurn(f, r, run) && run.pending == [] && run.flights != map[]
    ensures WentOn(f, run.flights, r, LoopHead(f, r, run, calls))
  {
    assert run.(pending := []) == run;
    ParkOk(f, r, run);
    hide Ledger, JobsOk, FleetOk;
  }

  lemma LoopHeadClosed(f: Fleet, r: RunId, run: Run, calls: nat -> Call)
    requires MidTurn(f, r, run) && !f.Open()
    requires run.flights != map[] || run.pending != []
    ensures SectionOk(f, run.flights, r, LoopHead(f, r, run, calls))
  {
    hide MidTurn, WentOn, Departed;
    if run.pending == [] {
      LoopHeadDrained(f, r, run, calls);
    } else {
      assert FleetOk(f) by { ItsFleetOk(f, r, run); }
      hide FleetOk;
      LeaveClosed(f, f, run.flights, r, run.(pending := run.pending[1..] + []));
    }
  }

  lemma ItsFleetOk(f: Fleet, r: RunId, run: Run)
    requires MidTurn(f, r, run)
    ensures FleetOk(f)
  {
  }

  lemma LoopHeadPassed(f: Fleet, r: RunId, run: Run, g: Fleet, run': Run)
    requires MidTurn(f, r, run) && f.Open() && PassOk(f, r, run, Passed(g, run'))
    requires run.flights != map[] || run.pending != []
    ensures WentOn(f, run.flights, r, Park(g, r, run'))
  {
    assert MidTurn(g, r, run');
    assert SameRest(f.active, run.flights, g.active, run'.flights) && Fresh(f, run.flights, run'.flights);
    if run'.pending == [] && run'.flights == map[] {
      PassLeavesWork(run, run');
    }
    hide Working, OthersKeep, SameRest, Fresh;
    ParkOk(g, r, run');
    OthersKeepTwice(f, g, Park(g, r, run').fleet, r);
  }

  /** One turn of the main loop. */
  lemma LoopHeadOk(f: Fleet, r: RunId, run: Run, calls: nat -> Call)
    requires MidTurn(f, r, run)
    requires run.flights != map[] || run.pending != []
    ensures SectionOk(f, run.flights, r, LoopHead(f, r, run, calls))
  {
    if f.Open() {
      assert [] + run.pending == run.pending;
      hide Ledger, JobsOk, FleetOk, SameRest, Registered, OthersKeep, Departed, WentOn;
      SubmitPassOk(f, r, run, calls, [], run.pending);
      match SubmitPass(f, r, run, calls, [], run.pending) {
        case Passed(g, run') => LoopHeadPassed(f, r, run, g, run');
        case Stopped(s) =>
      }
    } else {
      LoopHeadClosed(f, r, run, calls);
    }
  }
}

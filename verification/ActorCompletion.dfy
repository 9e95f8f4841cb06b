/** Completion, timeout, cancellation and wake-up keep the local invariants, or leave cleanly. */
module ActorCompletion {
  import opened Sequences
  import opened ActorFleet
  import opened ActorRuns
  import opened ActorProofs
  import opened ActorSections

  // ---- One delivered call -------------------------------------------------------------

  /** A call that succeeded leaves the air and becomes a result. */
  lemma RecordProgress(run: Run, ref: Ref)
    requires Progress(run) && Answers(run)
    requires ref in run.flights && ref in run.deliveries && run.deliveries[ref].Succeeded?
    ensures var run' := Record(Pop(run, ref), Entry(run.flights[ref].position, run.deliveries[ref].value));
            Progress(run') && Answers(run')
  {
    var p := run.flights[ref].position;
    var entry := Entry(p, run.deliveries[ref].value);
    var run' := Record(Pop(run, ref), entry);
    assert InFlight(run, p);
    assert entry in run'.results && HasResult(run', p);
    assert forall e :: e in run'.results <==> e in run.results || e == entry;
    assert forall x :: x in run'.flights <==> x in run.flights && x != ref;
    forall i, j | 0 <= i < j < |run'.results| ensures run'.results[i].position != run'.results[j].position {
      assert run.results[i] in run.results;
    }
    forall q | q in run'.submitted ensures InFlight(run', q) || HasResult(run', q) {
      if InFlight(run, q) {
        var x :| x in run.flights && run.flights[x].position == q;
        assert x == ref || run'.flights[x].position == q;
      } else {
        var e :| e in run.results && e.position == q;
        assert e in run'.results;
      }
    }
    forall e | e in run'.results ensures e.position in run'.submitted && !InFlight(run', e.position) {
      assert e == entry || !InFlight(run, e.position);
    }
    assert forall q :: run'.Candidates(q) == run.Candidates(q);
  }

  /** Taking a call out of the air and giving its slot back leaves everybody else's calls. */
  lemma FinishKeeps(f: Fleet, r: RunId, flights: map<Ref, Flight>, ref: Ref)
    requires FleetOk(f) && ref in flights && (f.Open() ==> Registered(f.active, flights))
    ensures var g, flights' := Finish(f, ref, flights[ref].worker), flights - {ref};
            && FleetOk(g) && OthersKeep(f, g, r) && !ReleasesTwice(f, flights[ref].worker)
            && g.terminal == f.terminal && g.wants == f.wants
            && (f.Open() ==> Registered(g.active, flights') && SameRest(f.active, flights, g.active, flights'))
  {
    FinishOk(f, ref, flights[ref].worker);
  }

  /** A stretch so far: only this run's calls came down, nothing was submitted. */
  ghost predicate CameDown(f: Fleet, flights: map<Ref, Flight>, r: RunId, g: Fleet, flights': map<Ref, Flight>) {
    && FleetOk(f) && FleetOk(g) && OthersKeep(f, g, r) && g.terminal == f.terminal && g.wants == f.wants
    && (forall ref :: ref in flights' ==> ref in flights)
    && (f.Open() ==> Registered(g.active, flights') && SameRest(f.active, flights, g.active, flights'))
  }

  lemma CameDownChain(
    f: Fleet, flights: map<Ref, Flight>, r: RunId, g: Fleet, flights': map<Ref, Flight>, h: Fleet,
    flights'': map<Ref, Flight>)
    requires CameDown(f, flights, r, g, flights') && CameDown(g, flights', r, h, flights'')
    ensures CameDown(f, flights, r, h, flights'')
  {
    SameRestTwice(f, flights, g, flights', h, flights'');
    hide FleetOk, SameRest, OthersKeep, Registered;
    OthersKeepTwice(f, g, h, r);
  }

  lemma DepartChain(f: Fleet, flights: map<Ref, Flight>, r: RunId, g: Fleet, flights': map<Ref, Flight>, s: Section)
    requires CameDown(f, flights, r, g, flights') && Departed(g, flights', r, s)
    ensures Departed(f, flights, r, s)
  {
    SameRestTwice(f, flights, g, flights', s.fleet, map[]);
    hide FleetOk, OutcomeOk, Registered;
    OthersKeepTwice(f, g, s.fleet, r);
    hide OthersKeep;
  }

  lemma WentOnChain(f: Fleet, flights: map<Ref, Flight>, r: RunId, g: Fleet, flights': map<Ref, Flight>, s: Section)
    requires CameDown(f, flights, r, g, flights') && WentOn(g, flights', r, s)
    ensures WentOn(f, flights, r, s)
  {
    SameRestTwice(f, flights, g, flights', s.fleet, s.run.flights);
    hide FleetOk, AtRest, Registered;
    OthersKeepTwice(f, g, s.fleet, r);
    hide OthersKeep;
    forall ref | ref in s.run.flights && ref !in flights ensures f.Open() && ref !in f.active {
      assert ref !in flights';
    }
  }

  // ---- The done set -------------------------------------------------------------------

  /** The calls named in `order` have arrived, each once. */
  predicate Delivered(run: Run, order: seq<Ref>) {
    NoDup(order) && forall ref :: ref in order ==> ref in run.flights && ref in run.deliveries
  }

  lemma DeliveredRest(run: Run, order: seq<Ref>, run': Run)
    requires order != [] && Delivered(run, order)
    requires run'.flights == run.flights - {order[0]} && run'.deliveries == run.deliveries - {order[0]}
    ensures Delivered(run', order[1..])
  {
  }

  lemma SameJobs(workers: seq<WorkerId>, run: Run, run': Run, pending: seq<nat>)
    requires run'.jobs == run.jobs && run'.methods == run.methods && run'.submitted == run.submitted
    ensures BoundOrder(run, pending) ==> BoundOrder(run', pending)
    ensures JobsOk(workers, run) ==> JobsOk(workers, run')
  {
    assert forall q :: run'.Candidates(q) == run.Candidates(q);
    assert forall p, w :: BoundTo(run', p, w) <==> BoundTo(run, p, w);
  }

  lemma RecordWorking(workers: seq<WorkerId>, run: Run, ref: Ref)
    requires JobsOk(workers, run) && Ledger(run, run.pending)
    requires ref in run.flights && ref in run.deliveries && run.deliveries[ref].Succeeded?
    ensures var run' := Record(Pop(run, ref), Entry(run.flights[ref].position, run.deliveries[ref].value));
            JobsOk(workers, run') && Ledger(run', run'.pending)
  {
    var run' := Record(Pop(run, ref), Entry(run.flights[ref].position, run.deliveries[ref].value));
    hide Progress, Answers, Partition, BoundOrder, JobsOk;
    RecordProgress(run, ref);
    SameJobs(workers, run, run', run.pending);
  }

  lemma RecordMidTurn(f: Fleet, r: RunId, run: Run, ref: Ref)
    requires MidTurn(f, r, run) && ref in run.flights && ref in run.deliveries && run.deliveries[ref].Succeeded?
    ensures var flight := run.flights[ref];
            var g, run' := Finish(f, ref, flight.worker),
                Record(Pop(run, ref), Entry(flight.position, run.deliveries[ref].value));
            && MidTurn(g, r, run') && CameDown(f, run.flights, r, g, run'.flights)
            && !ReleasesTwice(f, flight.worker)
  {
    FinishKeeps(f, r, run.flights, ref);
    RecordWorking(f.workers, run, ref);
    hide FleetOk, SameRest, Registered, JobsOk, Ledger;
  }

  ghost predicate ObserveOkFor(f: Fleet, r: RunId, run: Run, o: Observation) {
    match o
    case Observed(g, run') =>
      && MidTurn(g, r, run') && CameDown(f, run.flights, r, g, run'.flights)
      && run'.pending == run.pending && run'.task == run.task
    case Aborted(s) => Departed(f, run.flights, r, s)
  }

  lemma ObserveErrored(f: Fleet, r: RunId, run: Run, order: seq<Ref>)
    requires MidTurn(f, r, run) && order != [] && Delivered(run, order) && run.deliveries[order[0]].Errored?
    ensures ObserveOkFor(f, r, run, Observe(f, r, run, order))
  {
    var ref := order[0];
    var flight := run.flights[ref];
    FinishKeeps(f, r, run.flights, ref);
    var g := Finish(f, ref, flight.worker);
    if g.Open() {
      CloseAndLeaveOk(f, g, run.flights, r, Pop(run, ref), CallFailed(r, flight.position));
    } else {
      LeaveClosed(f, g, run.flights, r, Pop(run, ref));
    }
  }

  /** Working through the done set, in any order: results are recorded and slots given back,
      until a failure closes the fleet. */
  lemma {:induction false} ObserveOk(f: Fleet, r: RunId, run: Run, order: seq<Ref>)
    requires MidTurn(f, r, run) && Delivered(run, order)
    ensures ObserveOkFor(f, r, run, Observe(f, r, run, order))
    decreases |order|
  {
    if order == [] {
    } else if run.deliveries[order[0]].Succeeded? {
      var ref := order[0];
      var flight := run.flights[ref];
      var g := Finish(f, ref, flight.worker);
      var run' := Record(Pop(run, ref), Entry(flight.position, run.deliveries[ref].value));
      RecordMidTurn(f, r, run, ref);
      DeliveredRest(run, order, run');
      hide MidTurn, CameDown, Departed;
      ObserveOk(g, r, run', order[1..]);
      match Observe(g, r, run', order[1..]) {
        case Observed(h, run'') => CameDownChain(f, run.flights, r, g, run'.flights, h, run''.flights);
        case Aborted(s) => DepartChain(f, run.flights, r, g, run'.flights, s);
      }
    } else {
      ObserveErrored(f, r, run, order);
    }
  }

  lemma FinishedOk(f: Fleet, r: RunId, run: Run)
    requires MidTurn(f, r, run) && run.flights == map[] && run.pending == []
    ensures Departed(f, run.flights, r, Leave(f, r, run, if f.Open() then Returned(Result(run)) else Refused, {}))
  {
    if f.Open() {
      ResultComplete(run);
      LeaveFleetOk(f, r);
      var s := Leave(f, r, run, Returned(Result(run)), {});
      KeepComplete(run, s.run, Result(run));
    } else {
      LeaveClosed(f, f, run.flights, r, run);
    }
  }

  lemma KeepComplete(run: Run, run': Run, pairs: seq<(int, Value)>)
    requires run'.jobs == run.jobs && run'.answers == run.answers && Complete(run, pairs)
    ensures Complete(run', pairs)
  {
    assert Image((p: nat) => AnswerTo(run, p), Upto(|run.jobs|)) ==
        Image((p: nat) => AnswerTo(run', p), Upto(|run'.jobs|));
  }

  lemma ContinueOk(f: Fleet, r: RunId, run: Run, calls: nat -> Call)
    requires MidTurn(f, r, run)
    ensures SectionOk(f, run.flights, r, Continue(f, r, run, calls))
  {
    hide MidTurn, Departed, WentOn;
    if run.flights != map[] || run.pending != [] {
      LoopHeadOk(f, r, run, calls);
    } else {
      FinishedOk(f, r, run);
    }
  }

  /** A resumed wait: the done set, then another turn or the end of the run. */
  lemma ResumeOk(f: Fleet, r: RunId, run: Run, order: seq<Ref>, calls: nat -> Call)
    requires AtRest(f, r, run) && Delivered(run, order)
    ensures SectionOk(f, run.flights, r, Resume(f, r, run, order, calls))
  {
    if run.task == Crashed {
      LeaveClosed(f, f, run.flights, r, run);
    } else {
      var run' := if run.task == Done then run.(task := NoTask) else run;
      KeepLedger(run, run');
      assert MidTurn(f, r, run') && Delivered(run', order);
      hide MidTurn, CameDown, Departed, WentOn, AtRest, Delivered, Continue;
      ObserveOk(f, r, run', order);
      match Observe(f, r, run', order) {
        case Observed(g, run'') =>
          ContinueOk(g, r, run'', calls);
          var s := Continue(g, r, run'', calls);
          if WentOn(g, run''.flights, r, s) {
            WentOnChain(f, run.flights, r, g, run''.flights, s);
          } else {
            DepartChain(f, run.flights, r, g, run''.flights, s);
          }
        case Aborted(s) =>
      }
    }
  }

  /** A timed-out wait closes the fleet. */
  lemma ExpireOk(f: Fleet, r: RunId, run: Run)
    requires AtRest(f, r, run)
    ensures Departed(f, run.flights, r, Expire(f, r, run))
  {
    if f.Open() {
      CloseAndLeaveOk(f, f, run.flights, r, run, TimedOut(r));
    } else {
      LeaveClosed(f, f, run.flights, r, run);
    }
  }

  // ---- Cancellation -------------------------------------------------------------------

  /** Enough to sweep: the accounts may already miss a failed call. */
  ghost predicate Sweeping(f: Fleet, r: RunId, run: Run, failed: Option<nat>) {
    && FleetOk(f) && (f.Open() ==> Registered(f.active, run.flights))
    && (failed.None? ==> MidTurn(f, r, run))
  }

  ghost predicate SweepOkFor(f: Fleet, r: RunId, run: Run, s: Sweep) {
    match s
    case Swept(g, run', failed) =>
      && Sweeping(g, r, run', failed) && CameDown(f, run.flights, r, g, run'.flights)
      && run'.pending == run.pending && run'.task == run.task && run'.submitted == run.submitted
    case SweepBroke(_) => false
  }

  lemma SweepOne(f: Fleet, r: RunId, run: Run, ref: Ref, failed: Option<nat>)
    requires Sweeping(f, r, run, failed) && ref in run.flights && ref in run.deliveries
    ensures var flight := run.flights[ref];
            var g := Finish(f, ref, flight.worker);
            && !ReleasesTwice(f, flight.worker)
            && CameDown(f, run.flights, r, g, run.flights - {ref})
            && match run.deliveries[ref]
               case Succeeded(value) => Sweeping(g, r, Record(Pop(run, ref), Entry(flight.position, value)), failed)
               case Errored => Sweeping(g, r, Pop(run, ref), Some(flight.position))
  {
    FinishKeeps(f, r, run.flights, ref);
    if failed.None? && run.deliveries[ref].Succeeded? {
      RecordMidTurn(f, r, run, ref);
    }
  }

  /** The sweep gives every delivered call's slot back; the "released twice" guard never fires. */
  lemma {:induction false} SweepArrivedOk(f: Fleet, r: RunId, run: Run, order: seq<Ref>, failed: Option<nat>)
    requires Sweeping(f, r, run, failed) && Delivered(run, order)
    ensures SweepOkFor(f, r, run, SweepArrived(f, r, run, order, failed))
    decreases |order|
  {
    if order == [] {
    } else {
      var ref := order[0];
      var flight := run.flights[ref];
      var g := Finish(f, ref, flight.worker);
      SweepOne(f, r, run, ref, failed);
      match run.deliveries[ref] {
        case Succeeded(value) =>
          var run' := Record(Pop(run, ref), Entry(flight.position, value));
          DeliveredRest(run, order, run');
          hide Sweeping, CameDown;
          SweepArrivedOk(g, r, run', order[1..], failed);
          var s := SweepArrived(g, r, run', order[1..], failed);
          CameDownChain(f, run.flights, r, g, run'.flights, s.fleet, s.run.flights);
        case Errored =>
          var run' := Pop(run, ref);
          var failed' := if failed.None? then Some(flight.position) else failed;
          DeliveredRest(run, order, run');
          assert Sweeping(g, r, run', failed');
          hide Sweeping, CameDown;
          SweepArrivedOk(g, r, run', order[1..], failed');
          var s := SweepArrived(g, r, run', order[1..], failed');
          CameDownChain(f, run.flights, r, g, run'.flights, s.fleet, s.run.flights);
      }
    }
  }

  lemma VerdictOk(
    f: Fleet, r: RunId, flights: map<Ref, Flight>, g: Fleet, run: Run, failed: Option<nat>)
    requires Sweeping(g, r, run, failed) && CameDown(f, flights, r, g, run.flights)
    ensures Departed(f, flights, r, Verdict(g, r, run, failed))
  {
    if !g.Open() {
      LeaveFleetOk(g, r);
    } else if failed.Some? {
      CloseAndDepartOk(f, g, flights, r, run, CallFailed(r, failed.value), Cancelled);
    } else if run.submitted != [] && (run.flights != map[] || run.pending != []) {
      CloseAndDepartOk(f, g, flights, r, run, Abandoned(r), Cancelled);
    } else {
      VerdictOpen(f, r, flights, g, run);
    }
  }

  /** The bare `raise` is reached when nothing was submitted. */
  lemma VerdictUnsubmitted(r: RunId, g: Fleet, run: Run)
    requires MidTurn(g, r, run) && g.Open() && run.submitted == []
    ensures Departed(g, run.flights, r, Verdict(g, r, run, None))
    ensures OutcomeOf(Verdict(g, r, run, None).run) == Cancelled
  {
    NothingInFlight(run);
    hide Ledger, JobsOk, Registered;
    LeaveFleetOk(g, r);
  }

  /** With everything submitted and back, the bare `raise` is not reached. */
  lemma VerdictDone(r: RunId, g: Fleet, run: Run)
    requires MidTurn(g, r, run) && g.Open() && run.submitted != [] && run.flights == map[] && run.pending == []
    ensures Departed(g, run.flights, r, Verdict(g, r, run, None))
    ensures OutcomeOf(Verdict(g, r, run, None).run) == Returned(Result(run))
  {
    ResultComplete(run);
    hide Ledger, JobsOk, Registered, Complete, FleetOk;
    KeepComplete(run, Verdict(g, r, run, None).run, Result(run));
    LeaveFleetOk(g, r);
  }

  lemma VerdictOpen(f: Fleet, r: RunId, flights: map<Ref, Flight>, g: Fleet, run: Run)
    requires MidTurn(g, r, run) && g.Open() && CameDown(f, flights, r, g, run.flights)
    requires run.submitted == [] || (run.flights == map[] && run.pending == [])
    ensures Departed(f, flights, r, Verdict(g, r, run, None))
  {
    hide MidTurn, Departed, CameDown;
    if run.submitted == [] {
      VerdictUnsubmitted(r, g, run);
    } else {
      VerdictDone(r, g, run);
    }
    DepartChain(f, flights, r, g, run.flights, Verdict(g, r, run, None));
  }

  /** A cancelled call ends with nothing submitted, everything done, or the fleet closed. */
  lemma ResolveOk(f: Fleet, r: RunId, run: Run, order: seq<Ref>)
    requires AtRest(f, r, run) && Delivered(run, order)
    ensures Departed(f, run.flights, r, Resolve(f, r, run, order))
  {
    SweepArrivedOk(f, r, run, order, None);
    hide Sweeping, CameDown, Departed, Verdict;
    var s := SweepArrived(f, r, run, order, None);
    VerdictOk(f, r, run.flights, s.fleet, s.run, s.failed);
  }

  /** Before anything was submitted a cancellation only takes the caller out of the queues. */
  lemma ResolveUntouched(f: Fleet, r: RunId, run: Run, order: seq<Ref>)
    requires AtRest(f, r, run) && Delivered(run, order) && f.Open() && run.submitted == []
    ensures Resolve(f, r, run, order).fleet == Rouse(Withdraw(f, r), r)
    ensures OutcomeOf(Resolve(f, r, run, order).run) == Cancelled
  {
    NothingInFlight(run);
    assert Elements(order) == {};
    NoDupSize(order);
  }

  lemma SettlingOk(f: Fleet, r: RunId, run: Run, settled: set<Ref>)
    requires AtRest(f, r, run) && settled != {} && settled <= run.flights.Keys
    ensures AtRest(f, r, run.(phase := Settling(settled)))
  {
    var run' := run.(phase := Settling(settled));
    hide Ledger, JobsOk, FleetOk;
    KeepWanted(run, run', f.workers);
    KeepLedger(run, run');
  }

  lemma StandsStill(f: Fleet, r: RunId, run: Run)
    requires AtRest(f, r, run) && run.Alive()
    ensures WentOn(f, run.flights, r, Section(f, run, {}))
  {
    hide Working;
  }

  /** Cancellation at the wait: either finished calls are awaited first, or the verdict falls at once. */
  lemma InterruptOk(f: Fleet, r: RunId, run: Run, finished: set<Ref>, order: seq<Ref>)
    requires AtRest(f, r, run) && run.phase.Waiting? && Delivered(run, order)
    ensures SectionOk(f, run.flights, r, Interrupt(f, r, run, finished, order))
  {
    var settled := set ref | ref in run.flights && ref !in run.deliveries && ref in finished;
    if settled != {} {
      SettlingOk(f, r, run, settled);
      hide AtRest, WentOn, Departed;
      StandsStill(f, r, run.(phase := Settling(settled)));
    } else {
      hide AtRest, Departed, WentOn, Resolve;
      ResolveOk(f, r, run, order);
    }
  }

  // ---- The admission task -------------------------------------------------------------

  /** A woken admission task moves nobody in any queue and sleeps again only if it must. */
  lemma WakeFleetOk(f: Fleet, r: RunId, run: Run)
    requires FleetOk(f)
    ensures var g := Wake(f, r, run).fleet;
            && FleetOk(g)
            && g.workers == f.workers && g.terminal == f.terminal && g.active == f.active
            && (f.Open() ==> g.queues == f.queues && g.wants == f.wants)
            && (forall q :: q != r ==> g.Wants(q) == f.Wants(q) && (q in g.asleep ==> q in f.asleep))
            && (!f.Open() ==> g.Wants(r) == [])
            && (r in g.asleep ==> f.Open() && Wake(f, r, run).run.task == run.task)
  {
    if !f.Open() {
      SyncOk(f, r, []);
    } else if f.Wants(r) != [] && !f.CanAcquire(r, f.Wants(r)) {
      FallAsleepOk(f, r);
    }
  }
}

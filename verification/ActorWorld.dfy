/** All live calls of `run` against one fleet, interleaved at their awaits.

    A step is one atomic stretch of one coroutine, one delivery by the environment, or one
    turn of an admission task. The theorems hold for every interleaving of any number of
    runs, with every pattern of results, failures, timeouts and cancellations.
 */
module ActorWorld {
  import opened Sequences
  import opened ActorFleet
  import opened ActorRuns
  import opened ActorProofs
  import opened ActorSections
  import opened ActorCompletion

  /** `cancelled` counts how often each ref was handed to cancellation. */
  datatype World = World(fleet: Fleet, runs: map<RunId, Run>, cancelled: multiset<Ref>)

  datatype Step =
    | Start(r: RunId, request: Request, calls: nat -> Call)
    | Deliver(r: RunId, ref: Ref, delivery: Delivery)
    | WakeTask(r: RunId)
    | ResumeWait(r: RunId, order: seq<Ref>, calls: nat -> Call)
    | TimeOut(r: RunId)
    | Cancel(r: RunId, finished: set<Ref>, order: seq<Ref>)
    | FinishCancel(r: RunId, again: bool, order: seq<Ref>)
    | Unwind(r: RunId, again: bool)

  predicate Enumerates(order: seq<Ref>, refs: set<Ref>) {
    NoDup(order) && (forall ref :: ref in order ==> ref in refs) && forall ref :: ref in refs ==> ref in order
  }

  predicate WaitingIn(w: World, r: RunId) {
    r in w.runs && w.runs[r].phase.Waiting?
  }

  predicate TaskEnded(run: Run) { run.task == Done || run.task == Crashed }

  /** When the event loop (or the environment) may take a step. */
  predicate Enabled(w: World, step: Step) {
    match step
    case Start(r, request, _) => r !in w.runs && NoDup(Image((m: Method) => m.worker, request.methods))
    case Deliver(r, ref, _) =>
      r in w.runs && w.runs[r].Alive() && ref in w.runs[r].flights && ref !in w.runs[r].deliveries
    case WakeTask(r) => r in w.runs && w.runs[r].Alive() && w.runs[r].task == Live && r !in w.fleet.asleep
    case ResumeWait(r, order, _) =>
      WaitingIn(w, r) && Enumerates(order, w.runs[r].Arrived()) && (order != [] || TaskEnded(w.runs[r]))
    case TimeOut(r) =>
      WaitingIn(w, r) && w.runs[r].flights != map[] && w.runs[r].Arrived() == {} && !TaskEnded(w.runs[r])
    case Cancel(r, _, order) => WaitingIn(w, r) && Enumerates(order, w.runs[r].Arrived())
    case FinishCancel(r, again, order) =>
      && r in w.runs && w.runs[r].phase.Settling? && Enumerates(order, w.runs[r].Arrived())
      && (again || forall ref :: ref in w.runs[r].phase.settled ==> ref in w.runs[r].deliveries)
    case Unwind(r, _) => r in w.runs && w.runs[r].phase.Exiting?
  }

  function After(w: World, r: RunId, s: Section): World {
    World(s.fleet, w.runs[r := s.run], w.cancelled + multiset(s.doomed))
  }

  /** A call that never got past the checks of `run`. */
  function Turned(request: Request, outcome: Outcome): Run {
    Run(request.jobs, [], [], map[], map[], map[], [], [], NoTask, Exited(outcome))
  }

  function Delivers(run: Run, ref: Ref, delivery: Delivery): Run
    requires ref in run.flights
  {
    run.(deliveries := run.deliveries[ref := delivery],
         answers := if delivery.Succeeded? then run.answers[run.flights[ref].position := delivery.value]
                    else run.answers)
  }

  function Unwound(run: Run, again: bool): Run
    requires run.phase.Exiting?
  {
    run.(phase := Exited(if again then Cancelled else run.phase.outcome))
  }

  function Apply(w: World, step: Step): World
    requires Enabled(w, step)
  {
    match step
    case Start(r, request, calls) =>
      (match Admit(w.fleet, request)
       case Immediate(outcome) => w.(runs := w.runs[r := Turned(request, outcome)])
       case Admitted(run) => After(w, r, LoopHead(w.fleet, r, run, calls)))
    case Deliver(r, ref, delivery) => w.(runs := w.runs[r := Delivers(w.runs[r], ref, delivery)])
    case WakeTask(r) => After(w, r, Wake(w.fleet, r, w.runs[r]))
    case ResumeWait(r, order, calls) => After(w, r, Resume(w.fleet, r, w.runs[r], order, calls))
    case TimeOut(r) => After(w, r, Expire(w.fleet, r, w.runs[r]))
    case Cancel(r, finished, order) => After(w, r, Interrupt(w.fleet, r, w.runs[r], finished, order))
    case FinishCancel(r, _, order) => After(w, r, Resolve(w.fleet, r, w.runs[r], order))
    case Unwind(r, again) => w.(runs := w.runs[r := Unwound(w.runs[r], again)])
  }

  // ---- Invariant ----------------------------------------------------------------------

  predicate AliveIn(runs: map<RunId, Run>, r: RunId) { r in runs && runs[r].Alive() }

  /** A run cancelled again while it unwound a complete result: the one lost result. */
  ghost predicate LostResult(run: Run) {
    exists pairs :: Complete(run, pairs)
  }

  ghost predicate EndOk(f: Fleet, run: Run) {
    match run.phase
    case Exiting(outcome) => OutcomeOk(f, run, outcome)
    case Exited(outcome) => OutcomeOk(f, run, outcome) || (outcome == Cancelled && LostResult(run))
    case _ => true
  }

  ghost predicate RunOk(f: Fleet, r: RunId, run: Run) {
    && (run.Alive() ==> AtRest(f, r, run))
    && (!run.Alive() ==> EndOk(f, run) && (f.Open() ==> run.flights == map[]))
  }

  ghost predicate OnlyLiveWait(f: Fleet, runs: map<RunId, Run>) {
    forall r :: !AliveIn(runs, r) ==> f.Wants(r) == []
  }

  ghost predicate OwnRefs(runs: map<RunId, Run>) {
    forall r, q, ref :: AliveIn(runs, r) && AliveIn(runs, q) && r != q ==>
      ref in runs[r].flights ==> ref !in runs[q].flights
  }

  /** No registered call without a live run that will finish it: no exit leaks a slot. */
  ghost predicate Owned(active: map<Ref, WorkerId>, runs: map<RunId, Run>) {
    forall ref :: ref in active ==> exists r :: AliveIn(runs, r) && ref in runs[r].flights
  }

  /** Every ref is cancelled at most once, none while the fleet is open, and after the close
      every call that was still in the air has been, whoever made it. */
  ghost predicate CancelledOnce(open: bool, runs: map<RunId, Run>, cancelled: multiset<Ref>) {
    && (open ==> cancelled == multiset{})
    && (forall ref :: cancelled[ref] <= 1)
    && (!open ==> forall r, ref :: r in runs && ref in runs[r].flights ==> ref in cancelled)
  }

  ghost predicate Inv(w: World) {
    && FleetOk(w.fleet)
    && (forall r :: r in w.runs ==> RunOk(w.fleet, r, w.runs[r]))
    && OnlyLiveWait(w.fleet, w.runs)
    && OwnRefs(w.runs)
    && (w.fleet.Open() ==> Owned(w.fleet.active, w.runs))
    && CancelledOnce(w.fleet.Open(), w.runs, w.cancelled)
  }

  function Initial(workers: seq<WorkerId>): World {
    World(New(workers), map[], multiset{})
  }

  lemma InitialOk(workers: seq<WorkerId>)
    requires NoDup(workers)
    ensures Inv(Initial(workers))
  {
    NewOk(workers);
  }

  // ---- One section --------------------------------------------------------------------

  function FlightsOf(runs: map<RunId, Run>, r: RunId): map<Ref, Flight> {
    if AliveIn(runs, r) then runs[r].flights else map[]
  }

  /** A stretch of run `r` leaves any other live run at rest. */
  lemma OtherAtRest(f: Fleet, r: RunId, flights: map<Ref, Flight>, g: Fleet, flights': map<Ref, Flight>, q: RunId,
      run: Run)
    requires AtRest(f, q, run) && q != r && FleetOk(g) && OthersKeep(f, g, r)
    requires g.Open() ==> f.Open() && SameRest(f.active, flights, g.active, flights')
    requires forall ref :: ref in run.flights ==> ref !in flights
    ensures AtRest(g, q, run)
  {
    hide Ledger, FleetOk, JobsOk;
  }

  lemma EndStays(f: Fleet, g: Fleet, run: Run)
    requires EndOk(f, run) && (!f.Open() ==> g.terminal == f.terminal)
    ensures EndOk(g, run)
  {
  }

  /** What every stretch owes the other runs, whether it went on or left. */
  ghost predicate Owes(w: World, r: RunId, s: Section) {
    var f, flights, flights' := w.fleet, FlightsOf(w.runs, r), FlightsOf(map[r := s.run], r);
    && FleetOk(s.fleet) && OthersKeep(f, s.fleet, r)
    && (!f.Open() ==> s.fleet.terminal == f.terminal && s.doomed == {})
    && (s.fleet.Open() ==> f.Open() && s.doomed == {} && SameRest(f.active, flights, s.fleet.active, flights'))
    && (f.Open() && !s.fleet.Open() ==>
          !s.run.Alive() && forall ref :: ref in f.active && ref !in flights ==> ref in s.doomed)
    && Fresh(f, flights, flights')
    && (!s.fleet.Open() ==> forall ref :: ref in s.run.flights ==> if f.Open() then ref in s.doomed else ref in flights)
    && (!s.run.Alive() ==> s.fleet.Wants(r) == [])
    && RunOk(s.fleet, r, s.run)
  }

  lemma WentOnOwes(w: World, r: RunId, s: Section)
    requires WentOn(w.fleet, FlightsOf(w.runs, r), r, s)
    ensures Owes(w, r, s)
  {
    assert FlightsOf(map[r := s.run], r) == s.run.flights;
    hide Ledger, JobsOk, SameRest, OthersKeep, FleetOk, Registered;
    assert AtRest(s.fleet, r, s.run) && FleetOk(s.fleet);
    hide AtRest;
  }

  lemma DepartedOwes(w: World, r: RunId, s: Section)
    requires Departed(w.fleet, FlightsOf(w.runs, r), r, s)
    ensures Owes(w, r, s)
  {
  }

  lemma OtherRunsOk(w: World, r: RunId, s: Section, q: RunId)
    requires Inv(w) && Owes(w, r, s) && q in w.runs && q != r
    ensures RunOk(s.fleet, q, w.runs[q])
  {
    var run := w.runs[q];
    assert RunOk(w.fleet, q, run);
    if run.Alive() {
      assert forall ref :: ref in run.flights ==> ref !in FlightsOf(w.runs, r);
      hide FleetOk, AtRest;
      OtherAtRest(w.fleet, r, FlightsOf(w.runs, r), s.fleet, FlightsOf(map[r := s.run], r), q, run);
    } else {
      EndStays(w.fleet, s.fleet, run);
    }
  }

  /** Calls of run `r` after the stretch are nobody else's. */
  lemma NewRefsFresh(w: World, r: RunId, s: Section, q: RunId, ref: Ref)
    requires Inv(w) && Owes(w, r, s) && q != r && AliveIn(w.runs, q)
    requires ref in FlightsOf(map[r := s.run], r)
    ensures ref !in w.runs[q].flights
  {
    assert RunOk(w.fleet, q, w.runs[q]);
    hide FleetOk, JobsOk, Ledger, CancelledOnce, OnlyLiveWait, EndOk, OthersKeep, SameRest, Owned;
    if ref !in FlightsOf(w.runs, r) {
      assert w.fleet.Open() && ref !in w.fleet.active;
    }
  }

  lemma RefsStayOwn(w: World, r: RunId, s: Section)
    requires Inv(w) && Owes(w, r, s)
    ensures OwnRefs(w.runs[r := s.run])
  {
    forall q, ref | AliveIn(w.runs, q) && q != r && ref in FlightsOf(map[r := s.run], r)
      ensures ref !in w.runs[q].flights
    {
      NewRefsFresh(w, r, s, q, ref);
    }
    hide Inv, Owes;
    OwnAfter(w.runs, r, s.run);
  }

  lemma OwnAfter(runs: map<RunId, Run>, r: RunId, run: Run)
    requires OwnRefs(runs)
    requires forall q, ref :: AliveIn(runs, q) && q != r && ref in FlightsOf(map[r := run], r) ==>
              ref !in runs[q].flights
    ensures OwnRefs(runs[r := run])
  {
    var runs' := runs[r := run];
    forall q, s, ref | AliveIn(runs', q) && AliveIn(runs', s) && q != s && ref in runs'[q].flights
      ensures ref !in runs'[s].flights
    {
      assert q != r ==> AliveIn(runs, q);
      assert s != r ==> AliveIn(runs, s);
      if q == r {
        assert ref in FlightsOf(map[r := run], r);
      } else if s == r {
        assert run.flights == FlightsOf(map[r := run], r);
      }
    }
  }

  lemma RefsStayOwned(w: World, r: RunId, s: Section)
    requires Inv(w) && Owes(w, r, s) && s.fleet.Open()
    ensures Owned(s.fleet.active, w.runs[r := s.run])
  {
    hide FleetOk, CancelledOnce, OnlyLiveWait, OthersKeep, RunOk, Fresh;
    var runs := w.runs[r := s.run];
    forall ref | ref in s.fleet.active ensures exists q :: AliveIn(runs, q) && ref in runs[q].flights {
      if ref in FlightsOf(map[r := s.run], r) {
        assert AliveIn(runs, r);
      } else {
        assert ref in w.fleet.active && ref !in FlightsOf(w.runs, r);
        var q :| AliveIn(w.runs, q) && ref in w.runs[q].flights;
        assert q != r && AliveIn(runs, q);
      }
    }
  }

  /** While open, a call in the air is registered and its run is live. */
  lemma CallInTheAir(w: World, r: RunId, q: RunId, ref: Ref)
    requires Inv(w) && w.fleet.Open() && q in w.runs && ref in w.runs[q].flights && q != r
    ensures ref in w.fleet.active && ref !in FlightsOf(w.runs, r)
  {
    assert RunOk(w.fleet, q, w.runs[q]);
    hide FleetOk, JobsOk, Ledger, CancelledOnce, OnlyLiveWait, EndOk, Owned;
  }

  lemma StillCancelledOnce(w: World, r: RunId, s: Section)
    requires Inv(w) && Owes(w, r, s)
    ensures CancelledOnce(s.fleet.Open(), w.runs[r := s.run], w.cancelled + multiset(s.doomed))
  {
    hide RunOk, FleetOk, OwnRefs, Owned, OnlyLiveWait, OthersKeep, SameRest, Fresh;
    var runs := w.runs[r := s.run];
    forall q, ref | !s.fleet.Open() && q in runs && ref in runs[q].flights
      ensures ref in w.cancelled + multiset(s.doomed)
    {
      if q != r && w.fleet.Open() {
        CallInTheAir(w, r, q, ref);
      }
    }
  }

  /** Any stretch that keeps its own accounts and owes the others nothing keeps the world. */
  lemma AfterOk(w: World, r: RunId, s: Section)
    requires Inv(w) && Owes(w, r, s)
    ensures Inv(After(w, r, s))
  {
    var runs := w.runs[r := s.run];
    forall q | q in runs ensures RunOk(s.fleet, q, runs[q]) {
      if q != r {
        OtherRunsOk(w, r, s, q);
      }
    }
    RefsStayOwn(w, r, s);
    if s.fleet.Open() {
      RefsStayOwned(w, r, s);
    }
    StillCancelledOnce(w, r, s);
    forall q | !AliveIn(runs, q) ensures s.fleet.Wants(q) == [] {
      assert q != r ==> !AliveIn(w.runs, q);
    }
  }

  // ---- Every step ---------------------------------------------------------------------

  lemma AdmittedOk(f: Fleet, r: RunId, request: Request)
    requires FleetOk(f) && f.Wants(r) == [] && Admit(f, request).Admitted?
    requires NoDup(Image((m: Method) => m.worker, request.methods))
    ensures var run := Admit(f, request).run;
            MidTurn(f, r, run) && run.flights == map[] && run.pending != []
  {
    var run := Admit(f, request).run;
    assert Wakeups(f.available, f.queues, f.wants, f.asleep) || f.asleep == {};
    forall p | 0 <= p < |run.jobs|
      ensures run.Candidates(p) != [] && forall w :: w in run.Candidates(p) ==> w in f.workers
    {
      assert run.jobs[p] in run.jobs;
      forall w | w in run.Candidates(p) ensures Known(f, w) {
        if run.jobs[p].worker.None? {
          var i := IndexOf(run.methods, w);
          assert request.methods[i] in request.methods;
        }
      }
    }
    assert Partition(run.jobs, run.pending, run.submitted) by {
      forall p: nat | p < |run.jobs| ensures p in run.pending {
        assert run.pending[p] == p;
      }
    }
  }

  lemma StartOk(w: World, r: RunId, request: Request, calls: nat -> Call)
    requires Inv(w) && Enabled(w, Start(r, request, calls))
    ensures Inv(Apply(w, Start(r, request, calls)))
  {
    assert !AliveIn(w.runs, r);
    match Admit(w.fleet, request) {
      case Admitted(run) =>
        AdmittedOk(w.fleet, r, request);
        hide MidTurn, Inv;
        LoopHeadOk(w.fleet, r, run, calls);
        SectionKeeps(w, r, LoopHead(w.fleet, r, run, calls));
      case Immediate(outcome) =>
        var run := Turned(request, outcome);
        assert EndOk(w.fleet, run);
        QuietOk(w, r, run);
    }
  }

  lemma SectionKeeps(w: World, r: RunId, s: Section)
    requires Inv(w) && SectionOk(w.fleet, FlightsOf(w.runs, r), r, s)
    ensures Inv(After(w, r, s))
  {
    hide Inv, Owes, WentOn, Departed;
    if WentOn(w.fleet, FlightsOf(w.runs, r), r, s) {
      WentOnOwes(w, r, s);
    } else {
      DepartedOwes(w, r, s);
    }
    AfterOk(w, r, s);
  }

  /** The same runs are alive, with the same calls in the air. */
  ghost predicate SameCalls(runs: map<RunId, Run>, runs': map<RunId, Run>) {
    && (forall q :: AliveIn(runs', q) <==> AliveIn(runs, q))
    && (forall q :: q in runs' ==> runs'[q].flights == if q in runs then runs[q].flights else map[])
    && forall q :: q in runs ==> q in runs'
  }

  lemma SameOwners(active: map<Ref, WorkerId>, runs: map<RunId, Run>, runs': map<RunId, Run>)
    requires SameCalls(runs, runs')
    ensures Owned(active, runs) ==> Owned(active, runs')
    ensures OwnRefs(runs) ==> OwnRefs(runs')
  {
    forall ref | Owned(active, runs) && ref in active ensures exists q :: AliveIn(runs', q) && ref in runs'[q].flights {
      var q :| AliveIn(runs, q) && ref in runs[q].flights;
      assert AliveIn(runs', q);
    }
  }

  lemma SameCancelled(open: bool, runs: map<RunId, Run>, runs': map<RunId, Run>, cancelled: multiset<Ref>)
    requires SameCalls(runs, runs') && CancelledOnce(open, runs, cancelled)
    ensures CancelledOnce(open, runs', cancelled)
  {
  }

  /** A run that changes only its own record: same calls in the air, still alive or still gone. */
  lemma QuietOk(w: World, r: RunId, run: Run)
    requires Inv(w) && RunOk(w.fleet, r, run)
    requires run.Alive() <==> AliveIn(w.runs, r)
    requires run.flights == if r in w.runs then w.runs[r].flights else map[]
    ensures Inv(w.(runs := w.runs[r := run]))
  {
    var runs := w.runs[r := run];
    assert SameCalls(w.runs, runs);
    hide FleetOk, RunOk, Owned, OwnRefs, CancelledOnce;
    SameOwners(w.fleet.active, w.runs, runs);
    SameCancelled(w.fleet.Open(), w.runs, runs, w.cancelled);
    assert forall q :: AliveIn(runs, q) <==> AliveIn(w.runs, q);
    hide SameCalls;
  }

  lemma DeliversLedger(workers: seq<WorkerId>, run: Run, ref: Ref, delivery: Delivery)
    requires JobsOk(workers, run) && Ledger(run, run.pending) && ref in run.flights && ref !in run.deliveries
    ensures JobsOk(workers, Delivers(run, ref, delivery))
    ensures Ledger(Delivers(run, ref, delivery), run.pending)
  {
    var run' := Delivers(run, ref, delivery);
    DeliversAnswers(run, ref, delivery);
    SameJobs(workers, run, run', run.pending);
    DeliversProgress(run, run');
    hide JobsOk, BoundOrder, Answers, Partition, Progress;
  }

  lemma DeliversProgress(run: Run, run': Run)
    requires run'.jobs == run.jobs && run'.methods == run.methods && run'.submitted == run.submitted
    requires run'.flights == run.flights && run'.results == run.results && Progress(run)
    ensures Progress(run')
  {
    assert forall q :: run'.Candidates(q) == run.Candidates(q);
    assert forall q :: InFlight(run', q) <==> InFlight(run, q);
    assert forall q :: HasResult(run', q) <==> HasResult(run, q);
  }

  lemma DeliversAnswers(run: Run, ref: Ref, delivery: Delivery)
    requires Progress(run) && Answers(run) && ref in run.flights && ref !in run.deliveries
    ensures Answers(Delivers(run, ref, delivery))
  {
    var run', p := Delivers(run, ref, delivery), run.flights[ref].position;
    assert InFlight(run, p);
    forall e | e in run'.results ensures e.position in run'.answers && run'.answers[e.position] == e.value {
      assert e.position != p;
    }
  }

  lemma DeliversOk(f: Fleet, r: RunId, run: Run, ref: Ref, delivery: Delivery)
    requires AtRest(f, r, run) && run.Alive() && ref in run.flights && ref !in run.deliveries
    ensures AtRest(f, r, Delivers(run, ref, delivery))
  {
    DeliversLedger(f.workers, run, ref, delivery);
    SameWanted(run, Delivers(run, ref, delivery), f.workers);
    hide JobsOk, Ledger, FleetOk;
  }

  lemma SameWanted(run: Run, run': Run, workers: seq<WorkerId>)
    requires run'.jobs == run.jobs && run'.methods == run.methods
    requires run'.pending == run.pending && run'.flights == run.flights
    ensures Wanted(run', workers) == Wanted(run, workers)
  {
    assert forall p :: run'.Candidates(p) == run.Candidates(p);
    assert forall v :: run'.Needs(v) <==> run.Needs(v);
    assert forall v :: run'.Busy(v) <==> run.Busy(v);
  }

  /** A wake-up leaves every run record, the woken one included, as much at rest as it was. */
  lemma AllAfterWake(w: World, r: RunId, q: RunId)
    requires Inv(w) && Enabled(w, WakeTask(r)) && q in w.runs
    ensures RunOk(Wake(w.fleet, r, w.runs[r]).fleet, q, w.runs[q])
  {
    assert RunOk(w.fleet, r, w.runs[r]) && RunOk(w.fleet, q, w.runs[q]);
    hide Inv, Ledger, JobsOk;
    WakeFleetOk(w.fleet, r, w.runs[r]);
    hide FleetOk, Wakeups, Queues, Slots, Shape;
  }

  /** The fleet half of a wake-up. */
  lemma WakeFleetHalf(w: World, r: RunId)
    requires Inv(w) && Enabled(w, WakeTask(r))
    ensures Inv(World(Wake(w.fleet, r, w.runs[r]).fleet, w.runs, w.cancelled))
  {
    var g := Wake(w.fleet, r, w.runs[r]).fleet;
    WakeFleetOk(w.fleet, r, w.runs[r]);
    hide FleetOk, OwnRefs, Owned, CancelledOnce;
    forall q | q in w.runs ensures RunOk(g, q, w.runs[q]) {
      AllAfterWake(w, r, q);
    }
  }

  /** The run half of a wake-up, on the fleet the wake-up leaves. */
  lemma WakeRunHalf(w: World, r: RunId, g: Fleet, task: AdmissionTask)
    requires Inv(World(g, w.runs, w.cancelled)) && AliveIn(w.runs, r) && task != NoTask
    requires task == Crashed ==> !g.Open()
    requires task != w.runs[r].task ==> r !in g.asleep
    ensures Inv(World(g, w.runs[r := w.runs[r].(task := task)], w.cancelled))
  {
    var run := w.runs[r];
    assert RunOk(g, r, run);
    hide Inv, RunOk;
    WokenOk(g, r, run, task);
    QuietOk(World(g, w.runs, w.cancelled), r, run.(task := task));
  }

  lemma WakeStepOk(w: World, r: RunId)
    requires Inv(w) && Enabled(w, WakeTask(r))
    ensures Inv(Apply(w, WakeTask(r)))
  {
    var run := w.runs[r];
    var s := Wake(w.fleet, r, run);
    WakeFleetOk(w.fleet, r, run);
    WakeFleetHalf(w, r);
    hide Inv, FleetOk;
    WakeRunHalf(w, r, s.fleet, s.run.task);
    assert s.run == run.(task := s.run.task) && multiset(s.doomed) == multiset{};
  }

  lemma WokenOk(f: Fleet, r: RunId, run: Run, task: AdmissionTask)
    requires RunOk(f, r, run) && run.Alive() && task != NoTask
    requires task == Crashed ==> !f.Open()
    requires task != run.task ==> r !in f.asleep
    ensures RunOk(f, r, run.(task := task))
  {
    KeepWanted(run, run.(task := task), f.workers);
    KeepLedger(run, run.(task := task));
    hide Ledger, JobsOk, FleetOk;
  }

  lemma UnwoundOk(f: Fleet, run: Run, again: bool)
    requires run.phase.Exiting? && EndOk(f, run)
    ensures EndOk(f, Unwound(run, again))
  {
    var run' := Unwound(run, again);
    var outcome := run.phase.outcome;
    if outcome.Returned? {
      KeepComplete(run, run', outcome.pairs);
    }
  }

  lemma UnwindOk(w: World, r: RunId, again: bool)
    requires Inv(w) && Enabled(w, Unwind(r, again))
    ensures Inv(Apply(w, Unwind(r, again)))
  {
    var run := w.runs[r];
    assert RunOk(w.fleet, r, run);
    UnwoundOk(w.fleet, run, again);
    QuietOk(w, r, Unwound(run, again));
  }
}

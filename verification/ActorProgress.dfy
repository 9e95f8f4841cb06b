/** Who gets a free worker, and why the dispatcher never stalls by itself. */
module ActorProgress {
  import opened Sequences
  import opened ActorFleet
  import opened ActorRuns
  import opened ActorProofs
  import opened ActorSections
  import opened ActorCompletion
  import opened ActorWorld
  import opened ActorTheorems

  // ---- Only the head of a queue gets the worker -----------------------------------------

  predicate HeadOrEmpty(q: seq<RunId>, r: RunId) { q == [] || q[0] == r }

  /** In the middle of a pass the submitting run may have left queues, nobody else has. */
  ghost predicate OnlyLeft(f: Fleet, g: Fleet, r: RunId) {
    forall v :: g.Queue(v) == f.Queue(v) || g.Queue(v) == Without(f.Queue(v), r)
  }

  lemma HeadBefore(q: seq<RunId>, q': seq<RunId>, r: RunId)
    requires NoDup(q) && (q' == q || q' == Without(q, r)) && HeadOrEmpty(q', r)
    ensures HeadOrEmpty(q, r)
  {
    WithoutElements(q, r);
    if q != [] && q[0] != r {
      WithoutHead(q, r);
    }
  }

  lemma OnlyLeftTake(f: Fleet, g: Fleet, r: RunId, w: WorkerId)
    requires FleetOk(f) && FleetOk(g) && f.Open() && g.Open() && OnlyLeft(f, g, r)
    requires CanTake(g.available, g.queues, r, w)
    ensures OnlyLeft(f, Take(g, r, w), r) && HeadOrEmpty(f.Queue(w), r)
  {
    TakeOk(g, r, w);
    forall v ensures NoDup(f.Queue(v)) {
      assert NoDup(QueueOf(f.queues, v));
    }
    forall v ensures Without(Without(f.Queue(v), r), r) == Without(f.Queue(v), r) {
      WithoutElements(f.Queue(v), r);
    }
    HeadBefore(f.Queue(w), g.Queue(w), r);
  }

  /** The run a pass hands on, whether the pass ended or stopped the run. */
  function PassRun(pass: Pass): Run {
    match pass
    case Passed(_, run) => run
    case Stopped(s) => s.run
  }

  ghost predicate HeadsOnly(f: Fleet, r: RunId, flights: map<Ref, Flight>, flights': map<Ref, Flight>) {
    forall ref :: ref in flights' ==>
      (ref in flights && flights'[ref] == flights[ref]) || HeadOrEmpty(f.Queue(flights'[ref].worker), r)
  }

  ghost predicate LaunchHeads(f: Fleet, r: RunId, run: Run, attempt: Attempt) {
    match attempt
    case NoSlot => true
    case Ended(s) => s.run.flights == run.flights
    case Flew(h, run') => FleetOk(h) && h.Open() && OnlyLeft(f, h, r) && HeadsOnly(f, r, run.flights, run'.flights)
  }

  lemma LaunchOfHead(f: Fleet, g: Fleet, r: RunId, run: Run, call: Call, p: nat, w: WorkerId, rest: seq<nat>)
    requires FleetOk(f) && FleetOk(g) && f.Open() && g.Open() && OnlyLeft(f, g, r)
    requires CanTake(g.available, g.queues, r, w)
    ensures LaunchHeads(f, r, run, Launch(Take(g, r, w), r, run, call, p, w, rest))
  {
    hide FleetOk, OnlyLeft, Take, HeadOrEmpty, CanTake;
    OnlyLeftTake(f, g, r, w);
    TakenStaysOpen(g, r, w);
    if call.Accepted? && call.ref !in Take(g, r, w).active {
      LaunchedQueues(Take(g, r, w), f, r, call.ref, w);
    }
  }

  lemma TakenStaysOpen(g: Fleet, r: RunId, w: WorkerId)
    requires FleetOk(g) && g.Open() && CanTake(g.available, g.queues, r, w)
    ensures TakenOk(Take(g, r, w), w)
  {
    TakeOk(g, r, w);
  }

  lemma LaunchedQueues(g: Fleet, f: Fleet, r: RunId, ref: Ref, w: WorkerId)
    requires TakenOk(g, w) && ref !in g.active && OnlyLeft(f, g, r)
    ensures FleetOk(Register(g, ref, w)) && Register(g, ref, w).Open() && OnlyLeft(f, Register(g, ref, w), r)
  {
    RegisterOk(g, ref, w);
    hide FleetOk;
  }

  lemma {:induction false} PassHeads(
    f: Fleet, g: Fleet, r: RunId, run: Run, calls: nat -> Call, kept: seq<nat>, todo: seq<nat>)
    requires FleetOk(f) && f.Open() && FleetOk(g) && g.Open() && OnlyLeft(f, g, r)
    ensures HeadsOnly(f, r, run.flights, PassRun(SubmitPass(g, r, run, calls, kept, todo)).flights)
    decreases todo
  {
    hide FleetOk, OnlyLeft;
    if todo != [] {
      var p, rest := todo[0], todo[1..];
      match Pick(g, r, run.Candidates(p)) {
        case None => PassHeads(f, g, r, run, calls, kept + [p], rest);
        case Some(w) =>
          LaunchOfHead(f, g, r, run, calls(p), p, w, rest + kept);
          hide Launch, HeadOrEmpty;
          match TryJob(g, r, run, calls(p), p, rest + kept) {
            case Flew(h, run') =>
              if h.available != {} {
                PassHeads(f, h, r, run', calls, kept, rest);
              }
            case Ended(_) =>
          }
      }
    }
  }

  predicate Fewer(flights': map<Ref, Flight>, flights: map<Ref, Flight>) {
    forall ref :: ref in flights' ==> ref in flights && flights'[ref] == flights[ref]
  }

  lemma {:induction false} ObserveQueues(f: Fleet, r: RunId, run: Run, order: seq<Ref>)
    requires f.Open() && Delivered(run, order)
    ensures match Observe(f, r, run, order)
            case Observed(g, run') => g.queues == f.queues && Fewer(run'.flights, run.flights)
            case Aborted(s) => Fewer(s.run.flights, run.flights)
    decreases |order|
  {
    if order != [] && run.deliveries[order[0]].Succeeded? {
      var flight := run.flights[order[0]];
      var run' := Record(Pop(run, order[0]), Entry(flight.position, run.deliveries[order[0]].value));
      DeliveredRest(run, order, run');
      ObserveQueues(Finish(f, order[0], flight.worker), r, run', order[1..]);
    }
  }

  lemma LoopHeadHeads(f: Fleet, g: Fleet, r: RunId, run: Run, calls: nat -> Call)
    requires FleetOk(f) && f.Open() && FleetOk(g) && g.Open() && g.queues == f.queues
    ensures HeadsOnly(f, r, run.flights, LoopHead(g, r, run, calls).run.flights)
  {
    PassHeads(f, g, r, run, calls, [], run.pending);
  }

  lemma ObserveFleet(f: Fleet, r: RunId, run: Run, order: seq<Ref>)
    requires f.Open() && MidTurn(f, r, run) && Delivered(run, order)
    ensures match Observe(f, r, run, order)
            case Observed(g, _) => FleetOk(g) && g.Open()
            case Aborted(_) => true
  {
    hide FleetOk, Ledger, JobsOk, OthersKeep, SameRest, Registered;
    ObserveOk(f, r, run, order);
  }

  lemma ResumeHeads(f: Fleet, r: RunId, run: Run, order: seq<Ref>, calls: nat -> Call)
    requires f.Open() && AtRest(f, r, run) && Delivered(run, order)
    ensures HeadsOnly(f, r, run.flights, Resume(f, r, run, order, calls).run.flights)
  {
    if run.task != Crashed {
      var run' := if run.task == Done then run.(task := NoTask) else run;
      assert MidTurn(f, r, run') && FleetOk(f) by {
        hide FleetOk, JobsOk, Ledger;
        KeepLedger(run, run');
      }
      hide AtRest, Working, MidTurn, FleetOk, Ledger, JobsOk;
      ObserveFleet(f, r, run', order);
      ObserveQueues(f, r, run', order);
      hide Delivered, HeadOrEmpty, Continue, Observe;
      match Observe(f, r, run', order) {
        case Observed(g, run'') =>
          ContinueHeads(f, g, r, run'', calls);
          FewerHeads(f, r, run.flights, run''.flights, Continue(g, r, run'', calls).run.flights);
        case Aborted(_) =>
      }
    }
  }

  lemma ContinueHeads(f: Fleet, g: Fleet, r: RunId, run: Run, calls: nat -> Call)
    requires FleetOk(f) && f.Open() && FleetOk(g) && g.Open() && g.queues == f.queues
    ensures HeadsOnly(f, r, run.flights, Continue(g, r, run, calls).run.flights)
  {
    LoopHeadHeads(f, g, r, run, calls);
    hide FleetOk, HeadOrEmpty, LoopHead;
  }

  lemma FewerHeads(f: Fleet, r: RunId, flights: map<Ref, Flight>, fewer: map<Ref, Flight>, after: map<Ref, Flight>)
    requires Fewer(fewer, flights) && HeadsOnly(f, r, fewer, after)
    ensures HeadsOnly(f, r, flights, after)
  {
    hide HeadOrEmpty;
  }

  /** The calls run `r` has in the air, live or not. */
  function CallsOf(w: World, r: RunId): map<Ref, Flight> {
    if r in w.runs then w.runs[r].flights else map[]
  }

  lemma StartHeads(w: World, r: RunId, request: Request, calls: nat -> Call)
    requires Inv(w) && w.fleet.Open() && Enabled(w, Start(r, request, calls))
    ensures HeadsOnly(w.fleet, r, map[], CallsOf(Apply(w, Start(r, request, calls)), r))
  {
    match Admit(w.fleet, request) {
      case Admitted(run) =>
        assert FleetOk(w.fleet) && run.flights == map[];
        hide FleetOk, Inv, LoopHead, HeadOrEmpty;
        LoopHeadHeads(w.fleet, w.fleet, r, run, calls);
      case Immediate(_) =>
    }
  }

  lemma ResumeStepHeads(w: World, r: RunId, order: seq<Ref>, calls: nat -> Call)
    requires Inv(w) && w.fleet.Open() && Enabled(w, ResumeWait(r, order, calls))
    ensures HeadsOnly(w.fleet, r, CallsOf(w, r), CallsOf(Apply(w, ResumeWait(r, order, calls)), r))
  {
    hide Inv, AtRest, Resume, HeadsOnly;
    SectionReady(w, ResumeWait(r, order, calls));
    ResumeHeads(w.fleet, r, w.runs[r], order, calls);
  }

  lemma QuietStepHeads(w: World, step: Step)
    requires Enabled(w, step) && !step.Start? && !step.ResumeWait?
    ensures HeadsOnly(w.fleet, step.r, CallsOf(w, step.r), CallsOf(Apply(w, step), step.r))
  {
    FewerAfter(w, step);
    hide Apply, Enabled, HeadOrEmpty;
  }

  /** Every call a step submits runs on a worker whose queue, when the step began, was empty or
      headed by the submitting run. */
  lemma OnlyHeadsAcquire(workers: seq<WorkerId>, w: World, step: Step)
    requires Reachable(workers, w) && Enabled(w, step) && w.fleet.Open()
    ensures HeadsOnly(w.fleet, step.r, CallsOf(w, step.r), CallsOf(Apply(w, step), step.r))
  {
    ReachableOk(workers, w);
    if step.Start? {
      assert CallsOf(w, step.r) == map[];
      hide Inv, Reachable, Apply, HeadsOnly, Enabled;
      StartHeads(w, step.r, step.request, step.calls);
    } else {
      hide Inv, Reachable, Apply, HeadsOnly, Enabled;
      if step.ResumeWait? {
        ResumeStepHeads(w, step.r, step.order, step.calls);
      } else {
        QuietStepHeads(w, step);
      }
    }
  }

  lemma FewerAfter(w: World, step: Step)
    requires Enabled(w, step) && !step.Start? && !step.ResumeWait?
    ensures Fewer(CallsOf(Apply(w, step), step.r), CallsOf(w, step.r))
  {
    match step {
      case Cancel(r, finished, order) => InterruptFewer(w.fleet, r, w.runs[r], finished, order);
      case FinishCancel(r, _, order) => ResolveFewer(w.fleet, r, w.runs[r], order);
      case _ =>
    }
  }

  lemma InterruptFewer(f: Fleet, r: RunId, run: Run, finished: set<Ref>, order: seq<Ref>)
    requires Delivered(run, order)
    ensures Fewer(Interrupt(f, r, run, finished, order).run.flights, run.flights)
  {
    ResolveFewer(f, r, run, order);
  }

  lemma ResolveFewer(f: Fleet, r: RunId, run: Run, order: seq<Ref>)
    requires Delivered(run, order)
    ensures Fewer(Resolve(f, r, run, order).run.flights, run.flights)
  {
    SweepFewer(f, r, run, order, None);
  }

  function SweepRun(s: Sweep): Run {
    match s
    case Swept(_, run, _) => run
    case SweepBroke(section) => section.run
  }

  lemma {:induction false} SweepFewer(f: Fleet, r: RunId, run: Run, order: seq<Ref>, failed: Option<nat>)
    requires Delivered(run, order)
    ensures Fewer(SweepRun(SweepArrived(f, r, run, order, failed)).flights, run.flights)
    decreases |order|
  {
    if order != [] {
      var ref := order[0];
      var flight := run.flights[ref];
      var g := Finish(f, ref, flight.worker);
      match run.deliveries[ref] {
        case Succeeded(value) =>
          var run' := Record(Pop(run, ref), Entry(flight.position, value));
          DeliveredRest(run, order, run');
          SweepFewer(g, r, run', order[1..], failed);
        case Errored =>
          DeliveredRest(run, order, Pop(run, ref));
          SweepFewer(g, r, Pop(run, ref), order[1..], if failed.None? then Some(flight.position) else failed);
      }
    }
  }

  // ---- A pass places everything it can ---------------------------------------------------

  /** A submission pass stops only when no pending job of the run can be placed any more. */
  lemma {:induction false} PassExhausts(f: Fleet, r: RunId, run: Run, calls: nat -> Call, kept: seq<nat>,
      todo: seq<nat>)
    requires f.Open() && Working(f, run, kept + todo) && Blocked(f, r, run, kept)
    ensures match SubmitPass(f, r, run, calls, kept, todo)
            case Passed(g, run') => Blocked(g, r, run', run'.pending)
            case Stopped(_) => true
    decreases todo
  {
    if todo == [] {
      assert forall p :: run.(pending := kept).Candidates(p) == run.Candidates(p);
    } else {
      var p, rest := todo[0], todo[1..];
      TryJobOk(f, r, run, calls(p), kept, todo);
      match TryJob(f, r, run, calls(p), p, rest + kept) {
        case NoSlot =>
          assert kept + [p] + rest == kept + todo;
          PassExhausts(f, r, run, calls, kept + [p], rest);
        case Ended(_) =>
        case Flew(h, run') =>
          if h.available != {} {
            PassExhausts(h, r, run', calls, kept, rest);
          }
      }
    }
  }

  // ---- A head that resumes gets on ------------------------------------------------------

  predicate Advanced(run: Run, run': Run) {
    |run'.submitted| > |run.submitted| || Departing(run')
  }

  /** A pass ended the run, or submitted at least `n` more jobs. */
  predicate PassSubmitted(run: Run, pass: Pass, n: nat) {
    match pass
    case Passed(_, run') => |run'.submitted| >= |run.submitted| + n
    case Stopped(s) => Departing(s.run)
  }

  lemma AttemptShape(f: Fleet, r: RunId, run: Run, call: Call, p: nat, rest: seq<nat>)
    ensures match TryJob(f, r, run, call, p, rest)
            case NoSlot => f.Open() && !f.CanAcquire(r, run.Candidates(p))
            case Ended(s) => Departing(s.run)
            case Flew(_, run') => |run'.submitted| == |run.submitted| + 1
  {
  }

  /** A pass with a free slot for some pending job submits a job or ends the run. */
  lemma {:induction false} PassSubmits(f: Fleet, r: RunId, run: Run, calls: nat -> Call, kept: seq<nat>, todo: seq<nat>)
    requires f.Open() && exists p :: p in todo && f.CanAcquire(r, run.Candidates(p))
    ensures PassSubmitted(run, SubmitPass(f, r, run, calls, kept, todo), 1)
    decreases todo
  {
    var p, rest := todo[0], todo[1..];
    AttemptShape(f, r, run, calls(p), p, rest + kept);
    hide TryJob;
    match TryJob(f, r, run, calls(p), p, rest + kept) {
      case NoSlot => PassSubmits(f, r, run, calls, kept + [p], rest);
      case Flew(h, run') =>
        if h.available != {} {
          PassKeeps(h, r, run', calls, kept, rest);
        }
      case Ended(_) =>
    }
  }

  lemma {:induction false} PassKeeps(f: Fleet, r: RunId, run: Run, calls: nat -> Call, kept: seq<nat>, todo: seq<nat>)
    ensures PassSubmitted(run, SubmitPass(f, r, run, calls, kept, todo), 0)
    decreases todo
  {
    if todo != [] {
      var p, rest := todo[0], todo[1..];
      AttemptShape(f, r, run, calls(p), p, rest + kept);
      hide TryJob;
      match TryJob(f, r, run, calls(p), p, rest + kept) {
        case NoSlot => PassKeeps(f, r, run, calls, kept + [p], rest);
        case Flew(h, run') =>
          if h.available != {} {
            PassKeeps(h, r, run', calls, kept, rest);
          }
        case Ended(_) =>
      }
    }
  }

  lemma {:induction false} ObserveKeepsFree(f: Fleet, r: RunId, run: Run, order: seq<Ref>)
    requires f.Open() && Delivered(run, order)
    ensures match Observe(f, r, run, order)
            case Observed(g, run') =>
              && g.Open() && g.queues == f.queues && f.available <= g.available
              && run'.submitted == run.submitted && run'.pending == run.pending
              && run'.jobs == run.jobs && run'.methods == run.methods
            case Aborted(s) => Departing(s.run)
    decreases |order|
  {
    if order != [] && run.deliveries[order[0]].Succeeded? {
      var flight := run.flights[order[0]];
      var run' := Record(Pop(run, order[0]), Entry(flight.position, run.deliveries[order[0]].value));
      DeliveredRest(run, order, run');
      ObserveKeepsFree(Finish(f, order[0], flight.worker), r, run', order[1..]);
    }
  }

  /** A run that is first in a free worker's queue submits a job, or ends, as soon as its wait
      returns. */
  lemma HeadAdvances(workers: seq<WorkerId>, w: World, r: RunId, order: seq<Ref>, calls: nat -> Call, worker: WorkerId)
    requires Reachable(workers, w) && Enabled(w, ResumeWait(r, order, calls))
    requires worker in w.fleet.available && w.fleet.Queue(worker) != [] && w.fleet.Queue(worker)[0] == r
    ensures Advanced(w.runs[r], Apply(w, ResumeWait(r, order, calls)).runs[r])
  {
    ReachableOk(workers, w);
    LivingRun(w, r);
    var run := w.runs[r];
    assert r in QueueOf(w.fleet.queues, worker) && worker in w.fleet.Wants(r);
    assert w.fleet.Open() && run.Needs(worker);
    var p :| p in run.pending && worker in run.Candidates(p);
    hide Inv, AtRest, FleetOk;
    HeadResumes(w.fleet, r, run, order, calls, worker, p);
  }

  lemma LoopHeadSubmits(f: Fleet, r: RunId, run: Run, calls: nat -> Call, p: nat)
    requires f.Open() && p in run.pending && f.CanAcquire(r, run.Candidates(p))
    ensures Advanced(run, LoopHead(f, r, run, calls).run)
  {
    PassSubmits(f, r, run, calls, [], run.pending);
  }

  lemma HeadResumes(
    f: Fleet, r: RunId, run: Run, order: seq<Ref>, calls: nat -> Call, worker: WorkerId, p: nat)
    requires f.Open() && Delivered(run, order) && worker in f.available && f.Queue(worker) != []
              && f.Queue(worker)[0] == r
    requires p in run.pending && worker in run.Candidates(p)
    ensures Advanced(run, Resume(f, r, run, order, calls).run)
  {
    if run.task != Crashed {
      var run' := if run.task == Done then run.(task := NoTask) else run;
      ObserveKeepsFree(f, r, run', order);
      match Observe(f, r, run', order) {
        case Observed(g, run'') =>
          assert run''.Candidates(p) == run.Candidates(p);
          assert CanTake(g.available, g.queues, r, worker);
          LoopHeadSubmits(g, r, run'', calls, p);
        case Aborted(_) =>
      }
    }
  }

  // ---- No stall -------------------------------------------------------------------------

  lemma {:induction false} SomeOrder(refs: set<Ref>) returns (order: seq<Ref>)
    ensures Enumerates(order, refs)
    decreases |refs|
  {
    if refs == {} {
      order := [];
    } else {
      var ref :| ref in refs;
      var rest := SomeOrder(refs - {ref});
      order := [ref] + rest;
    }
  }

  /** Steps the event loop takes by itself, without the environment or a caller's request. */
  predicate Internal(step: Step) {
    step.WakeTask? || step.ResumeWait? || (step.FinishCancel? && !step.again)
  }

  ghost predicate CanMove(w: World) {
    exists step :: Internal(step) && Enabled(w, step)
  }

  /** No call of any live run is still out with an actor. */
  ghost predicate AllDelivered(w: World) {
    forall r, ref :: AliveIn(w.runs, r) && ref in w.runs[r].flights ==> ref in w.runs[r].deliveries
  }

  lemma ArrivedMoves(w: World, r: RunId)
    requires AliveIn(w.runs, r) && AllDelivered(w)
    requires w.runs[r].flights != map[] || TaskEnded(w.runs[r])
    requires w.runs[r].phase.Settling? ==> w.runs[r].phase.settled <= w.runs[r].flights.Keys
    ensures CanMove(w)
  {
    var run := w.runs[r];
    var order := SomeOrder(run.Arrived());
    if run.phase.Settling? {
      assert Internal(FinishCancel(r, false, order)) && Enabled(w, FinishCancel(r, false, order));
    } else {
      var calls := (p: nat) => CallRaises;
      if run.flights != map[] {
        var ref :| ref in run.flights;
        assert ref in run.Arrived() && ref in order;
      }
      assert Internal(ResumeWait(r, order, calls)) && Enabled(w, ResumeWait(r, order, calls));
    }
  }

  lemma TaskMoves(w: World, r: RunId)
    requires Enabled(w, WakeTask(r))
    ensures CanMove(w)
  {
    assert Internal(WakeTask(r));
  }

  lemma RunnableMoves(w: World, r: RunId)
    requires Inv(w) && AllDelivered(w) && Runnable(w, r)
    ensures CanMove(w)
  {
    if Enabled(w, WakeTask(r)) {
      TaskMoves(w, r);
    } else {
      LivingRun(w, r);
      hide Inv, Working;
      ArrivedMoves(w, r);
    }
  }

  /** With nothing out there, a sleeper's worker is free and queued for by somebody runnable. */
  lemma SleeperHasHead(workers: seq<WorkerId>, w: World, r: RunId)
    requires Reachable(workers, w) && r in w.fleet.asleep
    requires forall q :: AliveIn(w.runs, q) ==> w.runs[q].flights == map[]
    ensures exists q :: Runnable(w, q)
  {
    ReachableOk(workers, w);
    SleepersBlocked(workers, w, r);
    var worker := w.fleet.Wants(r)[0];
    assert worker in WantsOf(w.fleet.wants, r) && worker in w.fleet.workers;
    assert w.fleet.active == map[] by {
      assert w.fleet.active.Keys == {};
    }
    assert worker in w.fleet.available;
    assert !CanTake(w.fleet.available, w.fleet.queues, r, worker);
    assert w.fleet.Queue(worker) != [];
    hide Inv, Reachable;
    HeadRunnable(workers, w, worker);
  }

  /** No internal deadlock: unless an actor still owes an answer, some live run can move, on an
      open dispatcher and on a closed one. */
  lemma NeverStuck(workers: seq<WorkerId>, w: World, r: RunId)
    requires Reachable(workers, w) && AliveIn(w.runs, r) && AllDelivered(w)
    ensures CanMove(w)
  {
    ReachableOk(workers, w);
    if q :| AliveIn(w.runs, q) && w.runs[q].flights != map[] {
      LivingRun(w, q);
      hide Inv, Working;
      ArrivedMoves(w, q);
    } else {
      LivingRun(w, r);
      hide Inv, Working, Reachable;
      if r in w.fleet.asleep {
        SleeperHasHead(workers, w, r);
        var q :| Runnable(w, q);
        RunnableMoves(w, q);
      } else if w.runs[r].task == Live {
        TaskMoves(w, r);
      } else {
        ArrivedMoves(w, r);
      }
    }
  }
}

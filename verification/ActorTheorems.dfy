/** The main results about `RayActorDispatcher`, for every reachable interleaving. */
module ActorTheorems {
  import opened Sequences
  import opened ActorFleet
  import opened ActorRuns
  import opened ActorProofs
  import opened ActorSections
  import opened ActorCompletion
  import opened ActorWorld

  // ---- Every step, every trace ----------------------------------------------------------

  lemma LivingRun(w: World, r: RunId)
    requires Inv(w) && AliveIn(w.runs, r)
    ensures AtRest(w.fleet, r, w.runs[r]) && FlightsOf(w.runs, r) == w.runs[r].flights
  {
    assert RunOk(w.fleet, r, w.runs[r]);
  }

  /** One step of anybody keeps the invariant of the whole world. */
  lemma StepOk(w: World, step: Step)
    requires Inv(w) && Enabled(w, step)
    ensures Inv(Apply(w, step))
  {
    if step.Start? {
      StartOk(w, step.r, step.request, step.calls);
    } else if step.WakeTask? {
      WakeStepOk(w, step.r);
    } else if step.Unwind? {
      UnwindOk(w, step.r, step.again);
    } else if step.Deliver? {
      DeliverStepOk(w, step.r, step.ref, step.delivery);
    } else {
      SectionStepOk(w, step);
    }
  }

  lemma DeliverStepOk(w: World, r: RunId, ref: Ref, delivery: Delivery)
    requires Inv(w) && Enabled(w, Deliver(r, ref, delivery))
    ensures Inv(Apply(w, Deliver(r, ref, delivery)))
  {
    LivingRun(w, r);
    DeliversOk(w.fleet, r, w.runs[r], ref, delivery);
    hide AtRest;
    QuietOk(w, r, Delivers(w.runs[r], ref, delivery));
  }

  /** The section a step runs, for the steps that resume or interrupt a waiting run. */
  function SectionOf(w: World, step: Step): Section
    requires Enabled(w, step) && (step.ResumeWait? || step.TimeOut? || step.Cancel? || step.FinishCancel?)
  {
    var run := w.runs[step.r];
    match step
    case ResumeWait(r, order, calls) => Resume(w.fleet, r, run, order, calls)
    case TimeOut(r) => Expire(w.fleet, r, run)
    case Cancel(r, finished, order) => Interrupt(w.fleet, r, run, finished, order)
    case FinishCancel(r, _, order) => Resolve(w.fleet, r, run, order)
  }

  /** The run a section step moves is at rest, and its `order` names arrived calls. */
  lemma SectionReady(w: World, step: Step)
    requires Inv(w) && Enabled(w, step)
    requires step.ResumeWait? || step.TimeOut? || step.Cancel? || step.FinishCancel?
    ensures step.r in w.runs && AtRest(w.fleet, step.r, w.runs[step.r])
    ensures !step.TimeOut? ==> Delivered(w.runs[step.r], step.order)
    ensures step.Cancel? ==> w.runs[step.r].phase.Waiting?
  {
    LivingRun(w, step.r);
    hide Inv, AtRest;
  }

  lemma SectionOfOk(w: World, step: Step)
    requires Inv(w) && Enabled(w, step)
    requires step.ResumeWait? || step.TimeOut? || step.Cancel? || step.FinishCancel?
    ensures SectionOk(w.fleet, w.runs[step.r].flights, step.r, SectionOf(w, step))
  {
    SectionReady(w, step);
    hide Inv, AtRest, WentOn, Departed, Delivered, Enumerates, WaitingIn;
    var run := w.runs[step.r];
    match step {
      case ResumeWait(r, order, calls) => ResumeOk(w.fleet, r, run, order, calls);
      case TimeOut(r) => ExpireOk(w.fleet, r, run);
      case Cancel(r, finished, order) => InterruptOk(w.fleet, r, run, finished, order);
      case FinishCancel(r, _, order) => ResolveOk(w.fleet, r, run, order);
    }
  }

  lemma SectionStepOk(w: World, step: Step)
    requires Inv(w) && Enabled(w, step)
    requires step.ResumeWait? || step.TimeOut? || step.Cancel? || step.FinishCancel?
    ensures SectionOk(w.fleet, w.runs[step.r].flights, step.r, SectionOf(w, step))
    ensures Inv(Apply(w, step))
  {
    SectionOfOk(w, step);
    LivingRun(w, step.r);
    hide Inv, AtRest, SectionOk, Resume, Expire, Interrupt, Resolve;
    SectionKeeps(w, step.r, SectionOf(w, step));
  }

  ghost predicate Legal(w: World, steps: seq<Step>)
    decreases |steps|
  {
    steps == [] || (Enabled(w, steps[0]) && Legal(Apply(w, steps[0]), steps[1..]))
  }

  ghost function Play(w: World, steps: seq<Step>): World
    requires Legal(w, steps)
    decreases |steps|
  {
    if steps == [] then w else Play(Apply(w, steps[0]), steps[1..])
  }

  /** Every state of every run of the system satisfies the invariant. */
  lemma {:induction false} AlwaysOk(w: World, steps: seq<Step>)
    requires Inv(w) && Legal(w, steps)
    ensures Inv(Play(w, steps))
    decreases |steps|
  {
    if steps != [] {
      StepOk(w, steps[0]);
      AlwaysOk(Apply(w, steps[0]), steps[1..]);
    }
  }

  ghost predicate Reachable(workers: seq<WorkerId>, w: World) {
    NoDup(workers) && exists steps :: Legal(Initial(workers), steps) && Play(Initial(workers), steps) == w
  }

  lemma ReachableOk(workers: seq<WorkerId>, w: World)
    requires Reachable(workers, w)
    ensures Inv(w)
  {
    InitialOk(workers);
    var steps :| Legal(Initial(workers), steps) && Play(Initial(workers), steps) == w;
    AlwaysOk(Initial(workers), steps);
  }

  // ---- Slots ------------------------------------------------------------------------------

  ghost predicate Occupied(w: World, worker: WorkerId) {
    exists r, ref :: AliveIn(w.runs, r) && ref in w.runs[r].flights && w.runs[r].flights[ref].worker == worker
  }

  /** Slot conservation: while open, every worker is either free or runs exactly one call, which
      one live run will finish; no run that left holds anything. */
  lemma SlotsConserved(workers: seq<WorkerId>, w: World)
    requires Reachable(workers, w) && w.fleet.Open()
    ensures forall worker :: worker in w.fleet.workers ==> (worker in w.fleet.available <==> !Occupied(w, worker))
    ensures forall r, q, a, b ::
              AliveIn(w.runs, r) && AliveIn(w.runs, q) && a in w.runs[r].flights && b in w.runs[q].flights ==>
              w.runs[r].flights[a].worker == w.runs[q].flights[b].worker ==> r == q && a == b
    ensures forall ref :: ref in w.fleet.active <==> exists r :: AliveIn(w.runs, r) && ref in w.runs[r].flights
  {
    ReachableOk(workers, w);
    forall r | AliveIn(w.runs, r) ensures Registered(w.fleet.active, w.runs[r].flights) {
      LivingRun(w, r);
    }
    hide RunOk, CancelledOnce, OnlyLiveWait, Queues, Wakeups, Shape;
    forall worker | worker in w.fleet.workers && worker !in w.fleet.available ensures Occupied(w, worker) {
      var ref :| ref in w.fleet.active && w.fleet.active[ref] == worker;
      var r :| AliveIn(w.runs, r) && ref in w.runs[r].flights;
      assert w.runs[r].flights[ref].worker == worker;
    }
  }

  /** No reachable run was ended by one of the dispatcher's own guards: no slot is released
      twice, no waiter is lost, and `asyncio.wait` never gets an empty set. */
  lemma NeverBroken(workers: seq<WorkerId>, w: World, r: RunId)
    requires Reachable(workers, w) && r in w.runs && Departing(w.runs[r])
    ensures !OutcomeOf(w.runs[r]).Broken?
  {
    ReachableOk(workers, w);
    assert RunOk(w.fleet, r, w.runs[r]);
    hide Inv, Reachable, Complete;
  }

  // ---- Queues and wake-ups ----------------------------------------------------------------

  /** The next move of a run that somebody already owes it: its task runs, or its wait returns. */
  ghost predicate Runnable(w: World, r: RunId) {
    Enabled(w, WakeTask(r)) || (AliveIn(w.runs, r) && TaskEnded(w.runs[r]))
  }

  /** No lost wakeup: a sleeping admission task wants something and can acquire none of it. */
  lemma SleepersBlocked(workers: seq<WorkerId>, w: World, r: RunId)
    requires Reachable(workers, w) && r in w.fleet.asleep
    ensures AliveIn(w.runs, r) && w.runs[r].task == Live && w.fleet.Open()
    ensures w.fleet.Wants(r) != [] && !w.fleet.CanAcquire(r, w.fleet.Wants(r))
  {
    ReachableOk(workers, w);
    assert WantsOf(w.fleet.wants, r) != [];
    LivingRun(w, r);
  }

  /** The head of a free worker's queue is never asleep: its task or its wait is ready to run. */
  lemma HeadRunnable(workers: seq<WorkerId>, w: World, worker: WorkerId)
    requires Reachable(workers, w)
    requires worker in w.fleet.available && w.fleet.Queue(worker) != []
    ensures Runnable(w, w.fleet.Queue(worker)[0])
  {
    ReachableOk(workers, w);
    var r := w.fleet.Queue(worker)[0];
    assert r in QueueOf(w.fleet.queues, worker) && worker in w.fleet.Wants(r);
    assert CanTake(w.fleet.available, w.fleet.queues, r, worker);
    LivingRun(w, r);
    hide RunOk, OwnRefs, Owned, CancelledOnce, Working, Slots, Shape;
    assert w.fleet.CanAcquire(r, w.fleet.Wants(r));
  }

  /** Queue discipline: while open, a run stands in a worker's queue, once, exactly when it has
      a pending job for that worker and no call running on it. */
  lemma QueueDiscipline(workers: seq<WorkerId>, w: World, worker: WorkerId, r: RunId)
    requires Reachable(workers, w) && w.fleet.Open() && worker in w.fleet.workers
    ensures NoDup(w.fleet.Queue(worker))
    ensures r in w.fleet.Queue(worker) <==>
              AliveIn(w.runs, r) && w.runs[r].Needs(worker) && !w.runs[r].Busy(worker)
  {
    ReachableOk(workers, w);
    assert NoDup(QueueOf(w.fleet.queues, worker)) && worker in w.fleet.queues;
    assert r in QueueOf(w.fleet.queues, worker) <==> worker in WantsOf(w.fleet.wants, r);
    if AliveIn(w.runs, r) {
      LivingRun(w, r);
    }
  }

  /** Any step of one run leaves every other queued run queued, with nobody new ahead of it. */
  lemma OthersOnlyAdvance(workers: seq<WorkerId>, w: World, step: Step, worker: WorkerId, s: RunId)
    requires Reachable(workers, w) && Enabled(w, step) && s != step.r
    requires Apply(w, step).fleet.Open() && s in w.fleet.Queue(worker)
    ensures s in Apply(w, step).fleet.Queue(worker)
    ensures Ahead(Apply(w, step).fleet.Queue(worker), s) <= Ahead(w.fleet.Queue(worker), s)
  {
    ReachableOk(workers, w);
    StepAdvances(w, step, worker);
    OnlyForward(w.fleet.Queue(worker), Apply(w, step).fleet.Queue(worker), step.r, s);
  }

  lemma StepAdvances(w: World, step: Step, worker: WorkerId)
    requires Inv(w) && Enabled(w, step) && Apply(w, step).fleet.Open()
    ensures Advances(w.fleet.Queue(worker), Apply(w, step).fleet.Queue(worker), step.r)
  {
    match step {
      case Start(r, request, calls) =>
        if Admit(w.fleet, request).Admitted? {
          assert !AliveIn(w.runs, r);
          AdmittedOk(w.fleet, r, request);
          var run := Admit(w.fleet, request).run;
          LoopHeadOk(w.fleet, r, run, calls);
          SectionAdvances(w.fleet, map[], r, LoopHead(w.fleet, r, run, calls), worker);
        }
      case Deliver(_, _, _) =>
      case Unwind(_, _) =>
      case WakeTask(r) => WakeFleetOk(w.fleet, r, w.runs[r]);
      case _ =>
        SectionStepOk(w, step);
        SectionAdvances(w.fleet, w.runs[step.r].flights, step.r, SectionOf(w, step), worker);
    }
  }

  lemma SectionAdvances(f: Fleet, flights: map<Ref, Flight>, r: RunId, s: Section, worker: WorkerId)
    requires SectionOk(f, flights, r, s) && s.fleet.Open()
    ensures Advances(f.Queue(worker), s.fleet.Queue(worker), r)
  {
  }
}

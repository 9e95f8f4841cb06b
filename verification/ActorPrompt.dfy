/** What makes the ways a cancellation can end final: the clean-up of a completed run must not
    suspend, and it does not when the run's admission task has ended by the time all answers are in.
    `ActorLoop` proves that the event loop sees to that. */
module ActorPrompt {
  import opened Sequences
  import opened ActorFleet
  import opened ActorRuns
  import opened ActorProofs
  import opened ActorSections
  import opened ActorCompletion
  import opened ActorWorld
  import opened ActorTheorems
  import opened ActorGuarantees

  /** Every job was submitted and every call has answered, but the admission task has not noticed. */
  predicate Late(run: Run) {
    run.task == Live && run.pending == [] && forall ref :: ref in run.flights ==> ref in run.deliveries
  }

  /** No stretch that looks at the answers of a run finds its admission task late. */
  predicate OnTime(w: World, step: Step)
    requires Enabled(w, step)
  {
    step.ResumeWait? || step.Cancel? || step.FinishCancel? ==> !Late(w.runs[step.r])
  }

  predicate NotReturning(run: Run) {
    run.phase.Exiting? ==> !run.phase.outcome.Returned?
  }

  /** A cancelled run submitted nothing or the dispatcher is closed, and nobody can still lose a result. */
  ghost predicate ThreeWays(f: Fleet, run: Run) {
    && NotReturning(run)
    && (Departing(run) && OutcomeOf(run) == Cancelled ==> run.submitted == [] || !f.Open())
  }

  ghost predicate AllThreeWays(w: World) {
    forall r :: r in w.runs ==> ThreeWays(w.fleet, w.runs[r])
  }

  // ---- Where a completed run comes from ---------------------------------------------------

  lemma AttemptNotReturning(f: Fleet, r: RunId, run: Run, call: Call, p: nat, rest: seq<nat>)
    ensures match TryJob(f, r, run, call, p, rest)
            case Ended(s) => NotReturning(s.run)
            case _ => true
  {
  }

  lemma {:induction false} PassNotReturning(f: Fleet, r: RunId, run: Run, calls: nat -> Call, kept: seq<nat>,
      todo: seq<nat>)
    ensures match SubmitPass(f, r, run, calls, kept, todo)
            case Passed(_, _) => true
            case Stopped(s) => NotReturning(s.run)
    decreases todo
  {
    if todo != [] {
      var p, rest := todo[0], todo[1..];
      AttemptNotReturning(f, r, run, calls(p), p, rest + kept);
      hide TryJob;
      match TryJob(f, r, run, calls(p), p, rest + kept) {
        case NoSlot => PassNotReturning(f, r, run, calls, kept + [p], rest);
        case Ended(_) =>
        case Flew(h, run') =>
          if h.available != {} {
            PassNotReturning(h, r, run', calls, kept, rest);
          }
      }
    }
  }

  lemma LoopHeadNotReturning(f: Fleet, r: RunId, run: Run, calls: nat -> Call)
    ensures NotReturning(LoopHead(f, r, run, calls).run)
  {
    PassNotReturning(f, r, run, calls, [], run.pending);
  }

  lemma {:induction false} ObserveShape(f: Fleet, r: RunId, run: Run, order: seq<Ref>)
    requires Delivered(run, order)
    ensures match Observe(f, r, run, order)
            case Observed(_, run') =>
              && run'.pending == run.pending && run'.task == run.task
              && (forall ref :: ref in run.flights && ref !in run'.flights ==> ref in order)
            case Aborted(s) => NotReturning(s.run)
    decreases |order|
  {
    if order != [] && run.deliveries[order[0]].Succeeded? {
      var flight := run.flights[order[0]];
      var run' := Record(Pop(run, order[0]), Entry(flight.position, run.deliveries[order[0]].value));
      DeliveredRest(run, order, run');
      ObserveShape(Finish(f, order[0], flight.worker), r, run', order[1..]);
    }
  }

  lemma ContinueNotReturning(f: Fleet, r: RunId, run: Run, calls: nat -> Call)
    requires run.task == Live ==> run.flights != map[] || run.pending != []
    ensures NotReturning(Continue(f, r, run, calls).run)
  {
    if run.flights != map[] || run.pending != [] {
      LoopHeadNotReturning(f, r, run, calls);
    }
  }

  lemma ResumeNotReturning(f: Fleet, r: RunId, run: Run, order: seq<Ref>, calls: nat -> Call)
    requires Delivered(run, order) && !Late(run)
    ensures NotReturning(Resume(f, r, run, order, calls).run)
  {
    if run.task != Crashed {
      var run' := if run.task == Done then run.(task := NoTask) else run;
      ObserveShape(f, r, run', order);
      match Observe(f, r, run', order) {
        case Observed(g, run'') =>
          if run.task == Live && run.pending == [] {
            var ref :| ref in run.flights && ref !in run.deliveries;
            assert ref in run''.flights;
          }
          hide Observe, Continue, LoopHead;
          ContinueNotReturning(g, r, run'', calls);
        case Aborted(_) =>
      }
    }
  }

  lemma {:induction false} SweepKeepsTask(f: Fleet, r: RunId, run: Run, order: seq<Ref>, failed: Option<nat>)
    requires Delivered(run, order)
    ensures match SweepArrived(f, r, run, order, failed)
            case Swept(_, run', _) =>
              && run'.pending == run.pending && run'.task == run.task
              && (forall ref :: ref in run.flights && ref !in run'.flights ==> ref in order)
            case SweepBroke(s) => NotReturning(s.run)
    decreases |order|
  {
    if order != [] {
      var ref := order[0];
      var flight := run.flights[ref];
      var g := Finish(f, ref, flight.worker);
      var run' := if run.deliveries[ref].Succeeded? then
                    Record(Pop(run, ref), Entry(flight.position, run.deliveries[ref].value)) else Pop(run, ref);
      DeliveredRest(run, order, run');
      SweepKeepsTask(g, r, run', order[1..],
                     if run.deliveries[ref].Errored? && failed.None? then Some(flight.position) else failed);
    }
  }

  lemma VerdictNotReturning(f: Fleet, r: RunId, run: Run, failed: Option<nat>)
    requires run.task == Live ==> run.flights != map[] || run.pending != []
    ensures NotReturning(Verdict(f, r, run, failed).run)
  {
  }

  lemma ResolveNotReturning(f: Fleet, r: RunId, run: Run, order: seq<Ref>)
    requires Delivered(run, order) && !Late(run)
    ensures NotReturning(Resolve(f, r, run, order).run)
  {
    SweepKeepsTask(f, r, run, order, None);
    match SweepArrived(f, r, run, order, None) {
      case Swept(g, run', failed) =>
        if run.task == Live && run.pending == [] {
          var ref :| ref in run.flights && ref !in run.deliveries;
          assert ref in run'.flights;
        }
        hide SweepArrived, Verdict;
        VerdictNotReturning(g, r, run', failed);
      case SweepBroke(_) =>
    }
  }

  lemma ExpireNotReturning(f: Fleet, r: RunId, run: Run)
    ensures NotReturning(Expire(f, r, run).run)
  {
  }

  // ---- One step on time -------------------------------------------------------------------

  lemma StaysClosed(w: World, step: Step)
    requires Inv(w) && Enabled(w, step) && Apply(w, step).fleet.Open()
    ensures w.fleet.Open()
  {
    if !w.fleet.Open() {
      ClosedStep(w, step);
    }
  }

  lemma SectionOutcome(f: Fleet, flights: map<Ref, Flight>, r: RunId, s: Section)
    requires SectionOk(f, flights, r, s)
    ensures Departing(s.run) ==> OutcomeOk(s.fleet, s.run, OutcomeOf(s.run))
  {
  }

  /** Only unwinding turns an outcome into another one. */
  lemma OwnOutcome(w: World, step: Step)
    requires Inv(w) && Enabled(w, step) && !step.Unwind? && Departing(Apply(w, step).runs[step.r])
    ensures OutcomeOk(Apply(w, step).fleet, Apply(w, step).runs[step.r], OutcomeOf(Apply(w, step).runs[step.r]))
  {
    match step {
      case Start(r, request, calls) =>
        match Admit(w.fleet, request) {
          case Admitted(run) =>
            assert !AliveIn(w.runs, r);
            AdmittedOk(w.fleet, r, request);
            hide Inv, MidTurn, SectionOk, LoopHead, OutcomeOk;
            LoopHeadOk(w.fleet, r, run, calls);
            SectionOutcome(w.fleet, run.flights, r, LoopHead(w.fleet, r, run, calls));
          case Immediate(_) =>
        }
      case Deliver(_, _, _) =>
      case WakeTask(_) =>
      case Unwind(_, _) =>
      case _ =>
        hide Inv, SectionOk, OutcomeOk;
        SectionStepOk(w, step);
        SectionOutcome(w.fleet, w.runs[step.r].flights, step.r, SectionOf(w, step));
    }
  }

  lemma UnwoundThreeWays(f: Fleet, run: Run, again: bool)
    requires run.phase.Exiting? && OutcomeOk(f, run, run.phase.outcome) && NotReturning(run)
    ensures ThreeWays(f, Unwound(run, again))
  {
  }

  lemma UnwindThreeWays(w: World, step: Step)
    requires Inv(w) && AllThreeWays(w) && Enabled(w, step) && step.Unwind?
    ensures ThreeWays(Apply(w, step).fleet, Apply(w, step).runs[step.r])
  {
    assert ThreeWays(w.fleet, w.runs[step.r]) && RunOk(w.fleet, step.r, w.runs[step.r]);
    hide Inv, AllThreeWays, Complete;
    UnwoundThreeWays(w.fleet, w.runs[step.r], step.again);
  }

  lemma OwnThreeWays(w: World, step: Step)
    requires Inv(w) && AllThreeWays(w) && Enabled(w, step) && OnTime(w, step)
    ensures step.r in Apply(w, step).runs && ThreeWays(Apply(w, step).fleet, Apply(w, step).runs[step.r])
  {
    assert step.r in Apply(w, step).runs;
    hide Inv, AllThreeWays, Complete, Apply, OnTime, Enabled;
    if step.Unwind? {
      UnwindThreeWays(w, step);
    } else {
      OwnNotReturning(w, step);
      if Departing(Apply(w, step).runs[step.r]) {
        OwnOutcome(w, step);
      }
    }
  }

  lemma OwnNotReturning(w: World, step: Step)
    requires Inv(w) && AllThreeWays(w) && Enabled(w, step) && OnTime(w, step)
    ensures NotReturning(Apply(w, step).runs[step.r])
  {
    var f, r := w.fleet, step.r;
    hide Inv, Resume, Resolve, LoopHead, Expire;
    match step {
      case Start(_, request, calls) =>
        match Admit(f, request) {
          case Admitted(run) => LoopHeadNotReturning(f, r, run, calls);
          case Immediate(_) =>
        }
      case ResumeWait(_, order, calls) => ResumeNotReturning(f, r, w.runs[r], order, calls);
      case Cancel(_, _, order) => ResolveNotReturning(f, r, w.runs[r], order);
      case FinishCancel(_, _, order) => ResolveNotReturning(f, r, w.runs[r], order);
      case TimeOut(_) => ExpireNotReturning(f, r, w.runs[r]);
      case _ =>
    }
  }

  lemma StepThreeWays(w: World, step: Step)
    requires Inv(w) && AllThreeWays(w) && Enabled(w, step) && OnTime(w, step)
    ensures AllThreeWays(Apply(w, step))
  {
    OwnThreeWays(w, step);
    StepTouchesOne(w, step);
    var w' := Apply(w, step);
    if w'.fleet.Open() {
      StaysClosed(w, step);
    }
    hide Inv, Apply, Enabled;
    forall q | q in w'.runs ensures ThreeWays(w'.fleet, w'.runs[q]) {
      assert q != step.r ==> ThreeWays(w.fleet, w.runs[q]);
    }
  }

  lemma StepTouchesOne(w: World, step: Step)
    requires Enabled(w, step)
    ensures forall q :: q != step.r ==>
              (q in Apply(w, step).runs <==> q in w.runs) && (q in w.runs ==> Apply(w, step).runs[q] == w.runs[q])
  {
  }
}

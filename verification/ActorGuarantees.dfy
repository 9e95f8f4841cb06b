/** What one caller of `RayActorDispatcher.run` can rely on: its jobs, its errors, its cancellation. */
module ActorGuarantees {
  import opened Sequences
  import opened ActorFleet
  import opened ActorRuns
  import opened ActorProofs
  import opened ActorSections
  import opened ActorCompletion
  import opened ActorWorld
  import opened ActorTheorems

  // ---- Jobs -------------------------------------------------------------------------------

  /** Job conservation: each job of a live run is pending, in the air under one ref, or has its
      one result, and only one of these; pending jobs keep caller order, results are the actors'
      answers, and of two jobs bound to one worker the earlier is submitted first. */
  lemma JobsConserved(workers: seq<WorkerId>, w: World, r: RunId, p: nat)
    requires Reachable(workers, w) && AliveIn(w.runs, r) && p < |w.runs[r].jobs|
    ensures var run := w.runs[r];
            && StrictlyIncreasing(run.pending)
            && (p in run.pending ==> !InFlight(run, p) && !HasResult(run, p))
            && (p !in run.pending ==> (InFlight(run, p) <==> !HasResult(run, p)))
            && (forall a, b :: a in run.flights && b in run.flights ==>
                  run.flights[a].position == run.flights[b].position ==> a == b)
            && (forall i, j :: 0 <= i < |run.results| && 0 <= j < |run.results| ==>
                  run.results[i].position == run.results[j].position ==> i == j)
            && (forall e :: e in run.results ==> e.position in run.answers && run.answers[e.position] == e.value)
    ensures var run := w.runs[r];
            forall v, q: nat :: BoundTo(run, p, v) && BoundTo(run, q, v) && q < p && q in run.pending ==>
                p in run.pending
  {
    ReachableOk(workers, w);
    LivingRun(w, r);
    hide JobsOk, FleetOk;
    var run := w.runs[r];
    assert p !in run.pending ==> p in run.submitted;
    if HasResult(run, p) {
      var e :| e in run.results && e.position == p;
      assert p in run.submitted && !InFlight(run, p);
    }
  }

  /** A run that returned has exactly one answer per job, sorted by job index, whoever else ran. */
  lemma ReturnsComplete(workers: seq<WorkerId>, w: World, r: RunId)
    requires Reachable(workers, w) && r in w.runs && Departing(w.runs[r]) && OutcomeOf(w.runs[r]).Returned?
    ensures Complete(w.runs[r], OutcomeOf(w.runs[r]).pairs)
  {
    ReachableOk(workers, w);
    assert RunOk(w.fleet, r, w.runs[r]);
  }

  /** `asyncio.wait` always gets something to wait for. */
  lemma WaitNotEmpty(workers: seq<WorkerId>, w: World, r: RunId)
    requires Reachable(workers, w) && WaitingIn(w, r)
    ensures w.runs[r].flights != map[] || w.runs[r].task != NoTask
  {
    ReachableOk(workers, w);
    LivingRun(w, r);
  }

  // ---- Closing ----------------------------------------------------------------------------

  lemma ClosedStep(w: World, step: Step)
    requires Inv(w) && Enabled(w, step) && !w.fleet.Open()
    ensures Apply(w, step).fleet.terminal == w.fleet.terminal && Apply(w, step).cancelled == w.cancelled
  {
    match step {
      case Start(r, request, calls) =>
      case Deliver(_, _, _) =>
      case Unwind(_, _) =>
      case WakeTask(r) => WakeFleetOk(w.fleet, r, w.runs[r]);
      case _ =>
        SectionStepOk(w, step);
        ClosedSection(w.fleet, w.runs[step.r].flights, step.r, SectionOf(w, step));
    }
  }

  lemma ClosedSection(f: Fleet, flights: map<Ref, Flight>, r: RunId, s: Section)
    requires SectionOk(f, flights, r, s) && !f.Open()
    ensures s.fleet.terminal == f.terminal && s.doomed == {}
  {
  }

  /** The first error wins for good: nothing anybody does changes it or cancels a call again. */
  lemma {:induction false} ClosedForGood(w: World, steps: seq<Step>)
    requires Inv(w) && Legal(w, steps) && !w.fleet.Open()
    ensures Play(w, steps).fleet.terminal == w.fleet.terminal
    ensures Play(w, steps).cancelled == w.cancelled
    decreases |steps|
  {
    if steps != [] {
      ClosedStep(w, steps[0]);
      StepOk(w, steps[0]);
      ClosedForGood(Apply(w, steps[0]), steps[1..]);
    }
  }

  /** After the close every call in the air was handed to cancellation exactly once, and a run
      that failed failed with the one terminal error. */
  lemma ClosedOnce(workers: seq<WorkerId>, w: World, r: RunId)
    requires Reachable(workers, w) && !w.fleet.Open() && r in w.runs
    ensures forall ref :: ref in w.runs[r].flights ==> w.cancelled[ref] == 1
    ensures Departing(w.runs[r]) && OutcomeOf(w.runs[r]).Failed? ==>
              w.fleet.terminal == Some(OutcomeOf(w.runs[r]).error)
  {
    ReachableOk(workers, w);
    assert RunOk(w.fleet, r, w.runs[r]);
  }

  // ---- Cancellation -----------------------------------------------------------------------

  predicate Erred(run: Run, ref: Ref) {
    ref in run.flights && ref in run.deliveries && run.deliveries[ref].Errored?
  }

  /** Nothing is left to submit and every call in the air has come back with an answer. */
  predicate AllAnswered(run: Run) {
    run.pending == [] && forall ref :: ref in run.flights ==> ref in run.deliveries && run.deliveries[ref].Succeeded?
  }

  /** What the sweep leaves: the undelivered calls, and the first error if there was one. */
  lemma {:induction false} SweepShape(f: Fleet, r: RunId, run: Run, order: seq<Ref>, failed: Option<nat>)
    requires Delivered(run, order) && SweepArrived(f, r, run, order, failed).Swept?
    ensures var s := SweepArrived(f, r, run, order, failed);
            && s.run.pending == run.pending && s.run.submitted == run.submitted
            && s.fleet.terminal == f.terminal
            && (forall ref :: ref in s.run.flights <==> ref in run.flights && ref !in order)
            && (s.failed.None? <==> failed.None? && forall ref :: ref in order ==> !Erred(run, ref))
            && (failed.None? && s.failed.Some? ==>
                  exists ref :: ref in order && Erred(run, ref) && run.flights[ref].position == s.failed.value)
            && (failed.Some? ==> s.failed == failed)
    decreases |order|
  {
    if order != [] {
      var ref := order[0];
      var flight := run.flights[ref];
      var g := Finish(f, ref, flight.worker);
      match run.deliveries[ref] {
        case Succeeded(value) =>
          var run' := Record(Pop(run, ref), Entry(flight.position, value));
          DeliveredRest(run, order, run');
          SweepShape(g, r, run', order[1..], failed);
          SweepShapeStep(run, run', order);
        case Errored =>
          var run' := Pop(run, ref);
          DeliveredRest(run, order, run');
          SweepShape(g, r, run', order[1..], if failed.None? then Some(flight.position) else failed);
          SweepShapeStep(run, run', order);
      }
    }
  }

  lemma SweepShapeStep(run: Run, run': Run, order: seq<Ref>)
    requires order != [] && Delivered(run, order)
    requires run'.flights == run.flights - {order[0]} && run'.deliveries == run.deliveries - {order[0]}
    ensures forall ref :: ref in order <==> ref == order[0] || ref in order[1..]
    ensures forall ref :: ref in order[1..] ==> (Erred(run', ref) <==> Erred(run, ref))
    ensures forall ref :: ref in order[1..] ==> run'.flights[ref] == run.flights[ref]
  {
  }

  /** How the handler of a cancellation ends, read off the state it found. */
  ghost predicate CancelledAs(f: Fleet, r: RunId, run: Run, s: Section) {
    && Departing(s.run)
    && (if run.submitted == [] then
          && OutcomeOf(s.run) == Cancelled && s.fleet == Rouse(Withdraw(f, r), r) && s.doomed == {}
        else if AllAnswered(run) then
          && OutcomeOf(s.run).Returned? && Complete(s.run, OutcomeOf(s.run).pairs) && s.fleet.Open()
        else
          && OutcomeOf(s.run) == Cancelled && !s.fleet.Open()
          && (if exists ref :: Erred(run, ref) then
                exists ref :: Erred(run, ref) && s.fleet.terminal == Some(CallFailed(r, run.flights[ref].position))
              else s.fleet.terminal == Some(Abandoned(r))))
  }

  lemma VerdictCloses(g: Fleet, r: RunId, run: Run, failed: Option<nat>)
    requires g.Open() && run.submitted != []
    requires failed.Some? || run.flights != map[] || run.pending != []
    ensures var s := Verdict(g, r, run, failed);
            && Departing(s.run) && OutcomeOf(s.run) == Cancelled
            && s.fleet.terminal == Some(if failed.Some? then CallFailed(r, failed.value) else Abandoned(r))
  {
  }

  lemma VerdictReturns(r: RunId, g: Fleet, run: Run)
    requires MidTurn(g, r, run) && g.Open() && run.submitted != [] && run.flights == map[] && run.pending == []
    ensures var s := Verdict(g, r, run, None);
            && Departing(s.run) && OutcomeOf(s.run).Returned? && Complete(s.run, OutcomeOf(s.run).pairs)
                  && s.fleet.Open()
  {
    hide MidTurn, Complete, FleetOk, OthersKeep, SameRest, Registered;
    VerdictDone(r, g, run);
  }

  /** The state a sweep over everything that had arrived leaves for the verdict. */
  ghost predicate SweptAll(f: Fleet, r: RunId, run: Run, g: Fleet, run': Run, failed: Option<nat>) {
    && (failed.None? ==> MidTurn(g, r, run'))
    && run'.submitted == run.submitted && g.terminal == f.terminal
    && (AllAnswered(run) <==> failed.None? && run'.flights == map[] && run'.pending == [])
    && (match failed
        case None => forall ref :: !Erred(run, ref)
        case Some(p) => exists ref :: Erred(run, ref) && run.flights[ref].position == p)
  }

  lemma SweptFlights(run: Run, run': Run, order: seq<Ref>, failed: Option<nat>)
    requires Enumerates(order, run.Arrived()) && run'.pending == run.pending
    requires forall ref :: ref in run'.flights <==> ref in run.flights && ref !in order
    requires failed.None? <==> forall ref :: ref in order ==> !Erred(run, ref)
    ensures AllAnswered(run) <==> failed.None? && run'.flights == map[] && run'.pending == []
    ensures failed.None? <==> forall ref :: !Erred(run, ref)
  {
    assert forall ref :: ref in order <==> ref in run.flights && ref in run.deliveries;
    assert run'.flights == map[] <==> run'.flights.Keys == {};
  }

  lemma SweepLeaves(f: Fleet, r: RunId, run: Run, order: seq<Ref>)
    requires AtRest(f, r, run) && Delivered(run, order) && Enumerates(order, run.Arrived())
    ensures match SweepArrived(f, r, run, order, None)
            case Swept(g, run', failed) => SweptAll(f, r, run, g, run', failed)
            case SweepBroke(_) => false
  {
    SweepArrivedOk(f, r, run, order, None);
    match SweepArrived(f, r, run, order, None) {
      case Swept(g, run', failed) =>
        SweepShape(f, r, run, order, None);
        hide AtRest, MidTurn, CameDown, SweepArrived, AllAnswered, Erred, Delivered;
        SweptFlights(run, run', order, failed);
    }
  }

  lemma ResolveSubmitted(f: Fleet, r: RunId, run: Run, order: seq<Ref>)
    requires AtRest(f, r, run) && f.Open() && run.submitted != []
    requires Delivered(run, order) && Enumerates(order, run.Arrived())
    ensures CancelledAs(f, r, run, Resolve(f, r, run, order))
  {
    hide AtRest, MidTurn, Verdict, Complete, AllAnswered, Erred, Enumerates;
    SweepLeaves(f, r, run, order);
    hide SweepArrived;
    match SweepArrived(f, r, run, order, None) {
      case Swept(g, run', failed) =>
        if AllAnswered(run) {
          VerdictReturns(r, g, run');
        } else {
          VerdictCloses(g, r, run', failed);
        }
    }
  }

  lemma ResolveEnds(f: Fleet, r: RunId, run: Run, order: seq<Ref>)
    requires AtRest(f, r, run) && f.Open() && Enumerates(order, run.Arrived())
    ensures CancelledAs(f, r, run, Resolve(f, r, run, order))
  {
    if run.submitted == [] {
      assert Delivered(run, order);
      ResolveUntouched(f, r, run, order);
      ResolveOk(f, r, run, order);
      hide AtRest, Resolve;
    } else {
      ResolveSubmitted(f, r, run, order);
    }
  }

  lemma CancelEnds(w: World, r: RunId, order: seq<Ref>)
    requires Inv(w) && w.fleet.Open() && AliveIn(w.runs, r) && Enumerates(order, w.runs[r].Arrived())
    ensures CancelledAs(w.fleet, r, w.runs[r], Resolve(w.fleet, r, w.runs[r], order))
  {
    LivingRun(w, r);
    hide *;
    ResolveEnds(w.fleet, r, w.runs[r], order);
  }

  /** The trichotomy: a cancellation that finds the dispatcher open either waits for finished
      calls to be delivered, or ends in exactly one of three ways. The bare `raise` needs that
      nothing was submitted; a result needs that every job was answered. */
  lemma CancellationEnds(workers: seq<WorkerId>, w: World, step: Step)
    requires Reachable(workers, w) && w.fleet.Open() && Enabled(w, step) && (step.Cancel? || step.FinishCancel?)
    ensures var s := SectionOf(w, step);
            && Apply(w, step) == After(w, step.r, s)
            && (CancelledAs(w.fleet, step.r, w.runs[step.r], s) || (step.Cancel? && s.run.phase.Settling?))
  {
    ReachableOk(workers, w);
    CancelEnds(w, step.r, step.order);
    hide Inv, CancelledAs, Resolve, Reachable;
  }
}

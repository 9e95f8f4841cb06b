/** How each step of a run ends, read off the state it found: what is admitted, what a resumed wait,
    a timeout, a wake-up and a cancellation come to, and that a cancelled run whose calls all succeed
    still returns its results. */
module ActorOutcomes {
  import opened Sequences
  import opened ActorFleet
  import opened ActorRuns
  import opened ActorProofs
  import opened ActorSections
  import opened ActorCompletion
  import opened ActorWorld
  import opened ActorTheorems
  import opened ActorGuarantees
  import opened ActorPrompt

  // ---- Submission -------------------------------------------------------------------------

  /** These jobs' calls are accepted, under refs nobody has in the air. */
  ghost predicate Accepts(active: map<Ref, WorkerId>, calls: nat -> Call, todo: seq<nat>) {
    && (forall p :: p in todo ==> calls(p).Accepted? && calls(p).ref !in active)
    && (forall p, q :: p in todo && q in todo && p != q ==> calls(p) != calls(q))
  }

  /** The run was ended by the call of one of these jobs. */
  ghost predicate EndedByCall(r: RunId, submitted: seq<nat>, todo: seq<nat>, run': Run) {
    && Departing(run')
    && (if OutcomeOf(run') == CallRaised then submitted == []
        else exists p :: p in todo && OutcomeOf(run') == Failed(CallFailed(r, p)))
  }

  lemma LaunchEnds(g: Fleet, r: RunId, run: Run, call: Call, p: nat, w: WorkerId, rest: seq<nat>)
    requires g.Open()
    ensures var attempt := Launch(g, r, run, call, p, w, rest);
            && (attempt.Flew? ==>
                  && attempt.run.submitted == run.submitted + [p]
                  && attempt.fleet.Open() && call.Accepted? && attempt.fleet.active == g.active[call.ref := w])
            && (attempt.Ended? ==>
                  && !(call.Accepted? && call.ref !in g.active)
                  && EndedByCall(r, run.submitted, [p], attempt.section.run))
            && !attempt.NoSlot?
  {
  }

  /** What one job of a pass comes to on an open fleet. */
  ghost predicate TriedAs(f: Fleet, r: RunId, run: Run, call: Call, p: nat, attempt: Attempt) {
    && (attempt.Flew? ==>
          && attempt.run.submitted == run.submitted + [p]
          && attempt.fleet.Open() && call.Accepted?
          && forall ref :: ref in attempt.fleet.active ==> ref in f.active || ref == call.ref)
    && (attempt.Ended? ==>
          !(call.Accepted? && call.ref !in f.active) && EndedByCall(r, run.submitted, [p], attempt.section.run))
  }

  lemma TryEnds(f: Fleet, r: RunId, run: Run, call: Call, p: nat, rest: seq<nat>)
    requires f.Open()
    ensures TriedAs(f, r, run, call, p, TryJob(f, r, run, call, p, rest))
  {
    match Pick(f, r, run.Candidates(p)) {
      case None =>
      case Some(w) =>
        var g := Take(f, r, w);
        assert g.active == f.active && g.Open();
        LaunchEnds(g, r, run, call, p, w, rest);
        hide Launch, Take, EndedByCall;
    }
  }

  lemma AcceptsRest(active: map<Ref, WorkerId>, active': map<Ref, WorkerId>, calls: nat -> Call, todo: seq<nat>)
    requires todo != [] && NoDup(todo) && Accepts(active, calls, todo)
    requires forall ref :: ref in active' ==> ref in active || ref == calls(todo[0]).ref
    ensures Accepts(active', calls, todo[1..])
  {
    assert forall q :: q in todo[1..] ==> q in todo && q != todo[0];
  }

  lemma EndedLater(r: RunId, submitted: seq<nat>, todo: seq<nat>, submitted': seq<nat>, todo': seq<nat>, run: Run)
    requires EndedByCall(r, submitted', todo', run) && submitted <= submitted'
    requires forall q :: q in todo' ==> q in todo
    ensures EndedByCall(r, submitted, todo, run)
  {
  }

  lemma {:induction false} PassEnds(f: Fleet, r: RunId, run: Run, calls: nat -> Call, kept: seq<nat>, todo: seq<nat>)
    requires f.Open() && NoDup(todo)
    ensures var pass := SubmitPass(f, r, run, calls, kept, todo);
            pass.Stopped? ==>
              !Accepts(f.active, calls, todo) && EndedByCall(r, run.submitted, todo, pass.section.run)
    decreases todo
  {
    if todo != [] {
      var p, rest, pass := todo[0], todo[1..], SubmitPass(f, r, run, calls, kept, todo);
      assert (forall q :: q in [p] || q in rest ==> q in todo) && (calls(p).Accepted? ==> p in todo);
      TryEnds(f, r, run, calls(p), p, rest + kept);
      hide TryJob, EndedByCall;
      match TryJob(f, r, run, calls(p), p, rest + kept) {
        case NoSlot =>
          PassEnds(f, r, run, calls, kept + [p], rest);
          if pass.Stopped? {
            EndedLater(r, run.submitted, todo, run.submitted, rest, pass.section.run);
          }
        case Flew(h, run') =>
          if h.available != {} {
            PassEnds(h, r, run', calls, kept, rest);
            if pass.Stopped? {
              EndedLater(r, run.submitted, todo, run'.submitted, rest, pass.section.run);
              if Accepts(f.active, calls, todo) {
                AcceptsRest(f.active, h.active, calls, todo);
              }
            }
          }
        case Ended(s) =>
          EndedLater(r, run.submitted, todo, run.submitted, [p], s.run);
      }
    }
  }

  /** With calls that are accepted a turn of the main loop ends in a wait. */
  lemma LoopHeadEnds(f: Fleet, r: RunId, run: Run, calls: nat -> Call)
    requires MidTurn(f, r, run) && f.Open() && (run.flights != map[] || run.pending != [])
    ensures var s := LoopHead(f, r, run, calls);
            && (s.run.phase.Waiting? || EndedByCall(r, run.submitted, run.pending, s.run))
            && (Accepts(f.active, calls, run.pending) ==> s.run.phase.Waiting?)
  {
    assert [] + run.pending == run.pending;
    PendingOnce(f, r, run);
    PassEnds(f, r, run, calls, [], run.pending);
    assert Working(f, run, [] + run.pending);
    hide Ledger, JobsOk, FleetOk, SameRest, Registered, OthersKeep, EndedByCall, Accepts, Working, PassOk, Departed;
    SubmitPassOk(f, r, run, calls, [], run.pending);
    hide SubmitPass, MidTurn;
    match SubmitPass(f, r, run, calls, [], run.pending) {
      case Passed(g, run') =>
        LoopHeadPassed(f, r, run, g, run');
        ParkWaits(f, run.flights, g, r, run');
      case Stopped(_) =>
    }
  }

  lemma PendingOnce(f: Fleet, r: RunId, run: Run)
    requires MidTurn(f, r, run)
    ensures NoDup(run.pending)
  {
  }

  lemma ParkWaits(f: Fleet, flights: map<Ref, Flight>, g: Fleet, r: RunId, run: Run)
    requires WentOn(f, flights, r, Park(g, r, run))
    ensures Park(g, r, run).run.phase.Waiting?
  {
    hide AtRest, OthersKeep, SameRest;
  }

  // ---- The start of a run -------------------------------------------------------------------

  /** Every job is bound to a worker of the fleet with something to call, or may go to any of the
      methods; and every method belongs to such a worker. */
  ghost predicate ValidRequest(workers: seq<WorkerId>, request: Request) {
    && (forall j :: j in request.jobs ==>
          if j.worker.Some? then j.worker.value in workers && j.callable else request.methods != [])
    && (forall m :: m in request.methods ==> m.worker in workers && m.callable)
  }

  /** What a call of `run` does before its first wait: nothing, an empty result, or a refusal that leaves
      the fleet alone; a valid request is admitted with all its jobs, and waits if its calls are accepted. */
  lemma StartWays(workers: seq<WorkerId>, w: World, r: RunId, request: Request, calls: nat -> Call)
    requires Reachable(workers, w) && Enabled(w, Start(r, request, calls))
    ensures var w' := Apply(w, Start(r, request, calls));
            var run' := w'.runs[r];
            if w.fleet.Open() && request.jobs != [] && ValidRequest(w.fleet.workers, request) then
              && run'.jobs == request.jobs
              && (run'.phase.Waiting? || EndedByCall(r, [], Upto(|request.jobs|), run'))
              && (Accepts(w.fleet.active, calls, Upto(|request.jobs|)) ==> run'.phase.Waiting?)
            else
              && w'.fleet == w.fleet && w'.cancelled == w.cancelled
              && run'.phase == Exited(if !w.fleet.Open() then Refused
                                      else if request.jobs == [] then Returned([]) else Rejected)
  {
    ReachableOk(workers, w);
    AdmitWays(w.fleet, request);
    match Admit(w.fleet, request) {
      case Admitted(run) =>
        assert !AliveIn(w.runs, r);
        AdmittedOk(w.fleet, r, request);
        LoopHeadEnds(w.fleet, r, run, calls);
        hide Inv, MidTurn, LoopHead, Accepts, ValidRequest, EndedByCall;
        LoopHeadKeepsJobs(w.fleet, r, run, calls);
      case Immediate(_) =>
        assert w.cancelled + multiset{} == w.cancelled;
    }
  }

  lemma AdmitWays(f: Fleet, request: Request)
    ensures var admission := Admit(f, request);
            if f.Open() && request.jobs != [] && ValidRequest(f.workers, request) then
              && admission.Admitted? && admission.run.jobs == request.jobs
              && admission.run.pending == Upto(|request.jobs|)
            else
              admission == Immediate(if !f.Open() then Refused
                                     else if request.jobs == [] then Returned([]) else Rejected)
  {
  }

  lemma TryKeepsJobs(f: Fleet, r: RunId, run: Run, call: Call, p: nat, rest: seq<nat>)
    ensures match TryJob(f, r, run, call, p, rest)
            case NoSlot => true
            case Ended(s) => s.run.jobs == run.jobs
            case Flew(_, run') => run'.jobs == run.jobs
  {
    hide Withdraw, Close, Take, Pick;
  }

  lemma {:induction false} PassKeepsJobs(
    f: Fleet, r: RunId, run: Run, calls: nat -> Call, kept: seq<nat>, todo: seq<nat>)
    ensures match SubmitPass(f, r, run, calls, kept, todo)
            case Passed(_, run') => run'.jobs == run.jobs
            case Stopped(s) => s.run.jobs == run.jobs
    decreases todo
  {
    if todo != [] {
      TryKeepsJobs(f, r, run, calls(todo[0]), todo[0], todo[1..] + kept);
      hide TryJob;
      match TryJob(f, r, run, calls(todo[0]), todo[0], todo[1..] + kept) {
        case NoSlot => PassKeepsJobs(f, r, run, calls, kept + [todo[0]], todo[1..]);
        case Ended(_) =>
        case Flew(g, run') =>
          if g.available != {} {
            PassKeepsJobs(g, r, run', calls, kept, todo[1..]);
          }
      }
    }
  }

  lemma LoopHeadKeepsJobs(f: Fleet, r: RunId, run: Run, calls: nat -> Call)
    ensures LoopHead(f, r, run, calls).run.jobs == run.jobs
  {
    PassKeepsJobs(f, r, run, calls, [], run.pending);
    hide SubmitPass;
  }

  // ---- The wait returns -----------------------------------------------------------------

  /** The first of the done calls that failed, in the order they are looked at. */
  ghost predicate FirstErred(run: Run, order: seq<Ref>, k: nat) {
    k < |order| && Erred(run, order[k]) && forall j :: 0 <= j < k ==> !Erred(run, order[j])
  }

  /** What looking at the done calls comes to: the first failure ends the run, or all are recorded. */
  ghost predicate Looked(f: Fleet, r: RunId, run: Run, order: seq<Ref>, o: Observation) {
    match o
    case Observed(g, run') =>
      && (forall ref :: ref in order ==> !Erred(run, ref))
      && run'.pending == run.pending && run'.submitted == run.submitted && run'.task == run.task
      && g.terminal == f.terminal
      && (forall ref :: ref in run'.flights <==> ref in run.flights && ref !in order)
      && (forall ref :: ref in g.active ==> ref in f.active)
    case Aborted(s) =>
      && Departing(s.run)
      && (if f.Open() then
            exists k: nat :: FirstErred(run, order, k)
                        && OutcomeOf(s.run) == Failed(CallFailed(r, run.flights[order[k]].position))
          else OutcomeOf(s.run) == Refused && exists ref :: ref in order && Erred(run, ref))
  }

  lemma LookedMore(f: Fleet, g: Fleet, r: RunId, run: Run, run': Run, order: seq<Ref>, o: Observation)
    requires order != [] && Delivered(run, order) && !Erred(run, order[0])
    requires run'.flights == run.flights - {order[0]} && run'.deliveries == run.deliveries - {order[0]}
    requires run'.pending == run.pending && run'.submitted == run.submitted && run'.task == run.task
    requires g.terminal == f.terminal && forall ref :: ref in g.active ==> ref in f.active
    requires Looked(g, r, run', order[1..], o)
    ensures Looked(f, r, run, order, o)
  {
    SweepShapeStep(run, run', order);
    if o.Aborted? && f.Open() {
      var k: nat :| FirstErred(run', order[1..], k)
               && OutcomeOf(o.section.run) == Failed(CallFailed(r, run'.flights[order[1..][k]].position));
      assert order[1..][k] == order[k + 1];
      assert FirstErred(run, order, k + 1) by {
        forall j | 0 <= j < k + 1 ensures !Erred(run, order[j]) {
          if j > 0 {
            assert order[1..][j - 1] == order[j];
          }
        }
      }
    }
  }

  lemma ObserveErrs(f: Fleet, r: RunId, run: Run, order: seq<Ref>)
    requires order != [] && Delivered(run, order) && Erred(run, order[0])
    requires !ReleasesTwice(f, run.flights[order[0]].worker)
    ensures var o := Observe(f, r, run, order);
            && o.Aborted? && Departing(o.section.run)
            && OutcomeOf(o.section.run) ==
                 if f.Open() then Failed(CallFailed(r, run.flights[order[0]].position)) else Refused
  {
    hide ReleasesTwice, Withdraw;
  }

  lemma NotTwice(f: Fleet, r: RunId, run: Run, order: seq<Ref>)
    requires MidTurn(f, r, run) && order != [] && Delivered(run, order)
    ensures !ReleasesTwice(f, run.flights[order[0]].worker)
  {
    FinishKeeps(f, r, run.flights, order[0]);
  }

  lemma LookFails(f: Fleet, r: RunId, run: Run, order: seq<Ref>)
    requires MidTurn(f, r, run) && order != [] && Delivered(run, order) && Erred(run, order[0])
    ensures Looked(f, r, run, order, Observe(f, r, run, order))
  {
    hide MidTurn, Delivered, ReleasesTwice, Observe;
    NotTwice(f, r, run, order);
    ObserveErrs(f, r, run, order);
    assert FirstErred(run, order, 0) && order[0] in order;
  }

  lemma {:induction false} LookEnds(f: Fleet, r: RunId, run: Run, order: seq<Ref>)
    requires MidTurn(f, r, run) && Delivered(run, order)
    ensures Looked(f, r, run, order, Observe(f, r, run, order))
    decreases |order|
  {
    if order != [] {
      if Erred(run, order[0]) {
        LookFails(f, r, run, order);
      } else {
        var ref := order[0];
        var flight := run.flights[ref];
        var g := Finish(f, ref, flight.worker);
        var run' := Record(Pop(run, ref), Entry(flight.position, run.deliveries[ref].value));
        RecordMidTurn(f, r, run, ref);
        DeliveredRest(run, order, run');
        hide MidTurn, CameDown, Looked, Delivered;
        LookEnds(g, r, run', order[1..]);
        assert Delivered(run, order);
        LookedMore(f, g, r, run, run', order, Observe(g, r, run', order[1..]));
      }
    }
  }

  /** Enough of what looking at the done calls found, once all arrived calls were done. */
  lemma LookedAll(f: Fleet, r: RunId, run: Run, order: seq<Ref>, g: Fleet, run': Run)
    requires Enumerates(order, run.Arrived()) && Looked(f, r, run, order, Observed(g, run'))
    ensures forall ref :: !Erred(run, ref)
    ensures AllAnswered(run) <==> run'.pending == [] && run'.flights == map[]
    ensures run'.pending == run.pending && g.terminal == f.terminal
  {
    assert forall ref :: ref in order <==> ref in run.flights && ref in run.deliveries;
    assert run'.flights == map[] <==> run'.flights.Keys == {};
    if AllAnswered(run) {
      assert forall ref :: ref !in run'.flights;
    }
  }

  /** A turn after the done calls, on an open fleet. */
  lemma ContinueEnds(f: Fleet, r: RunId, run: Run, calls: nat -> Call)
    requires MidTurn(f, r, run) && f.Open()
    ensures var s := Continue(f, r, run, calls);
            if run.pending == [] && run.flights == map[] then
              && Departing(s.run) && OutcomeOf(s.run).Returned? && Complete(s.run, OutcomeOf(s.run).pairs)
              && s.fleet.Open() && (s.run.phase.Exiting? <==> run.task == Live)
            else
              && (s.run.phase.Waiting? || EndedByCall(r, run.submitted, run.pending, s.run))
              && (Accepts(f.active, calls, run.pending) ==> s.run.phase.Waiting?)
  {
    if run.pending == [] && run.flights == map[] {
      ContinueReturns(f, r, run, calls);
    } else {
      LoopHeadEnds(f, r, run, calls);
    }
  }

  lemma ContinueReturns(f: Fleet, r: RunId, run: Run, calls: nat -> Call)
    requires MidTurn(f, r, run) && f.Open() && run.pending == [] && run.flights == map[]
    ensures var s := Continue(f, r, run, calls);
            && Departing(s.run) && OutcomeOf(s.run).Returned? && Complete(s.run, OutcomeOf(s.run).pairs)
            && s.fleet.Open() && (s.run.phase.Exiting? <==> run.task == Live)
  {
    ResultComplete(run);
    hide Ledger, JobsOk, Registered, Complete, FleetOk, Result;
    LeaveFleetOk(f, r);
    KeepComplete(run, Continue(f, r, run, calls).run, Result(run));
  }

  /** How a wait that returned on an open fleet goes on. */
  ghost predicate ResumedAs(f: Fleet, r: RunId, run: Run, order: seq<Ref>, calls: nat -> Call, g: Fleet, run': Run) {
    if exists ref :: Erred(run, ref) then
      exists k: nat :: FirstErred(run, order, k) && Departing(run')
                       && OutcomeOf(run') == Failed(CallFailed(r, run.flights[order[k]].position))
    else if AllAnswered(run) then
      && Departing(run') && OutcomeOf(run').Returned? && Complete(run', OutcomeOf(run').pairs) && g.Open()
      && (run'.phase.Exiting? <==> run.task == Live)
    else
      && (run'.phase.Waiting? || EndedByCall(r, run.submitted, run.pending, run'))
      && (Accepts(f.active, calls, run.pending) ==> run'.phase.Waiting?)
  }

  lemma TurnGoesOn(f: Fleet, r: RunId, run: Run, order: seq<Ref>, calls: nat -> Call, g: Fleet, run': Run)
    requires f.Open() && Enumerates(order, run.Arrived()) && Looked(f, r, run, order, Observed(g, run'))
    requires MidTurn(g, r, run')
    ensures var s := Continue(g, r, run', calls); ResumedAs(f, r, run, order, calls, s.fleet, s.run)
  {
    LookedAll(f, r, run, order, g, run');
    ContinueEnds(g, r, run', calls);
    assert run'.pending == run.pending && run'.submitted == run.submitted && run'.task == run.task;
    assert Accepts(f.active, calls, run.pending) ==> Accepts(g.active, calls, run.pending);
    hide Accepts, EndedByCall, Complete, Looked, MidTurn, Continue, Enumerates, AllAnswered, Erred;
  }

  lemma TurnStops(f: Fleet, r: RunId, run: Run, order: seq<Ref>, calls: nat -> Call, s: Section)
    requires f.Open() && Looked(f, r, run, order, Aborted(s))
    ensures ResumedAs(f, r, run, order, calls, s.fleet, s.run)
  {
    hide Erred, Accepts, EndedByCall, Complete, AllAnswered;
  }

  lemma ResumeEnds(f: Fleet, r: RunId, run: Run, order: seq<Ref>, calls: nat -> Call)
    requires AtRest(f, r, run) && f.Open() && Delivered(run, order) && Enumerates(order, run.Arrived())
    ensures var s := Resume(f, r, run, order, calls); ResumedAs(f, r, run, order, calls, s.fleet, s.run)
  {
    var run' := if run.task == Done then run.(task := NoTask) else run;
    KeepLedger(run, run');
    assert MidTurn(f, r, run') && Delivered(run', order) && run.task != Crashed && run'.Arrived() == run.Arrived();
    hide MidTurn, CameDown, Delivered, Continue, AtRest, Ledger, Observe, Looked, ResumedAs, Departed, Enumerates;
    LookEnds(f, r, run', order);
    ObserveOk(f, r, run', order);
    var s := Resume(f, r, run, order, calls);
    match Observe(f, r, run', order) {
      case Observed(g, run'') =>
        TurnGoesOn(f, r, run', order, calls, g, run'');
      case Aborted(stopped) =>
        TurnStops(f, r, run', order, calls, stopped);
    }
    assert ResumedAs(f, r, run', order, calls, s.fleet, s.run);
    SameResumed(f, r, run, run', order, calls, s);
  }

  lemma SameResumed(f: Fleet, r: RunId, run: Run, run': Run, order: seq<Ref>, calls: nat -> Call, s: Section)
    requires run' == run.(task := run'.task) && (run'.task == Live <==> run.task == Live)
    requires ResumedAs(f, r, run', order, calls, s.fleet, s.run)
    ensures ResumedAs(f, r, run, order, calls, s.fleet, s.run)
  {
    SameAnswers(run, run', order);
    hide Erred, Accepts, EndedByCall, Complete, AllAnswered, FirstErred;
  }

  lemma SameAnswers(run: Run, run': Run, order: seq<Ref>)
    requires run' == run.(task := run'.task)
    ensures AllAnswered(run') <==> AllAnswered(run)
    ensures forall ref :: Erred(run', ref) <==> Erred(run, ref)
    ensures forall k: nat :: FirstErred(run', order, k) <==> FirstErred(run, order, k)
  {
  }

  /** A wait that returned on an open fleet: the first failed call of the done set ends the run with its
      error and closes the fleet; a run whose calls have all succeeded returns, its clean-up waiting only
      for a live admission task; any other waits again, unless a call it now makes is not accepted. */
  lemma ResumeWays(workers: seq<WorkerId>, w: World, r: RunId, order: seq<Ref>, calls: nat -> Call)
    requires Reachable(workers, w) && w.fleet.Open() && Enabled(w, ResumeWait(r, order, calls))
    ensures var w' := Apply(w, ResumeWait(r, order, calls));
            && ResumedAs(w.fleet, r, w.runs[r], order, calls, w'.fleet, w'.runs[r])
            && (Departing(w'.runs[r]) && OutcomeOf(w'.runs[r]).Failed? ==>
                  w'.fleet.terminal == Some(OutcomeOf(w'.runs[r]).error))
  {
    var step := ResumeWait(r, order, calls);
    ReachableOk(workers, w);
    LivingRun(w, r);
    SectionReady(w, step);
    SectionOfOk(w, step);
    hide Inv, AtRest, Resume, ResumedAs, Delivered;
    ResumeEnds(w.fleet, r, w.runs[r], order, calls);
    FailedCloses(w.fleet, w.runs[r].flights, r, SectionOf(w, step));
    hide SectionOk;
  }

  lemma FailedCloses(f: Fleet, flights: map<Ref, Flight>, r: RunId, s: Section)
    requires SectionOk(f, flights, r, s)
    ensures Departing(s.run) && OutcomeOf(s.run).Failed? ==> s.fleet.terminal == Some(OutcomeOf(s.run).error)
  {
  }

  /** A turn after the done calls, on a closed fleet. */
  lemma ContinueClosed(f: Fleet, r: RunId, run: Run, calls: nat -> Call)
    requires MidTurn(f, r, run) && !f.Open()
    ensures var s := Continue(f, r, run, calls);
            if run.pending == [] && run.flights != map[] then s.run.phase.Waiting?
            else Departing(s.run) && OutcomeOf(s.run) == Refused
  {
    if run.pending == [] && run.flights != map[] {
      LoopHeadDrained(f, r, run, calls);
      hide Ledger, JobsOk, FleetOk, AtRest;
      assert LoopHead(f, r, run, calls) == Park(f, r, run.(pending := []));
      ParkWaits(f, run.flights, f, r, run.(pending := []));
    } else {
      hide MidTurn, Withdraw;
    }
  }

  lemma StopsClosed(f: Fleet, r: RunId, run: Run, order: seq<Ref>, s: Section)
    requires !f.Open() && Looked(f, r, run, order, Aborted(s))
    ensures Departing(s.run) && OutcomeOf(s.run) == Refused && exists ref :: Erred(run, ref)
  {
  }

  lemma ResumeEndsClosed(f: Fleet, r: RunId, run: Run, order: seq<Ref>, calls: nat -> Call)
    requires AtRest(f, r, run) && !f.Open() && Delivered(run, order) && Enumerates(order, run.Arrived())
    ensures var run' := Resume(f, r, run, order, calls).run;
            if run.task != Crashed && run.pending == [] && !AllAnswered(run) && !(exists ref :: Erred(run, ref))
            then run'.phase.Waiting?
            else Departing(run') && OutcomeOf(run') == Refused
  {
    var run' := if run.task == Done then run.(task := NoTask) else run;
    if run.task != Crashed {
      KeepLedger(run, run');
      assert MidTurn(f, r, run') && Delivered(run', order) && run'.Arrived() == run.Arrived();
      hide MidTurn, CameDown, Delivered, Continue, AtRest, Ledger, Observe, Departed, Enumerates, Erred,
          AllAnswered, Looked;
      LookEnds(f, r, run', order);
      ObserveOk(f, r, run', order);
      SameAnswers(run, run', order);
      match Observe(f, r, run', order) {
        case Observed(g, run'') =>
          LookedAll(f, r, run', order, g, run'');
          ContinueClosed(g, r, run'', calls);
        case Aborted(s) => StopsClosed(f, r, run', order, s);
      }
    }
  }

  /** A wait that returned on a closed fleet: the run waits on only for calls of its own that are still
      out, with nothing left to submit and no error seen; otherwise it is refused. */
  lemma ResumeClosedWays(workers: seq<WorkerId>, w: World, r: RunId, order: seq<Ref>, calls: nat -> Call)
    requires Reachable(workers, w) && !w.fleet.Open() && Enabled(w, ResumeWait(r, order, calls))
    ensures var run, run' := w.runs[r], Apply(w, ResumeWait(r, order, calls)).runs[r];
            if run.task != Crashed && run.pending == [] && !AllAnswered(run) && !(exists ref :: Erred(run, ref))
            then run'.phase.Waiting?
            else Departing(run') && OutcomeOf(run') == Refused
  {
    ReachableOk(workers, w);
    SectionReady(w, ResumeWait(r, order, calls));
    hide Inv, AtRest, Resume, Delivered, Erred, AllAnswered;
    ResumeEndsClosed(w.fleet, r, w.runs[r], order, calls);
  }

  // ---- The wait times out -----------------------------------------------------------------

  /** A wait that timed out closes an open fleet with the timeout of this run, which fails with it; on a
      closed fleet the run is refused and nothing changes hands. Its own calls are still out, so the
      clean-up waits for their wrappers. */
  lemma TimeOutWays(workers: seq<WorkerId>, w: World, r: RunId)
    requires Reachable(workers, w) && Enabled(w, TimeOut(r))
    ensures var w' := Apply(w, TimeOut(r));
            && w'.runs[r].phase == Exiting(if w.fleet.Open() then Failed(TimedOut(r)) else Refused)
            && w'.fleet.terminal == (if w.fleet.Open() then Some(TimedOut(r)) else w.fleet.terminal)
            && forall ref :: ref in w.fleet.active ==> w'.cancelled[ref] == 1
  {
    ReachableOk(workers, w);
    assert FleetOk(w.fleet) && CancelledOnce(w.fleet.Open(), w.runs, w.cancelled);
    hide Inv;
    ExpireEnds(w.fleet, r, w.runs[r]);
    hide FleetOk, Expire;
  }

  lemma ExpireEnds(f: Fleet, r: RunId, run: Run)
    requires FleetOk(f) && run.flights != map[] && run.Arrived() == {}
    ensures var s := Expire(f, r, run);
            && s.fleet.terminal == (if f.Open() then Some(TimedOut(r)) else f.terminal)
            && s.run.phase == Exiting(if f.Open() then Failed(TimedOut(r)) else Refused)
            && s.doomed == f.active.Keys
  {
    var ref :| ref in run.flights;
    assert ref !in run.Arrived();
    hide Withdraw;
  }

  // ---- The admission task wakes -----------------------------------------------------------

  /** A woken admission task ends as soon as it can acquire something it wants, or wants nothing any
      more; it raises exactly on a closed fleet, and otherwise sleeps again. */
  lemma WakeWays(w: World, r: RunId)
    requires Enabled(w, WakeTask(r))
    ensures var w' := Apply(w, WakeTask(r));
            && w'.runs[r].task ==
                 (if !w.fleet.Open() then Crashed
                  else if w.fleet.Wants(r) == [] || w.fleet.CanAcquire(r, w.fleet.Wants(r)) then Done else Live)
            && (r in w'.fleet.asleep <==> w'.runs[r].task == Live)
            && w'.runs[r].phase == w.runs[r].phase && w'.cancelled == w.cancelled
  {
    assert w.cancelled + multiset{} == w.cancelled;
  }

  // ---- Cancellation -----------------------------------------------------------------------

  /** The undelivered calls of a run that Ray reports finished. */
  function Overdue(run: Run, finished: set<Ref>): set<Ref> {
    set ref | ref in run.flights && ref !in run.deliveries && ref in finished
  }

  /** A cancellation that finds finished calls undelivered changes nothing but what the run waits for:
      exactly those calls. With none it ends the run at once, on a closed fleet as cancelled. */
  lemma CancelSettles(workers: seq<WorkerId>, w: World, r: RunId, finished: set<Ref>, order: seq<Ref>)
    requires Reachable(workers, w) && Enabled(w, Cancel(r, finished, order))
    ensures var w', overdue := Apply(w, Cancel(r, finished, order)), Overdue(w.runs[r], finished);
            if overdue != {} then w' == w.(runs := w.runs[r := w.runs[r].(phase := Settling(overdue))])
            else Departing(w'.runs[r]) && (!w.fleet.Open() ==> OutcomeOf(w'.runs[r]) == Cancelled)
  {
    var step := Cancel(r, finished, order);
    ReachableOk(workers, w);
    SectionReady(w, step);
    assert w.cancelled + multiset({}) == w.cancelled;
    hide Inv, AtRest, Resolve, Delivered, Enumerates;
    if Overdue(w.runs[r], finished) == {} {
      ResolveLeaves(w.fleet, r, w.runs[r], order);
    }
  }

  lemma ResolveLeaves(f: Fleet, r: RunId, run: Run, order: seq<Ref>)
    requires AtRest(f, r, run) && Delivered(run, order)
    ensures var run' := Resolve(f, r, run, order).run;
            Departing(run') && (!f.Open() ==> OutcomeOf(run') == Cancelled)
  {
    ResolveOk(f, r, run, order);
    if !f.Open() {
      SweepArrivedOk(f, r, run, order, None);
      hide AtRest, Sweeping, SweepArrived, Departed, FleetOk, OthersKeep, Withdraw;
    } else {
      hide Resolve;
    }
  }

  /** The end of a wait for finished calls ends the run, on a closed fleet as cancelled. */
  lemma FinishLeaves(workers: seq<WorkerId>, w: World, r: RunId, again: bool, order: seq<Ref>)
    requires Reachable(workers, w) && Enabled(w, FinishCancel(r, again, order))
    ensures var run' := Apply(w, FinishCancel(r, again, order)).runs[r];
            Departing(run') && (!w.fleet.Open() ==> OutcomeOf(run') == Cancelled)
  {
    ReachableOk(workers, w);
    FinishGone(w, r, again, order);
  }

  lemma FinishGone(w: World, r: RunId, again: bool, order: seq<Ref>)
    requires Inv(w) && Enabled(w, FinishCancel(r, again, order))
    ensures r in Apply(w, FinishCancel(r, again, order)).runs
    ensures var run' := Apply(w, FinishCancel(r, again, order)).runs[r];
            Departing(run') && (!w.fleet.Open() ==> OutcomeOf(run') == Cancelled)
  {
    SectionReady(w, FinishCancel(r, again, order));
    hide Inv, AtRest, Resolve, Delivered, Enumerates;
    ResolveLeaves(w.fleet, r, w.runs[r], order);
  }

  /** A run since it began to wait for finished calls: still waiting for the same ones with the same work,
      or gone for good. */
  ghost predicate SinceCancelled(run: Run, run': Run) {
    && !run'.phase.Waiting?
    && (run'.phase.Settling? ==>
          && run'.phase == run.phase && run'.pending == run.pending && run'.flights == run.flights
          && run'.submitted == run.submitted && run'.results == run.results
          && forall ref :: ref in run.deliveries ==>
                ref in run'.deliveries && run'.deliveries[ref] == run.deliveries[ref])
  }

  lemma StaysCancelled(w: World, step: Step, r: RunId, run: Run)
    requires Inv(w) && Enabled(w, step) && r in w.runs && SinceCancelled(run, w.runs[r])
    ensures r in Apply(w, step).runs && SinceCancelled(run, Apply(w, step).runs[r])
  {
    if step.r != r {
      StepTouchesOne(w, step);
      hide Inv, Apply, Enabled, SinceCancelled;
    } else if step.FinishCancel? {
      hide *;
      FinishGone(w, r, step.again, step.order);
      GoneSince(run, Apply(w, step).runs[r]);
    } else {
      hide Inv;
      OwnStepCancelled(w, step, r, run);
    }
  }

  lemma GoneSince(run: Run, run': Run)
    requires Departing(run')
    ensures SinceCancelled(run, run')
  {
  }

  lemma OwnStepCancelled(w: World, step: Step, r: RunId, run: Run)
    requires Enabled(w, step) && step.r == r && !step.FinishCancel? && r in w.runs && SinceCancelled(run, w.runs[r])
    ensures r in Apply(w, step).runs && SinceCancelled(run, Apply(w, step).runs[r])
  {
    assert step.Deliver? || step.WakeTask? || step.Unwind?;
    hide Resolve, Resume, Expire, Interrupt, LoopHead, Enumerates, Withdraw, FallAsleep;
  }

  lemma {:induction false} AlwaysSinceCancelled(w: World, steps: seq<Step>, r: RunId, run: Run)
    requires Inv(w) && Legal(w, steps) && r in w.runs && SinceCancelled(run, w.runs[r])
    ensures r in Play(w, steps).runs && SinceCancelled(run, Play(w, steps).runs[r])
    decreases |steps|
  {
    if steps != [] {
      StaysCancelled(w, steps[0], r, run);
      StepOk(w, steps[0]);
      hide Inv, SinceCancelled, Apply, Enabled;
      AlwaysSinceCancelled(Apply(w, steps[0]), steps[1..], r, run);
    }
  }

  /** Nothing is left to submit, and every call has succeeded or is reported finished. */
  ghost predicate AllFinished(run: Run, finished: set<Ref>) {
    && run.pending == []
    && forall ref :: ref in run.flights ==>
         if ref in run.deliveries then run.deliveries[ref].Succeeded? else ref in finished
  }

  /** The run returned everything, and the fleet is still open. */
  ghost predicate ReturnedAll(w: World, r: RunId) {
    && r in w.runs && Departing(w.runs[r]) && OutcomeOf(w.runs[r]).Returned?
    && Complete(w.runs[r], OutcomeOf(w.runs[r]).pairs) && w.fleet.Open()
  }

  lemma AllSubmitted(f: Fleet, r: RunId, run: Run)
    requires AtRest(f, r, run) && run.pending == []
    ensures run.submitted != []
  {
    assert 0 in run.submitted;
  }

  lemma AnsweredReturns(w: World, r: RunId, order: seq<Ref>, s: Section)
    requires Inv(w) && w.fleet.Open() && AliveIn(w.runs, r) && AllAnswered(w.runs[r])
    requires CancelledAs(w.fleet, r, w.runs[r], s)
    ensures ReturnedAll(After(w, r, s), r)
  {
    LivingRun(w, r);
    AllSubmitted(w.fleet, r, w.runs[r]);
    hide Inv, AtRest, Complete, AllAnswered;
  }

  /** A cancelled run with nothing left to submit, whose calls were all delivered successfully, returns. */
  lemma CancelReturns(workers: seq<WorkerId>, w: World, r: RunId, finished: set<Ref>, order: seq<Ref>)
    requires Reachable(workers, w) && w.fleet.Open() && Enabled(w, Cancel(r, finished, order))
    requires AllAnswered(w.runs[r])
    ensures ReturnedAll(Apply(w, Cancel(r, finished, order)), r)
  {
    assert Overdue(w.runs[r], finished) == {};
    CancelSettles(workers, w, r, finished, order);
    CancellationEnds(workers, w, Cancel(r, finished, order));
    ReachableOk(workers, w);
    hide Inv, CancelledAs, Reachable, AllAnswered, Complete, Interrupt;
    AnsweredReturns(w, r, order, SectionOf(w, Cancel(r, finished, order)));
  }

  /** The other calls in the air were reported finished when the cancellation came: whatever everybody
      does until they are delivered, the run returns its complete result if they succeed, on an open
      fleet. */
  lemma SettledReturns(
    workers: seq<WorkerId>, w: World, r: RunId, finished: set<Ref>, order: seq<Ref>, steps: seq<Step>, again: bool,
    order': seq<Ref>)
    requires Reachable(workers, w) && Enabled(w, Cancel(r, finished, order))
    requires AllFinished(w.runs[r], finished) && Overdue(w.runs[r], finished) != {}
    requires Legal(Apply(w, Cancel(r, finished, order)), steps)
    requires var w' := Play(Apply(w, Cancel(r, finished, order)), steps);
             && w'.fleet.Open() && Enabled(w', FinishCancel(r, again, order'))
             && forall ref :: ref in Overdue(w.runs[r], finished) ==>
                   ref in w'.runs[r].deliveries && w'.runs[r].deliveries[ref].Succeeded?
    ensures ReturnedAll(Apply(Play(Apply(w, Cancel(r, finished, order)), steps), FinishCancel(r, again, order')), r)
  {
    hide *;
    var w0 := Apply(w, Cancel(r, finished, order));
    var w' := Play(w0, steps);
    CancelEnabled(w, r, finished, order);
    FinishEnabled(w', r, again, order');
    CancelSettles(workers, w, r, finished, order);
    ReachableOk(workers, w);
    StepOk(w, Cancel(r, finished, order));
    SinceItself(w0.runs[r]);
    AlwaysSinceCancelled(w0, steps, r, w0.runs[r]);
    AlwaysOk(w0, steps);
    SettledAnswered(w.runs[r], finished, w'.runs[r]);
    FinishReturns(w', r, again, order');
  }

  lemma CancelEnabled(w: World, r: RunId, finished: set<Ref>, order: seq<Ref>)
    requires Enabled(w, Cancel(r, finished, order))
    ensures r in w.runs
  {
  }

  lemma FinishEnabled(w: World, r: RunId, again: bool, order: seq<Ref>)
    requires Enabled(w, FinishCancel(r, again, order))
    ensures AliveIn(w.runs, r) && w.runs[r].phase.Settling? && Enumerates(order, w.runs[r].Arrived())
    ensures Apply(w, FinishCancel(r, again, order)) == After(w, r, SectionOf(w, FinishCancel(r, again, order)))
    ensures SectionOf(w, FinishCancel(r, again, order)) == Resolve(w.fleet, r, w.runs[r], order)
  {
    hide Resolve, Enumerates;
  }

  lemma SinceItself(run: Run)
    requires run.phase.Settling?
    ensures SinceCancelled(run, run)
  {
  }

  lemma FinishReturns(w: World, r: RunId, again: bool, order: seq<Ref>)
    requires Inv(w) && w.fleet.Open() && Enabled(w, FinishCancel(r, again, order)) && AllAnswered(w.runs[r])
    ensures ReturnedAll(Apply(w, FinishCancel(r, again, order)), r)
  {
    hide *;
    FinishEnabled(w, r, again, order);
    CancelEnds(w, r, order);
    AnsweredReturns(w, r, order, SectionOf(w, FinishCancel(r, again, order)));
  }

  lemma SettledAnswered(run: Run, finished: set<Ref>, run': Run)
    requires AllFinished(run, finished) && run'.phase.Settling?
    requires SinceCancelled(run.(phase := Settling(Overdue(run, finished))), run')
    requires forall ref :: ref in Overdue(run, finished) ==>
              ref in run'.deliveries && run'.deliveries[ref].Succeeded?
    ensures AllAnswered(run')
  {
    forall ref | ref in run'.flights ensures ref in run'.deliveries && run'.deliveries[ref].Succeeded? {
      assert ref !in run.deliveries ==> ref in Overdue(run, finished);
    }
  }
}

/** One call of `RayActorDispatcher.run`, cut at its awaits.

    asyncio runs everything between two awaits without interruption, so each function below
    that returns a `Section` is one atomic stretch of the coroutine: it maps the fleet and
    the caller's locals to their values at the next await. A position in the caller's job
    list stands for the job object that sits at it.
 */
module ActorRuns {
  import opened Sequences
  import opened ActorFleet

  type Value = int

  datatype Job = Job(index: int, worker: Option<WorkerId>, callable: bool)
  datatype Method = Method(worker: WorkerId, callable: bool)

  /** What the driver asks for: jobs in caller order, and the pull-dispatch methods in
      mapping order (empty when none were given). */
  datatype Request = Request(jobs: seq<Job>, methods: seq<Method>)

  datatype Flight = Flight(position: nat, worker: WorkerId)
  datatype Delivery = Succeeded(value: Value) | Errored
  datatype Entry = Entry(position: nat, value: Value)

  /** What a worker method does when called: it returns a ref or raises. */
  datatype Call = Accepted(ref: Ref) | CallRaises

  datatype AdmissionTask = NoTask | Live | Done | Crashed

  datatype Fault = SlotReleasedTwice | WaiterLost | EmptyWait

  datatype Outcome =
    | Returned(pairs: seq<(int, Value)>)
    | Failed(error: TerminalError)   // the error this call closed the fleet with
    | Refused                        // the fleet was already closed
    | CallRaised                     // the first submission raised before anything was submitted
    | Rejected                       // the request was invalid
    | Cancelled
    | Broken(fault: Fault)           // a guard of the dispatcher fired

  datatype Phase =
    | Waiting                         // in asyncio.wait
    | Settling(settled: set<Ref>)     // cancelled, waiting for finished calls to be delivered
    | Exiting(outcome: Outcome)       // in the clean-up gather
    | Exited(outcome: Outcome)

  /** `submitted` lists the submitted positions in submission order (its length is
      `submitted_count`); `answers` records what the actors answered for each position. */
  datatype Run = Run(
    jobs: seq<Job>,
    methods: seq<WorkerId>,
    pending: seq<nat>,
    flights: map<Ref, Flight>,
    deliveries: map<Ref, Delivery>,
    answers: map<nat, Value>,
    results: seq<Entry>,
    submitted: seq<nat>,
    task: AdmissionTask,
    phase: Phase)
  {
    predicate Alive() { phase.Waiting? || phase.Settling? }

    /** The workers job `p` may run on, in the order they are tried. */
    function Candidates(p: nat): seq<WorkerId> {
      if p < |jobs| then
        if jobs[p].worker.Some? then [jobs[p].worker.value] else methods
      else []
    }

    predicate Busy(w: WorkerId) {
      exists ref :: ref in flights && flights[ref].worker == w
    }

    predicate Needs(w: WorkerId) {
      exists p :: p in pending && w in Candidates(p)
    }

    /** Refs whose call has been delivered to this coroutine. */
    function Arrived(): set<Ref> {
      set ref | ref in flights && ref in deliveries
    }
  }

  datatype Section = Section(fleet: Fleet, run: Run, doomed: set<Ref>)

  // ---- Admission of a request ---------------------------------------------------------

  datatype Admission = Admitted(run: Run) | Immediate(outcome: Outcome)

  predicate Known(f: Fleet, w: WorkerId) { w in f.workers }

  /** The checks of `run` before its first await, in order. */
  function Admit(f: Fleet, request: Request): Admission {
    var jobs, methods := request.jobs, request.methods;
    if !f.Open() then Immediate(Refused)
    else if jobs == [] then Immediate(Returned([]))
    else if (exists j :: j in jobs && j.worker.None?) && methods == [] then Immediate(Rejected)
    else if exists j :: j in jobs && j.worker.Some? && !Known(f, j.worker.value) then Immediate(Rejected)
    else if exists j :: j in jobs && j.worker.Some? && !j.callable then Immediate(Rejected)
    else if exists m :: m in methods && !Known(f, m.worker) then Immediate(Rejected)
    else if exists m :: m in methods && !m.callable then Immediate(Rejected)
    else
      Admitted(Run(jobs, Image((m: Method) => m.worker, methods), Upto(|jobs|),
                   map[], map[], map[], [], [], NoTask, Waiting))
  }

  // ---- Leaving ------------------------------------------------------------------------

  /** The `finally` block: leave the queues, cancel the local tasks, and await those that have
      not ended: wrappers of undelivered calls and a live admission task. */
  function Leave(f: Fleet, r: RunId, run: Run, outcome: Outcome, doomed: set<Ref>): Section {
    var lingering := run.task == Live || exists ref :: ref in run.flights && ref !in run.deliveries;
    Section(
      Rouse(Withdraw(f, r), r),
      run.(task := NoTask, phase := if lingering then Exiting(outcome) else Exited(outcome)),
      doomed)
  }

  /** Close the fleet with `error` and leave with it. */
  function CloseAndLeave(f: Fleet, r: RunId, run: Run, error: TerminalError): Section {
    Leave(Close(f, error), r, run, Failed(error), Doomed(f))
  }

  // ---- Submission ---------------------------------------------------------------------

  datatype Pass = Passed(fleet: Fleet, run: Run) | Stopped(section: Section)

  function Submit(run: Run, ref: Ref, p: nat, w: WorkerId): Run {
    run.(flights := run.flights[ref := Flight(p, w)], submitted := run.submitted + [p])
  }

  /** One job of a pass: no slot for it, submitted, or the end of the run. */
  datatype Attempt = NoSlot | Flew(fleet: Fleet, run: Run) | Ended(section: Section)

  /** Calling the worker method for job `p` with slot `w` taken; `rest` stays pending. */
  function Launch(g: Fleet, r: RunId, run: Run, call: Call, p: nat, w: WorkerId, rest: seq<nat>): Attempt {
    var here := run.(pending := rest);
    match call
    case CallRaises =>
      if run.submitted == [] then Ended(Leave(Release(g, w), r, here, CallRaised, {}))
      else Ended(CloseAndLeave(Release(g, w), r, here, CallFailed(r, p)))
    case Accepted(ref) =>
      if ref in g.active then Ended(CloseAndLeave(g, r, here, CallFailed(r, p)))
      else Flew(Register(g, ref, w), Submit(run, ref, p, w))
  }

  function TryJob(f: Fleet, r: RunId, run: Run, call: Call, p: nat, rest: seq<nat>): Attempt {
    if !f.Open() then Ended(Leave(f, r, run.(pending := rest), Refused, {}))
    else
      match Pick(f, r, run.Candidates(p))
      case None => NoSlot
      case Some(w) => Launch(Take(f, r, w), r, run, call, p, w, rest)
  }

  /** `submit_ready`: try every pending job once, in order. `kept` are the jobs already
      tried without a slot, `todo` those still to try. */
  function SubmitPass(f: Fleet, r: RunId, run: Run, calls: nat -> Call, kept: seq<nat>, todo: seq<nat>): Pass
    decreases todo
  {
    if todo == [] then Passed(f, run.(pending := kept))
    else
      var p, rest := todo[0], todo[1..];
      match TryJob(f, r, run, calls(p), p, rest + kept)
      case NoSlot => SubmitPass(f, r, run, calls, kept + [p], rest)
      case Ended(section) => Stopped(section)
      case Flew(g, run') =>
        if g.available == {} then Passed(g, run'.(pending := kept + rest))
        else SubmitPass(g, r, run', calls, kept, rest)
  }

  /** `_pending_workers` minus the workers this call already occupies, in fleet order. */
  function Wanted(run: Run, workers: seq<WorkerId>): (wanted: seq<WorkerId>)
    ensures forall w :: w in wanted <==> w in workers && run.Needs(w) && !run.Busy(w)
    ensures NoDup(workers) ==> NoDup(wanted)
    ensures run.pending == [] ==> wanted == []
  {
    if workers == [] then []
    else
      var tail := Wanted(run, workers[1..]);
      if run.Needs(workers[0]) && !run.Busy(workers[0]) then [workers[0]] + tail else tail
  }

  /** From the end of a submission pass to the next `asyncio.wait`. */
  function Park(f: Fleet, r: RunId, run: Run): Section {
    var wanted := Wanted(run, f.workers);
    if LosesWaiter(f, r, wanted) then Leave(f, r, run, Broken(WaiterLost), {})
    else
      var parked := run.(task := if wanted != [] && run.task == NoTask then Live else run.task, phase := Waiting);
      if parked.flights == map[] && parked.task == NoTask then
        Leave(Sync(f, r, wanted), r, parked, Broken(EmptyWait), {})
      else Section(Sync(f, r, wanted), parked, {})
  }

  /** One turn of the main loop: submit, queue up for what is missing, wait. */
  function LoopHead(f: Fleet, r: RunId, run: Run, calls: nat -> Call): Section {
    match SubmitPass(f, r, run, calls, [], run.pending)
    case Passed(g, run') => Park(g, r, run')
    case Stopped(section) => section
  }

  // ---- Completion ---------------------------------------------------------------------

  function Pop(run: Run, ref: Ref): Run {
    run.(flights := run.flights - {ref}, deliveries := run.deliveries - {ref})
  }

  function Record(run: Run, entry: Entry): Run {
    run.(results := run.results + [entry])
  }

  datatype Observation = Observed(fleet: Fleet, run: Run) | Aborted(section: Section)

  /** The loop over `done`: deliver outcomes until one of them is a failure. */
  function Observe(f: Fleet, r: RunId, run: Run, order: seq<Ref>): Observation
    requires forall ref :: ref in order ==> ref in run.flights && ref in run.deliveries
    requires NoDup(order)
    decreases |order|
  {
    if order == [] then Observed(f, run)
    else
      var ref := order[0];
      var flight, popped := run.flights[ref], Pop(run, ref);
      if ReleasesTwice(f, flight.worker) then
        Aborted(Leave(f.(active := f.active - {ref}), r, popped, Broken(SlotReleasedTwice), {}))
      else
        var g := Finish(f, ref, flight.worker);
        match run.deliveries[ref]
        case Succeeded(value) => Observe(g, r, Record(popped, Entry(flight.position, value)), order[1..])
        case Errored =>
          if !g.Open() then Aborted(Leave(g, r, popped, Refused, {}))
          else Aborted(CloseAndLeave(g, r, popped, CallFailed(r, flight.position)))
  }

  /** `sorted(result_pairs, key=...)`: stable insertion by job index. */
  function Insert(e: (int, Value), s: seq<(int, Value)>): (r: seq<(int, Value)>)
    ensures multiset(r) == multiset(s) + multiset{e}
  {
    if s == [] || s[0].0 > e.0 then [e] + s
    else
      assert s == [s[0]] + s[1..];
      [s[0]] + Insert(e, s[1..])
  }

  function SortPairs(s: seq<(int, Value)>): (r: seq<(int, Value)>)
    ensures multiset(r) == multiset(s)
  {
    if s == [] then []
    else
      assert s == s[..|s| - 1] + [s[|s| - 1]];
      Insert(s[|s| - 1], SortPairs(s[..|s| - 1]))
  }

  function Pair(run: Run, e: Entry): (int, Value) {
    (if e.position < |run.jobs| then run.jobs[e.position].index else 0, e.value)
  }

  function Result(run: Run): seq<(int, Value)> {
    SortPairs(Image((e: Entry) => Pair(run, e), run.results))
  }

  /** The loop test after a turn: go on, or return the sorted results. */
  function Continue(f: Fleet, r: RunId, run: Run, calls: nat -> Call): Section {
    if run.flights != map[] || run.pending != [] then LoopHead(f, r, run, calls)
    else if !f.Open() then Leave(f, r, run, Refused, {})
    else Leave(f, r, run, Returned(Result(run)), {})
  }

  /** `asyncio.wait` returned with something done; `order` is the order of the done set. */
  function Resume(f: Fleet, r: RunId, run: Run, order: seq<Ref>, calls: nat -> Call): Section
    requires forall ref :: ref in order ==> ref in run.flights && ref in run.deliveries
    requires NoDup(order)
  {
    if run.task == Crashed then Leave(f, r, run, Refused, {})
    else
      var run' := if run.task == Done then run.(task := NoTask) else run;
      match Observe(f, r, run', order)
      case Observed(g, run'') => Continue(g, r, run'', calls)
      case Aborted(section) => section
  }

  /** `asyncio.wait` timed out with nothing done. */
  function Expire(f: Fleet, r: RunId, run: Run): Section {
    if f.Open() then CloseAndLeave(f, r, run, TimedOut(r)) else Leave(f, r, run, Refused, {})
  }

  // ---- Cancellation -------------------------------------------------------------------

  /** The handler's sweep over settled calls; `failed` is the first failed position. */
  datatype Sweep = Swept(fleet: Fleet, run: Run, failed: Option<nat>) | SweepBroke(section: Section)

  function SweepArrived(f: Fleet, r: RunId, run: Run, order: seq<Ref>, failed: Option<nat>): Sweep
    requires forall ref :: ref in order ==> ref in run.flights && ref in run.deliveries
    requires NoDup(order)
    decreases |order|
  {
    if order == [] then Swept(f, run, failed)
    else
      var ref := order[0];
      var flight, popped := run.flights[ref], Pop(run, ref);
      if ReleasesTwice(f, flight.worker) then
        SweepBroke(Leave(f.(active := f.active - {ref}), r, popped, Broken(SlotReleasedTwice), {}))
      else
        var g := Finish(f, ref, flight.worker);
        match run.deliveries[ref]
        case Succeeded(value) => SweepArrived(g, r, Record(popped, Entry(flight.position, value)), order[1..], failed)
        case Errored =>
          SweepArrived(g, r, popped, order[1..], if failed.None? then Some(flight.position) else failed)
  }

  /** The handler's decision after the sweep. */
  function Verdict(f: Fleet, r: RunId, run: Run, failed: Option<nat>): Section {
    if !f.Open() then Leave(f, r, run, Cancelled, {})
    else if failed.Some? then
      Leave(Close(f, CallFailed(r, failed.value)), r, run, Cancelled, Doomed(f))
    else if run.submitted != [] && (run.flights != map[] || run.pending != []) then
      Leave(Close(f, Abandoned(r)), r, run, Cancelled, Doomed(f))
    else if !(run.pending == [] && run.flights == map[]
              && |run.results| == |run.submitted| == |run.jobs|) then
      Leave(f, r, run, Cancelled, {})   // the bare `raise`
    else Leave(f, r, run, Returned(Result(run)), {})
  }

  /** The rest of the `except CancelledError` handler, after the settled calls were awaited. */
  function Resolve(f: Fleet, r: RunId, run: Run, order: seq<Ref>): Section
    requires forall ref :: ref in order ==> ref in run.flights && ref in run.deliveries
    requires NoDup(order)
  {
    match SweepArrived(f, r, run, order, None)
    case SweepBroke(section) => section
    case Swept(g, run', failed) => Verdict(g, r, run', failed)
  }

  /** Cancellation delivered at `asyncio.wait`; `finished` are the calls Ray reports finished. */
  function Interrupt(f: Fleet, r: RunId, run: Run, finished: set<Ref>, order: seq<Ref>): Section
    requires forall ref :: ref in order ==> ref in run.flights && ref in run.deliveries
    requires NoDup(order)
  {
    var settled := set ref | ref in run.flights && ref !in run.deliveries && ref in finished;
    if settled != {} then Section(f, run.(phase := Settling(settled)), {})
    else Resolve(f, r, run, order)
  }

  // ---- The admission task -------------------------------------------------------------

  /** `_wait_for_available` from a wake-up to its next await, return or raise. */
  function Wake(f: Fleet, r: RunId, run: Run): Section {
    if !f.Open() then Section(Withdraw(f, r), run.(task := Crashed), {})
    else if f.Wants(r) == [] || f.CanAcquire(r, f.Wants(r)) then Section(f, run.(task := Done), {})
    else Section(FallAsleep(f, r), run, {})
  }
}

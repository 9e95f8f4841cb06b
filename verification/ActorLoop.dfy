/** The event loop's own order, and what it adds to the results about cancellation.

    Callbacks run first in, first out. Setting the event schedules the sleeping admission tasks, and
    `spawn` schedules the wrappers of new calls after that; a wrapper that finds no answer yet is
    scheduled again when Ray delivers one. So when all calls of a run have answered, an admission task
    with nothing left to wait for has already ended, the clean-up of a completed run never suspends,
    and no later cancellation can take its result away.

    Only these two kinds of turn are held to the queue. Every other stretch may run at any time, which
    is more than asyncio allows.
 */
module ActorLoop {
  import opened Sequences
  import opened ActorFleet
  import opened ActorRuns
  import opened ActorProofs
  import opened ActorSections
  import opened ActorCompletion
  import opened ActorWorld
  import opened ActorTheorems
  import opened ActorPrompt

  // ---- The ready queue ----------------------------------------------------------------------

  /** A turn of a run's admission task, or of the wrapper task around one of its calls. */
  datatype Turn = TaskTurn(r: RunId) | CallTurn(r: RunId, position: nat)

  datatype Loop = Loop(world: World, ready: seq<Turn>)

  /** What happens next: a step, the turn at the head finding nothing to do, or Ray's answer waking
      the wrapper of a call. `early` and `late` are the admission tasks the step schedules before and
      after `spawn`, `calls` the jobs whose calls it spawns. */
  datatype Tick =
    | Runs(step: Step, early: seq<RunId>, calls: seq<nat>, late: seq<RunId>)
    | Skip
    | Settle(r: RunId, position: nat)

  predicate OffTheQueue(step: Step) { step.WakeTask? || step.Deliver? }

  /** The step is what this turn does. */
  predicate TurnDoes(w: World, turn: Turn, step: Step) {
    match turn
    case TaskTurn(r) => step.WakeTask? && step.r == r
    case CallTurn(r, p) =>
      step.Deliver? && step.r == r && r in w.runs && step.ref in w.runs[r].flights
          && w.runs[r].flights[step.ref].position == p
  }

  function PassFleet(f: Fleet, r: RunId, run: Run, calls: nat -> Call): Fleet {
    match SubmitPass(f, r, run, calls, [], run.pending)
    case Passed(g, _) => g
    case Stopped(s) => s.fleet
  }

  /** The fleet when a resumed run spawns its new calls. */
  function ResumedFleet(f: Fleet, r: RunId, run: Run, order: seq<Ref>, calls: nat -> Call): Fleet
    requires Delivered(run, order)
  {
    if run.task == Crashed then f
    else
      match Observe(f, r, if run.task == Done then run.(task := NoTask) else run, order)
      case Observed(g, run') => PassFleet(g, r, run', calls)
      case Aborted(s) => s.fleet
  }

  /** The fleet when the step spawns its new calls. */
  function SpawnFleet(w: World, step: Step): Fleet
    requires Enabled(w, step)
  {
    match step
    case Start(r, request, calls) =>
      (match Admit(w.fleet, request)
       case Admitted(run) => PassFleet(w.fleet, r, run, calls)
       case Immediate(_) => w.fleet)
    case ResumeWait(r, order, calls) => ResumedFleet(w.fleet, r, w.runs[r], order, calls)
    case _ => w.fleet
  }

  predicate TaskLive(w: World, r: RunId) { AliveIn(w.runs, r) && w.runs[r].task == Live }

  function Created(w: World, w': World, r: RunId): set<RunId> {
    if TaskLive(w', r) && !TaskLive(w, r) then {r} else {}
  }

  function Spawned(w: World, w': World, r: RunId): set<nat> {
    if AliveIn(w'.runs, r) then
      set p | p in w'.runs[r].submitted && !(r in w.runs && p in w.runs[r].submitted)
    else {}
  }

  predicate TickOk(l: Loop, tick: Tick) {
    match tick
    case Runs(step, early, calls, late) =>
      && Enabled(l.world, step)
      && (OffTheQueue(step) ==> l.ready != [] && TurnDoes(l.world, l.ready[0], step))
      && var w, w', spawn := l.world, Apply(l.world, step), SpawnFleet(l.world, step);
      && Enumerates(early, w.fleet.asleep - spawn.asleep)
      && Enumerates(calls, Spawned(w, w', step.r))
      && Enumerates(late, (w.fleet.asleep * spawn.asleep) - w'.fleet.asleep + Created(w, w', step.r))
    case Skip => l.ready != [] && (l.ready[0].TaskTurn? ==> !Enabled(l.world, WakeTask(l.ready[0].r)))
    case Settle(r, p) => r in l.world.runs && p in l.world.runs[r].submitted
  }

  function Tasks(order: seq<RunId>): seq<Turn> { Image((r: RunId) => TaskTurn(r), order) }

  function Calls(r: RunId, order: seq<nat>): seq<Turn> { Image((p: nat) => CallTurn(r, p), order) }

  function Advance(l: Loop, tick: Tick): Loop
    requires TickOk(l, tick)
  {
    match tick
    case Runs(step, early, calls, late) =>
      Loop(Apply(l.world, step),
           (if OffTheQueue(step) then l.ready[1..] else l.ready) + Tasks(early) + Calls(step.r, calls) + Tasks(late))
    case Skip => Loop(l.world, l.ready[1..])
    case Settle(r, p) => Loop(l.world, l.ready + [CallTurn(r, p)])
  }

  ghost predicate Ticking(l: Loop, ticks: seq<Tick>)
    decreases |ticks|
  {
    ticks == [] || (TickOk(l, ticks[0]) && Ticking(Advance(l, ticks[0]), ticks[1..]))
  }

  ghost function Ticked(l: Loop, ticks: seq<Tick>): Loop
    requires Ticking(l, ticks)
    decreases |ticks|
  {
    if ticks == [] then l else Ticked(Advance(l, ticks[0]), ticks[1..])
  }

  function Begin(workers: seq<WorkerId>): Loop { Loop(Initial(workers), []) }

  lemma {:induction false} SomeOrder(s: set<nat>) returns (order: seq<nat>)
    ensures Enumerates(order, s)
    decreases s
  {
    if s == {} {
      order := [];
    } else {
      var x :| x in s;
      var rest := SomeOrder(s - {x});
      order := [x] + rest;
    }
  }

  /** The order refuses no stretch of a run: whatever could run next still can. */
  lemma StretchRuns(l: Loop, step: Step) returns (tick: Tick)
    requires Enabled(l.world, step) && !OffTheQueue(step)
    ensures tick.Runs? && tick.step == step && TickOk(l, tick)
  {
    var w, w', spawn := l.world, Apply(l.world, step), SpawnFleet(l.world, step);
    var early := SomeOrder(w.fleet.asleep - spawn.asleep);
    var calls := SomeOrder(Spawned(w, w', step.r));
    var late := SomeOrder((w.fleet.asleep * spawn.asleep) - w'.fleet.asleep + Created(w, w', step.r));
    tick := Runs(step, early, calls, late);
  }

  // ---- First in, first out ------------------------------------------------------------------

  /** `a` stands in the queue and no `b` stands before it. */
  predicate Before(ready: seq<Turn>, a: Turn, b: Turn) {
    ready != [] && (ready[0] == a || (ready[0] != b && Before(ready[1..], a, b)))
  }

  lemma {:induction false} BeforeAppend(ready: seq<Turn>, more: seq<Turn>, a: Turn, b: Turn)
    requires Before(ready, a, b)
    ensures Before(ready + more, a, b)
  {
    if ready[0] != a {
      BeforeAppend(ready[1..], more, a, b);
      assert (ready + more)[1..] == ready[1..] + more;
    }
  }

  lemma {:induction false} BeforeFirst(ready: seq<Turn>, a: Turn, b: Turn)
    requires a in ready && b !in ready
    ensures Before(ready, a, b)
  {
    if ready[0] != a {
      BeforeFirst(ready[1..], a, b);
    }
  }

  lemma InTasks(order: seq<RunId>, t: Turn)
    ensures t in Tasks(order) <==> t.TaskTurn? && t.r in order
  {
    if t.TaskTurn? && t.r in order {
      assert Tasks(order)[IndexOf(order, t.r)] == t;
    }
  }

  lemma InCalls(r: RunId, order: seq<nat>, t: Turn)
    ensures t in Calls(r, order) <==> t.CallTurn? && t.r == r && t.position in order
  {
    if t.CallTurn? && t.r == r && t.position in order {
      assert Calls(r, order)[IndexOf(order, t.position)] == t;
    }
  }

  // ---- The invariant of the queue -----------------------------------------------------------

  ghost predicate InAir(run: Run, ref: Ref) { ref in run.flights && ref !in run.deliveries }

  /** Some call still in the air gets its turn only after the admission task has had its own. */
  ghost predicate Owed(ready: seq<Turn>, r: RunId, run: Run) {
    exists ref :: InAir(run, ref) && Before(ready, TaskTurn(r), CallTurn(r, run.flights[ref].position))
  }

  /** What the queue owes one run. */
  ghost predicate QueueOk(ready: seq<Turn>, asleep: set<RunId>, r: RunId, run: Run) {
    run.Alive() ==>
      && (run.task == Live && r !in asleep ==> TaskTurn(r) in ready)
      && (forall p :: CallTurn(r, p) in ready ==> p in run.submitted)
      && (run.task == Live && run.pending == [] ==> Owed(ready, r, run))
  }

  ghost predicate LoopOk(l: Loop) {
    && Inv(l.world)
    && (forall r, p :: CallTurn(r, p) in l.ready ==> r in l.world.runs)
    && (forall r :: r in l.world.runs ==> QueueOk(l.ready, l.world.fleet.asleep, r, l.world.runs[r]))
  }

  /** More turns at the back, none of them a call of `r`, hurt nobody. */
  lemma QueueGrows(ready: seq<Turn>, more: seq<Turn>, asleep: set<RunId>, asleep': set<RunId>, r: RunId, run: Run)
    requires QueueOk(ready, asleep, r, run)
    requires forall p :: CallTurn(r, p) in more ==> p in run.submitted
    requires r in asleep && r !in asleep' ==> TaskTurn(r) in more
    ensures QueueOk(ready + more, asleep', r, run)
  {
    if run.Alive() && run.task == Live && run.pending == [] {
      var ref :| InAir(run, ref) && Before(ready, TaskTurn(r), CallTurn(r, run.flights[ref].position));
      BeforeAppend(ready, more, TaskTurn(r), CallTurn(r, run.flights[ref].position));
    }
  }

  /** The turn at the head of the queue is somebody else's. */
  lemma QueueShrinks(ready: seq<Turn>, asleep: set<RunId>, r: RunId, run: Run)
    requires ready != [] && QueueOk(ready, asleep, r, run) && ready[0] != TaskTurn(r)
    ensures QueueOk(ready[1..], asleep, r, run)
  {
    assert forall t :: t in ready ==> t == ready[0] || t in ready[1..];
  }

  // ---- What a submission pass schedules -----------------------------------------------------

  lemma FlewForfeits(f: Fleet, r: RunId, run: Run, call: Call, p: nat, rest: seq<nat>)
    ensures match TryJob(f, r, run, call, p, rest)
            case NoSlot => true
            case Ended(s) => !s.run.Alive()
            case Flew(h, run') => h.Wants(r) == [] && run'.submitted == run.submitted + [p]
  {
    var choice := Pick(f, r, run.Candidates(p));
    if choice.Some? {
      assert Take(f, r, choice.value).Wants(r) == [];
      hide Pick, Take;
      LaunchForfeits(Take(f, r, choice.value), r, run, call, p, choice.value, rest);
      hide Launch;
    }
  }

  lemma LaunchForfeits(g: Fleet, r: RunId, run: Run, call: Call, p: nat, w: WorkerId, rest: seq<nat>)
    ensures match Launch(g, r, run, call, p, w, rest)
            case NoSlot => false
            case Ended(s) => !s.run.Alive()
            case Flew(h, run') => h.Wants(r) == g.Wants(r) && run'.submitted == run.submitted + [p]
  {
    hide Close, Release, Withdraw, Rouse;
  }

  /** A pass that submits forfeits the run's places, and afterwards it wants nothing until it queues
      up again; a pass that does not submit leaves everything pending. */
  lemma {:induction false} PassForfeits(f: Fleet, r: RunId, run: Run, calls: nat -> Call, kept: seq<nat>,
      todo: seq<nat>)
    ensures match SubmitPass(f, r, run, calls, kept, todo)
            case Passed(g, run') =>
              && run.submitted <= run'.submitted
              && (f.Wants(r) == [] || run'.submitted != run.submitted ==> g.Wants(r) == [])
              && (run'.submitted == run.submitted ==> run'.pending == kept + todo)
            case Stopped(s) => !s.run.Alive()
    decreases todo
  {
    if todo != [] {
      var p, rest := todo[0], todo[1..];
      FlewForfeits(f, r, run, calls(p), p, rest + kept);
      hide TryJob;
      match TryJob(f, r, run, calls(p), p, rest + kept) {
        case NoSlot =>
          assert kept + [p] + rest == kept + todo;
          PassForfeits(f, r, run, calls, kept + [p], rest);
        case Ended(_) =>
        case Flew(h, run') =>
          if h.available != {} {
            PassForfeits(h, r, run', calls, kept, rest);
          }
      }
    }
  }

  /** A pass leaves the calls already in the air as they are. */
  lemma {:induction false} PassKeepsFlights(f: Fleet, r: RunId, run: Run, calls: nat -> Call, kept: seq<nat>,
      todo: seq<nat>)
    requires run.flights.Keys <= f.active.Keys
    ensures match SubmitPass(f, r, run, calls, kept, todo)
            case Passed(_, run') => forall ref :: ref in run.flights ==>
                ref in run'.flights && run'.flights[ref] == run.flights[ref]
            case Stopped(_) => true
    decreases todo
  {
    if todo != [] {
      var p, rest := todo[0], todo[1..];
      match TryJob(f, r, run, calls(p), p, rest + kept) {
        case NoSlot => PassKeepsFlights(f, r, run, calls, kept + [p], rest);
        case Ended(_) =>
        case Flew(h, run') =>
          if h.available != {} {
            PassKeepsFlights(h, r, run', calls, kept, rest);
          }
      }
    }
  }

  /** The last job of the run has just been submitted: its call is new and in the air. */
  ghost predicate JustSubmitted(run: Run, run': Run) {
    exists ref :: InAir(run', ref) && run'.flights[ref].position in run'.submitted
                  && run'.flights[ref].position !in run.submitted
  }

  lemma PassSubmits(f: Fleet, r: RunId, run: Run, g: Fleet, run': Run)
    requires Working(f, run, run.pending) && run.pending != [] && run'.pending == []
    requires PassOk(f, r, run, Passed(g, run'))
    requires forall ref :: ref in run.flights ==> ref in run'.flights && run'.flights[ref] == run.flights[ref]
    ensures JustSubmitted(run, run')
  {
    var p := run.pending[0];
    assert p in run.pending && p !in run.submitted && p in run'.submitted;
    assert !HasResult(run, p) && !HasResult(run', p);
    assert InFlight(run', p);
    var ref :| ref in run'.flights && run'.flights[ref].position == p;
    assert ref !in run.flights;
    assert InAir(run', ref);
  }

  /** What a turn of the main loop that ends with everything submitted leaves behind. */
  lemma HeadSchedules(f: Fleet, r: RunId, run: Run, calls: nat -> Call)
    requires MidTurn(f, r, run) && (run.flights != map[] || run.pending != [])
    requires LoopHead(f, r, run, calls).run.Alive()
    ensures var run', g := LoopHead(f, r, run, calls).run, PassFleet(f, r, run, calls);
            && run.submitted <= run'.submitted
            && (run'.task == Live && run'.pending == [] ==>
                  && run.task == Live
                  && (run.pending == [] ==> run'.flights == run.flights && run'.deliveries == run.deliveries)
                  && (run.pending != [] ==> r !in g.asleep && JustSubmitted(run, run')))
  {
    if run.pending != [] {
      hide LoopHead, MidTurn, JustSubmitted, SubmitPass;
      HeadSubmits(f, r, run, calls);
    } else {
      hide MidTurn;
      assert run.(pending := []) == run;
      ParkIdle(f, r, run);
    }
  }

  /** With nothing pending a turn only goes back to waiting. */
  lemma ParkIdle(f: Fleet, r: RunId, run: Run)
    requires run.pending == []
    ensures var parked := Park(f, r, run).run;
            && parked.submitted == run.submitted && parked.flights == run.flights && parked.deliveries == run.deliveries
            && (parked.Alive() && parked.task == Live ==> run.task == Live)
  {
  }

  lemma HeadSubmits(f: Fleet, r: RunId, run: Run, calls: nat -> Call)
    requires MidTurn(f, r, run) && run.pending != []
    requires LoopHead(f, r, run, calls).run.Alive()
    ensures var run', g := LoopHead(f, r, run, calls).run, PassFleet(f, r, run, calls);
            && run.submitted <= run'.submitted
            && (run'.pending == [] && run'.task == Live ==>
                  run.task == Live && r !in g.asleep && JustSubmitted(run, run'))
  {
    PassForfeits(f, r, run, calls, [], run.pending);
    assert [] + run.pending == run.pending;
    if f.Open() {
      hide MidTurn, JustSubmitted, Park, SubmitPass;
      PassLast(f, r, run, calls);
      match SubmitPass(f, r, run, calls, [], run.pending) {
        case Passed(g, run') => ParkKeeps(g, r, run, run');
        case Stopped(s) =>
      }
    }
  }

  lemma ParkKeeps(g: Fleet, r: RunId, run: Run, run': Run)
    ensures var parked := Park(g, r, run').run;
            && parked.submitted == run'.submitted && parked.pending == run'.pending
            && (JustSubmitted(run, run') ==> JustSubmitted(run, parked))
            && (parked.Alive() && parked.task == Live && run'.pending == [] ==> run'.task == Live)
  {
    var parked := Park(g, r, run').run;
    assert forall ref :: InAir(run', ref) ==> InAir(parked, ref);
  }

  lemma PassLast(f: Fleet, r: RunId, run: Run, calls: nat -> Call)
    requires MidTurn(f, r, run) && run.pending != [] && f.Open()
    ensures var pass := SubmitPass(f, r, run, calls, [], run.pending);
            pass.Passed? ==>
              && pass.run.task == run.task
              && (pass.run.pending == [] ==> r !in pass.fleet.asleep && JustSubmitted(run, pass.run))
  {
    assert [] + run.pending == run.pending;
    hide FleetOk, JobsOk, Ledger, OthersKeep, SameRest, Grows;
    SubmitPassOk(f, r, run, calls, [], run.pending);
    PassForfeits(f, r, run, calls, [], run.pending);
    PassKeepsFlights(f, r, run, calls, [], run.pending);
    match SubmitPass(f, r, run, calls, [], run.pending) {
      case Passed(g, run') =>
        hide SubmitPass;
        if run'.pending == [] {
          PassSubmits(f, r, run, g, run');
          AwakeAfterPass(g, r, run');
        }
      case Stopped(_) =>
    }
  }

  lemma AwakeAfterPass(g: Fleet, r: RunId, run: Run)
    requires Working(g, run, run.pending) && g.Wants(r) == []
    ensures r !in g.asleep
  {
  }

  // ---- Every tick ---------------------------------------------------------------------------

  /** A run with everything submitted wants nothing, so its admission task does not sleep. */
  lemma NothingLeft(w: World, r: RunId)
    requires Inv(w) && AliveIn(w.runs, r) && w.runs[r].pending == []
    ensures w.fleet.Wants(r) == [] && r !in w.fleet.asleep
  {
    LivingRun(w, r);
  }

  lemma SkipKeeps(l: Loop)
    requires LoopOk(l) && TickOk(l, Skip)
    ensures LoopOk(Advance(l, Skip))
  {
    var w := l.world;
    forall r | r in w.runs ensures QueueOk(l.ready[1..], w.fleet.asleep, r, w.runs[r]) {
      if l.ready[0] == TaskTurn(r) {
        if w.runs[r].Alive() && w.runs[r].pending == [] {
          NothingLeft(w, r);
        }
      } else {
        QueueShrinks(l.ready, w.fleet.asleep, r, w.runs[r]);
      }
    }
  }

  lemma SettleKeeps(l: Loop, r: RunId, p: nat)
    requires LoopOk(l) && TickOk(l, Settle(r, p))
    ensures LoopOk(Advance(l, Settle(r, p)))
  {
    hide Inv;
    var w := l.world;
    forall q | q in w.runs ensures QueueOk(l.ready + [CallTurn(r, p)], w.fleet.asleep, q, w.runs[q]) {
      QueueGrows(l.ready, [CallTurn(r, p)], w.fleet.asleep, w.fleet.asleep, q, w.runs[q]);
    }
  }

  function Rest(l: Loop, step: Step): seq<Turn>
    requires OffTheQueue(step) ==> l.ready != []
  {
    if OffTheQueue(step) then l.ready[1..] else l.ready
  }

  function More(tick: Tick): seq<Turn>
    requires tick.Runs?
  {
    Tasks(tick.early) + Calls(tick.step.r, tick.calls) + Tasks(tick.late)
  }

  lemma InMore(tick: Tick, t: Turn)
    requires tick.Runs?
    ensures t in More(tick) <==>
              match t
              case TaskTurn(r) => r in tick.early || r in tick.late
              case CallTurn(r, p) => r == tick.step.r && p in tick.calls
  {
    InTasks(tick.early, t);
    InTasks(tick.late, t);
    InCalls(tick.step.r, tick.calls, t);
  }

  /** Whoever a step wakes gets a turn. */
  lemma WokenScheduled(l: Loop, tick: Tick, q: RunId)
    requires tick.Runs? && TickOk(l, tick)
    requires q in l.world.fleet.asleep && q !in Apply(l.world, tick.step).fleet.asleep
    ensures TaskTurn(q) in More(tick)
  {
    InMore(tick, TaskTurn(q));
    hide Apply, SpawnFleet, Enabled;
  }

  lemma OthersQueue(l: Loop, tick: Tick, q: RunId)
    requires LoopOk(l) && tick.Runs? && TickOk(l, tick) && q in l.world.runs && q != tick.step.r
    ensures QueueOk(Rest(l, tick.step) + More(tick), Apply(l.world, tick.step).fleet.asleep, q, l.world.runs[q])
  {
    var w, step := l.world, tick.step;
    hide Inv, Apply, SpawnFleet, Enabled;
    if OffTheQueue(step) {
      QueueShrinks(l.ready, w.fleet.asleep, q, w.runs[q]);
    }
    forall p ensures CallTurn(q, p) !in More(tick) {
      InMore(tick, CallTurn(q, p));
    }
    if q in w.fleet.asleep && q !in Apply(w, step).fleet.asleep {
      WokenScheduled(l, tick, q);
    }
    hide QueueOk;
    QueueGrows(Rest(l, step), More(tick), w.fleet.asleep, Apply(w, step).fleet.asleep, q, w.runs[q]);
  }

  // ---- The run that moves -------------------------------------------------------------------

  /** A stretch that leaves everything but the phase alone, and the calls in the air. */
  lemma SameQueue(ready: seq<Turn>, asleep: set<RunId>, r: RunId, run: Run, run': Run)
    requires QueueOk(ready, asleep, r, run) && run.Alive() && run' == run.(phase := run'.phase)
    ensures QueueOk(ready, asleep, r, run')
  {
    assert forall ref :: InAir(run, ref) <==> InAir(run', ref);
  }

  lemma WakeQueue(l: Loop, tick: Tick)
    requires LoopOk(l) && tick.Runs? && TickOk(l, tick) && tick.step.WakeTask?
    ensures var w', r := Apply(l.world, tick.step), tick.step.r;
            QueueOk(Rest(l, tick.step) + More(tick), w'.fleet.asleep, r, w'.runs[r])
  {
    var w, r := l.world, tick.step.r;
    var w' := Apply(w, tick.step);
    if w.runs[r].pending == [] {
      NothingLeft(w, r);
    }
    assert w'.runs[r].task == Live ==> r in w'.fleet.asleep && w'.runs[r].pending != [];
    forall p | CallTurn(r, p) in Rest(l, tick.step) + More(tick) ensures p in w'.runs[r].submitted {
      InMore(tick, CallTurn(r, p));
    }
  }

  lemma DeliverQueue(l: Loop, tick: Tick)
    requires LoopOk(l) && tick.Runs? && TickOk(l, tick) && tick.step.Deliver?
    ensures var w', r := Apply(l.world, tick.step), tick.step.r;
            QueueOk(Rest(l, tick.step) + More(tick), w'.fleet.asleep, r, w'.runs[r])
  {
    var w, r := l.world, tick.step.r;
    var w', run := Apply(w, tick.step), w.runs[r];
    QueueShrinks(l.ready, w.fleet.asleep, r, run);
    forall p ensures CallTurn(r, p) !in More(tick) {
      InMore(tick, CallTurn(r, p));
    }
    hide Inv;
    if run.task == Live && run.pending == [] {
      var ref :| InAir(run, ref) && Before(l.ready, TaskTurn(r), CallTurn(r, run.flights[ref].position));
      assert Before(Rest(l, tick.step), TaskTurn(r), CallTurn(r, run.flights[ref].position));
      assert InAir(w'.runs[r], ref);
      assert Owed(Rest(l, tick.step), r, w'.runs[r]);
    }
    QueueGrows(Rest(l, tick.step), More(tick), w.fleet.asleep, w'.fleet.asleep, r, w'.runs[r]);
  }

  /** A task that is live and awake after a stretch of its own run has a turn coming. */
  lemma OwnScheduled(l: Loop, tick: Tick)
    requires LoopOk(l) && tick.Runs? && TickOk(l, tick) && !OffTheQueue(tick.step)
    requires TaskLive(Apply(l.world, tick.step), tick.step.r)
    ensures tick.step.r !in Apply(l.world, tick.step).fleet.asleep ==> TaskTurn(tick.step.r) in l.ready + More(tick)
  {
    InMore(tick, TaskTurn(tick.step.r));
    hide Inv, Apply, SpawnFleet, Enabled, Owed;
    if TaskLive(l.world, tick.step.r) && tick.step.r in l.world.fleet.asleep {
      if tick.step.r !in Apply(l.world, tick.step).fleet.asleep {
        WokenScheduled(l, tick, tick.step.r);
      }
    }
  }

  /** Only submitted jobs have call turns. */
  lemma OwnCalls(l: Loop, tick: Tick)
    requires LoopOk(l) && tick.Runs? && TickOk(l, tick) && !OffTheQueue(tick.step)
    requires AliveIn(Apply(l.world, tick.step).runs, tick.step.r)
    requires AliveIn(l.world.runs, tick.step.r) ==>
               l.world.runs[tick.step.r].submitted <= Apply(l.world, tick.step).runs[tick.step.r].submitted
    requires tick.step.r in l.world.runs ==> l.world.runs[tick.step.r].Alive()
    ensures forall p :: CallTurn(tick.step.r, p) in l.ready + More(tick) ==>
              p in Apply(l.world, tick.step).runs[tick.step.r].submitted
  {
    var r := tick.step.r;
    var run' := Apply(l.world, tick.step).runs[r];
    hide Inv, Apply, SpawnFleet, Enabled, Owed;
    forall p | CallTurn(r, p) in l.ready + More(tick) ensures p in run'.submitted {
      InMore(tick, CallTurn(r, p));
    }
  }

  /** The call of the last job comes after the turn of the task that has nothing left to wait for. */
  lemma NewCallOwed(ready: seq<Turn>, early: seq<Turn>, rest: seq<Turn>, r: RunId, run: Run, run': Run)
    requires JustSubmitted(run, run') && TaskTurn(r) in ready + early
    requires forall p :: CallTurn(r, p) in ready ==> p in run.submitted
    requires forall p :: CallTurn(r, p) !in early
    ensures Owed(ready + (early + rest), r, run')
  {
    var ref :| InAir(run', ref) && run'.flights[ref].position in run'.submitted
        && run'.flights[ref].position !in run.submitted;
    var call := CallTurn(r, run'.flights[ref].position);
    BeforeFirst(ready + early, TaskTurn(r), call);
    BeforeAppend(ready + early, rest, TaskTurn(r), call);
    assert ready + early + rest == ready + (early + rest);
  }

  lemma StartQueue(l: Loop, tick: Tick)
    requires LoopOk(l) && tick.Runs? && TickOk(l, tick) && tick.step.Start?
    ensures var w', r := Apply(l.world, tick.step), tick.step.r;
            QueueOk(l.ready + More(tick), w'.fleet.asleep, r, w'.runs[r])
  {
    var w, r := l.world, tick.step.r;
    var w' := Apply(w, tick.step);
    if AliveIn(w'.runs, r) {
      assert !AliveIn(w.runs, r);
      AdmittedOk(w.fleet, r, tick.step.request);
      HeadSchedules(w.fleet, r, Admit(w.fleet, tick.step.request).run, tick.step.calls);
      assert Admit(w.fleet, tick.step.request).run.task == NoTask;
      hide Inv, LoopHead, PassFleet, SpawnFleet, MidTurn, Owed;
      OwnCalls(l, tick);
      if w'.runs[r].task == Live {
        OwnScheduled(l, tick);
      }
    }
  }

  /** What working through the done set leaves of the run. */
  lemma {:induction false} ObserveKeeps(f: Fleet, r: RunId, run: Run, order: seq<Ref>)
    requires Delivered(run, order)
    ensures match Observe(f, r, run, order)
            case Observed(_, run') =>
              && run'.submitted == run.submitted && run'.pending == run.pending && run'.task == run.task
              && (forall ref :: InAir(run', ref) <==> InAir(run, ref))
              && (forall ref :: InAir(run, ref) ==> run'.flights[ref] == run.flights[ref])
            case Aborted(s) => !s.run.Alive()
    decreases |order|
  {
    if order != [] && run.deliveries[order[0]].Succeeded? {
      var flight := run.flights[order[0]];
      var run' := Record(Pop(run, order[0]), Entry(flight.position, run.deliveries[order[0]].value));
      DeliveredRest(run, order, run');
      ObserveKeeps(Finish(f, order[0], flight.worker), r, run', order[1..]);
    }
  }

  /** What a resumed wait that goes on leaves of the run, and what it schedules. */
  lemma ResumeSchedules(f: Fleet, r: RunId, run: Run, order: seq<Ref>, calls: nat -> Call)
    requires AtRest(f, r, run) && Delivered(run, order) && Resume(f, r, run, order, calls).run.Alive()
    ensures var run', g := Resume(f, r, run, order, calls).run, ResumedFleet(f, r, run, order, calls);
            && run.submitted <= run'.submitted
            && (run'.task == Live && run'.pending == [] ==>
                  && run.task == Live
                  && (run.pending == [] ==> forall ref :: InAir(run, ref) ==>
                        InAir(run', ref) && run'.flights[ref] == run.flights[ref])
                  && (run.pending != [] ==> r !in g.asleep && JustSubmitted(run, run')))
  {
    var run1 := if run.task == Done then run.(task := NoTask) else run;
    ObserveKeeps(f, r, run1, order);
    ObservedOn(f, r, run, order, calls);
    hide AtRest, Resume, ResumedFleet, LoopHead, PassFleet, JustSubmitted;
    match Observe(f, r, run1, order) {
      case Observed(g, run2) =>
        hide Observe;
        HeadSchedules(g, r, run2, calls);
        if JustSubmitted(run2, LoopHead(g, r, run2, calls).run) {
          SameJustSubmitted(run2, run, LoopHead(g, r, run2, calls).run);
        }
      case Aborted(_) =>
    }
  }

  /** A resumed wait that goes on takes one more turn of the main loop. */
  lemma ObservedOn(f: Fleet, r: RunId, run: Run, order: seq<Ref>, calls: nat -> Call)
    requires AtRest(f, r, run) && Delivered(run, order) && Resume(f, r, run, order, calls).run.Alive()
    ensures var o := Observe(f, r, if run.task == Done then run.(task := NoTask) else run, order);
            && o.Observed? && MidTurn(o.fleet, r, o.run) && (o.run.flights != map[] || o.run.pending != [])
            && Resume(f, r, run, order, calls) == LoopHead(o.fleet, r, o.run, calls)
            && ResumedFleet(f, r, run, order, calls) == PassFleet(o.fleet, r, o.run, calls)
  {
    var run1 := if run.task == Done then run.(task := NoTask) else run;
    KeepLedger(run, run1);
    assert MidTurn(f, r, run1) && Delivered(run1, order);
    hide AtRest, Ledger, JobsOk, FleetOk;
    ObserveKeeps(f, r, run1, order);
    ObserveOk(f, r, run1, order);
    hide MidTurn, CameDown, Departed, Delivered, Observe, LoopHead, PassFleet;
    match Observe(f, r, run1, order) {
      case Observed(g, run2) => ContinueAlive(g, r, run2, calls);
      case Aborted(_) =>
    }
  }

  lemma ContinueAlive(f: Fleet, r: RunId, run: Run, calls: nat -> Call)
    ensures Continue(f, r, run, calls).run.Alive() ==>
              (run.flights != map[] || run.pending != []) && Continue(f, r, run, calls) == LoopHead(f, r, run, calls)
  {
  }

  lemma SameJustSubmitted(run: Run, other: Run, run': Run)
    requires JustSubmitted(run, run') && other.submitted == run.submitted
    ensures JustSubmitted(other, run')
  {
  }

  lemma ResumeQueue(l: Loop, tick: Tick)
    requires LoopOk(l) && tick.Runs? && TickOk(l, tick) && tick.step.ResumeWait?
    ensures var w', r := Apply(l.world, tick.step), tick.step.r;
            QueueOk(l.ready + More(tick), w'.fleet.asleep, r, w'.runs[r])
  {
    var w, r := l.world, tick.step.r;
    var w', run := Apply(w, tick.step), w.runs[r];
    if AliveIn(w'.runs, r) {
      LivingRun(w, r);
      ResumeSchedules(w.fleet, r, run, tick.step.order, tick.step.calls);
      hide Inv, Resume, ResumedFleet, AtRest, Owed, JustSubmitted;
      OwnCalls(l, tick);
      if w'.runs[r].task == Live {
        OwnScheduled(l, tick);
        if w'.runs[r].pending == [] {
          ResumeOwed(l, tick);
        }
      }
    }
  }

  lemma ResumeOwed(l: Loop, tick: Tick)
    requires LoopOk(l) && tick.Runs? && TickOk(l, tick) && tick.step.ResumeWait?
    requires var run' := Apply(l.world, tick.step).runs[tick.step.r];
             run'.Alive() && run'.task == Live && run'.pending == []
    ensures Owed(l.ready + More(tick), tick.step.r, Apply(l.world, tick.step).runs[tick.step.r])
  {
    var w, r := l.world, tick.step.r;
    var run, run' := w.runs[r], Apply(w, tick.step).runs[r];
    LivingRun(w, r);
    ResumeSchedules(w.fleet, r, run, tick.step.order, tick.step.calls);
    hide Inv, Resume, AtRest, JustSubmitted, ResumedFleet;
    if run.pending == [] {
      StillOwed(l.ready, More(tick), r, run, run');
    } else {
      assert TaskTurn(r) in l.ready + Tasks(tick.early) by {
        InTasks(tick.early, TaskTurn(r));
      }
      hide SpawnFleet, Enabled, Apply;
      LastOwed(l.ready, tick, run, run');
    }
  }

  lemma LastOwed(ready: seq<Turn>, tick: Tick, run: Run, run': Run)
    requires tick.Runs? && JustSubmitted(run, run') && TaskTurn(tick.step.r) in ready + Tasks(tick.early)
    requires forall p :: CallTurn(tick.step.r, p) in ready ==> p in run.submitted
    ensures Owed(ready + More(tick), tick.step.r, run')
  {
    var r := tick.step.r;
    forall p ensures CallTurn(r, p) !in Tasks(tick.early) {
      InTasks(tick.early, CallTurn(r, p));
    }
    NewCallOwed(ready, Tasks(tick.early), Calls(r, tick.calls) + Tasks(tick.late), r, run, run');
    assert Tasks(tick.early) + (Calls(r, tick.calls) + Tasks(tick.late)) == More(tick);
  }

  lemma StillOwed(ready: seq<Turn>, more: seq<Turn>, r: RunId, run: Run, run': Run)
    requires Owed(ready, r, run)
    requires forall ref :: InAir(run, ref) ==> InAir(run', ref) && run'.flights[ref] == run.flights[ref]
    ensures Owed(ready + more, r, run')
  {
    var ref :| InAir(run, ref) && Before(ready, TaskTurn(r), CallTurn(r, run.flights[ref].position));
    BeforeAppend(ready, more, TaskTurn(r), CallTurn(r, run.flights[ref].position));
  }

  /** A cancelled wait either ends the run or only has it wait for finished calls. */
  lemma CancelQueue(l: Loop, tick: Tick)
    requires LoopOk(l) && tick.Runs? && TickOk(l, tick) && tick.step.Cancel?
    ensures var w', r := Apply(l.world, tick.step), tick.step.r;
            QueueOk(l.ready + More(tick), w'.fleet.asleep, r, w'.runs[r])
  {
    var w, r := l.world, tick.step.r;
    var w', run := Apply(w, tick.step), w.runs[r];
    SectionReady(w, tick.step);
    InterruptGoesOn(w.fleet, r, run, tick.step.finished, tick.step.order);
    hide Inv, AtRest, Resolve, Interrupt, QueueOk;
    if w'.runs[r].Alive() {
      SameQueue(l.ready, w.fleet.asleep, r, run, w'.runs[r]);
      OwnCalls(l, tick);
      forall p | CallTurn(r, p) in More(tick) ensures p in w'.runs[r].submitted {
        assert CallTurn(r, p) in l.ready + More(tick);
      }
      QueueGrows(l.ready, More(tick), w.fleet.asleep, w'.fleet.asleep, r, w'.runs[r]);
    } else {
      DeadQueue(l.ready + More(tick), w'.fleet.asleep, r, w'.runs[r]);
    }
  }

  lemma DeadQueue(ready: seq<Turn>, asleep: set<RunId>, r: RunId, run: Run)
    requires !run.Alive()
    ensures QueueOk(ready, asleep, r, run)
  {
  }

  lemma InterruptGoesOn(f: Fleet, r: RunId, run: Run, finished: set<Ref>, order: seq<Ref>)
    requires AtRest(f, r, run) && Delivered(run, order)
    ensures var s := Interrupt(f, r, run, finished, order);
            s.run.Alive() ==> s.fleet == f && s.run == run.(phase := s.run.phase)
  {
    hide AtRest, FleetOk, Resolve;
    ResolveDeparts(f, r, run, order);
  }

  lemma ResolveDeparts(f: Fleet, r: RunId, run: Run, order: seq<Ref>)
    requires AtRest(f, r, run) && Delivered(run, order)
    ensures !Resolve(f, r, run, order).run.Alive()
  {
    hide AtRest, FleetOk, Resolve;
    ResolveOk(f, r, run, order);
  }

  /** Every other stretch ends the run. */
  lemma LeaveQueue(l: Loop, tick: Tick)
    requires LoopOk(l) && tick.Runs? && TickOk(l, tick)
    requires tick.step.TimeOut? || tick.step.FinishCancel? || tick.step.Unwind?
    ensures var w', r := Apply(l.world, tick.step), tick.step.r;
            QueueOk(l.ready + More(tick), w'.fleet.asleep, r, w'.runs[r])
  {
    StretchEnds(l.world, tick.step);
    hide Inv, Apply, QueueOk, SpawnFleet, Enabled;
    DeadQueue(l.ready + More(tick), Apply(l.world, tick.step).fleet.asleep, tick.step.r,
        Apply(l.world, tick.step).runs[tick.step.r]);
  }

  lemma StretchEnds(w: World, step: Step)
    requires Inv(w) && Enabled(w, step) && (step.TimeOut? || step.FinishCancel? || step.Unwind?)
    ensures step.r in Apply(w, step).runs && !Apply(w, step).runs[step.r].Alive()
  {
    if step.FinishCancel? {
      FinishEnds(w, step);
    } else {
      QuickEnds(w, step);
    }
  }

  lemma FinishEnds(w: World, step: Step)
    requires Inv(w) && Enabled(w, step) && step.FinishCancel?
    ensures step.r in Apply(w, step).runs && !Apply(w, step).runs[step.r].Alive()
  {
    SectionReady(w, step);
    hide Inv, AtRest, Resolve;
    ResolveDeparts(w.fleet, step.r, w.runs[step.r], step.order);
  }

  lemma QuickEnds(w: World, step: Step)
    requires Enabled(w, step) && (step.TimeOut? || step.Unwind?)
    ensures step.r in Apply(w, step).runs && !Apply(w, step).runs[step.r].Alive()
  {
  }

  lemma RunsKeeps(l: Loop, tick: Tick)
    requires LoopOk(l) && tick.Runs? && TickOk(l, tick)
    ensures LoopOk(Advance(l, tick))
  {
    hide Inv, QueueOk, Apply, SpawnFleet, Enabled;
    var w, step := l.world, tick.step;
    StepOk(w, step);
    StepTouchesOne(w, step);
    OwnQueue(l, tick);
    TurnsKnown(l, tick);
    forall q | q in w.runs && q != step.r
      ensures QueueOk(Rest(l, step) + More(tick), Apply(w, step).fleet.asleep, q, w.runs[q])
    {
      OthersQueue(l, tick, q);
    }
  }

  lemma TurnsKnown(l: Loop, tick: Tick)
    requires LoopOk(l) && tick.Runs? && TickOk(l, tick)
    ensures Advance(l, tick) == Loop(Apply(l.world, tick.step), Rest(l, tick.step) + More(tick))
    ensures forall q, p :: CallTurn(q, p) in Rest(l, tick.step) + More(tick) ==> q in l.world.runs || q == tick.step.r
  {
    hide Inv, QueueOk, Apply, SpawnFleet, Enabled;
    forall q, p | CallTurn(q, p) in Rest(l, tick.step) + More(tick) ensures q in l.world.runs || q == tick.step.r {
      InMore(tick, CallTurn(q, p));
    }
    assert Advance(l, tick).ready == Rest(l, tick.step) + More(tick);
  }

  lemma OwnQueue(l: Loop, tick: Tick)
    requires LoopOk(l) && tick.Runs? && TickOk(l, tick)
    ensures var w', r := Apply(l.world, tick.step), tick.step.r;
            r in w'.runs && QueueOk(Rest(l, tick.step) + More(tick), w'.fleet.asleep, r, w'.runs[r])
  {
    hide LoopOk, Inv, QueueOk;
    match tick.step {
      case WakeTask(_) => WakeQueue(l, tick);
      case Deliver(_, _, _) => DeliverQueue(l, tick);
      case Start(_, _, _) => StartQueue(l, tick);
      case ResumeWait(_, _, _) => ResumeQueue(l, tick);
      case Cancel(_, _, _) => CancelQueue(l, tick);
      case _ => LeaveQueue(l, tick);
    }
  }

  // ---- Every run of the loop ----------------------------------------------------------------

  /** A run whose answers are looked at is never late. */
  lemma NeverLate(l: Loop, r: RunId)
    requires LoopOk(l) && AliveIn(l.world.runs, r)
    ensures !Late(l.world.runs[r])
  {
    hide Inv;
    assert QueueOk(l.ready, l.world.fleet.asleep, r, l.world.runs[r]);
  }

  lemma TickOnTime(l: Loop, tick: Tick)
    requires LoopOk(l) && tick.Runs? && TickOk(l, tick)
    ensures OnTime(l.world, tick.step)
  {
    if tick.step.ResumeWait? || tick.step.Cancel? || tick.step.FinishCancel? {
      NeverLate(l, tick.step.r);
    }
  }

  lemma TickKeeps(l: Loop, tick: Tick)
    requires LoopOk(l) && AllThreeWays(l.world) && TickOk(l, tick)
    ensures LoopOk(Advance(l, tick)) && AllThreeWays(Advance(l, tick).world)
  {
    match tick {
      case Runs(step, _, _, _) =>
        TickOnTime(l, tick);
        StepThreeWays(l.world, step);
        RunsKeeps(l, tick);
      case Skip => SkipKeeps(l);
      case Settle(r, p) => SettleKeeps(l, r, p);
    }
  }

  lemma {:induction false} LoopKeeps(l: Loop, ticks: seq<Tick>)
    requires LoopOk(l) && AllThreeWays(l.world) && Ticking(l, ticks)
    ensures LoopOk(Ticked(l, ticks)) && AllThreeWays(Ticked(l, ticks).world)
    decreases |ticks|
  {
    if ticks != [] {
      TickKeeps(l, ticks[0]);
      LoopKeeps(Advance(l, ticks[0]), ticks[1..]);
    }
  }

  /** What the loop does is one of the interleavings all other results are about. */
  lemma {:induction false} LoopLegal(l: Loop, ticks: seq<Tick>) returns (steps: seq<Step>)
    requires Ticking(l, ticks)
    ensures Legal(l.world, steps) && Play(l.world, steps) == Ticked(l, ticks).world
    decreases |ticks|
  {
    if ticks == [] {
      steps := [];
    } else {
      var rest := LoopLegal(Advance(l, ticks[0]), ticks[1..]);
      steps := if ticks[0].Runs? then [ticks[0].step] + rest else rest;
    }
  }

  /** First in, first out: once all jobs of a run are submitted and all its calls have answered, its
      admission task has ended. */
  lemma TasksEndFirst(workers: seq<WorkerId>, ticks: seq<Tick>, r: RunId)
    requires NoDup(workers) && Ticking(Begin(workers), ticks) && AliveIn(Ticked(Begin(workers), ticks).world.runs, r)
    ensures var run := Ticked(Begin(workers), ticks).world.runs[r];
            run.pending == [] && run.flights.Keys <= run.deliveries.Keys ==> run.task != Live
  {
    InitialOk(workers);
    LoopKeeps(Begin(workers), ticks);
    NeverLate(Ticked(Begin(workers), ticks), r);
  }

  /** The three ways are final: a run that ends cancelled, however often it was cancelled, submitted
      nothing or left the dispatcher closed, and no clean-up that holds a result ever suspends. */
  lemma CancelledFromStart(workers: seq<WorkerId>, ticks: seq<Tick>, r: RunId)
    requires NoDup(workers) && Ticking(Begin(workers), ticks)
    ensures var w := Ticked(Begin(workers), ticks).world;
            && Reachable(workers, w)
            && (r in w.runs && Departing(w.runs[r]) && OutcomeOf(w.runs[r]) == Cancelled ==>
                  w.runs[r].submitted == [] || !w.fleet.Open())
            && (r in w.runs && w.runs[r].phase.Exiting? ==> !w.runs[r].phase.outcome.Returned?)
  {
    InitialOk(workers);
    LoopKeeps(Begin(workers), ticks);
    var w := Ticked(Begin(workers), ticks).world;
    var steps := LoopLegal(Begin(workers), ticks);
    assert r in w.runs ==> ThreeWays(w.fleet, w.runs[r]);
  }
}

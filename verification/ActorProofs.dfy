/** What each atomic stretch of `run` keeps: job accounting, slot ownership, queue order. */
module ActorProofs {
  import opened Sequences
  import opened ActorFleet
  import opened ActorRuns

  // ---- Local invariants ---------------------------------------------------------------

  /** Every job of an admitted request has somewhere to run, on workers of the fleet. */
  ghost predicate JobsOk(workers: seq<WorkerId>, run: Run) {
    && NoDup(run.methods)
    && run.jobs != []
    && forall p :: 0 <= p < |run.jobs| ==>
         run.Candidates(p) != [] && forall w :: w in run.Candidates(p) ==> w in workers
  }

  predicate BoundTo(run: Run, p: nat, w: WorkerId) {
    p < |run.jobs| && run.jobs[p].worker == Some(w)
  }

  ghost predicate InFlight(run: Run, p: nat) {
    exists ref :: ref in run.flights && run.flights[ref].position == p
  }

  ghost predicate HasResult(run: Run, p: nat) {
    exists e :: e in run.results && e.position == p
  }

  /** Pending jobs, in caller order, and submitted jobs partition the request. */
  ghost predicate Partition(jobs: seq<Job>, pending: seq<nat>, submitted: seq<nat>) {
    && StrictlyIncreasing(pending)
    && NoDup(submitted)
    && (forall p :: p in pending ==> p < |jobs|)
    && (forall p :: p in submitted ==> p < |jobs| && p !in pending)
    && (forall p: nat :: p < |jobs| ==> p in pending || p in submitted)
  }

  /** Every submitted job is in flight once or has one result, never both. */
  ghost predicate Progress(run: Run) {
    && (forall ref :: ref in run.flights ==>
          run.flights[ref].position in run.submitted
          && run.flights[ref].worker in run.Candidates(run.flights[ref].position))
    && (forall a, b :: a in run.flights && b in run.flights ==>
          run.flights[a].position == run.flights[b].position ==> a == b)
    && (forall i, j :: 0 <= i < j < |run.results| ==> run.results[i].position != run.results[j].position)
    && (forall e :: e in run.results ==> e.position in run.submitted && !InFlight(run, e.position))
    && (forall p :: p in run.submitted ==> InFlight(run, p) || HasResult(run, p))
  }

  /** Results and undelivered answers carry what the actors answered. */
  ghost predicate Answers(run: Run) {
    && (forall ref :: ref in run.deliveries ==> ref in run.flights)
    && (forall ref :: ref in run.deliveries && run.deliveries[ref].Succeeded? ==>
          var p := run.flights[ref].position;
          p in run.answers && run.answers[p] == run.deliveries[ref].value)
    && (forall e :: e in run.results ==> e.position in run.answers && run.answers[e.position] == e.value)
  }

  /** Jobs bound to one worker are submitted in caller order. */
  ghost predicate BoundOrder(run: Run, pending: seq<nat>) {
    && (forall w, i, j :: 0 <= i < j < |run.submitted| ==>
          BoundTo(run, run.submitted[i], w) && BoundTo(run, run.submitted[j], w) ==>
          run.submitted[i] < run.submitted[j])
    && (forall w, p, q :: p in pending && q in run.submitted ==>
          BoundTo(run, p, w) && BoundTo(run, q, w) ==> q < p)
  }

  ghost predicate Ledger(run: Run, pending: seq<nat>) {
    && Partition(run.jobs, pending, run.submitted)
    && Progress(run)
    && Answers(run)
    && BoundOrder(run, pending)
  }

  /** The calls of this run hold their slots. */
  ghost predicate Registered(active: map<Ref, WorkerId>, flights: map<Ref, Flight>) {
    forall ref :: ref in flights ==> ref in active && active[ref] == flights[ref].worker
  }

  /** The registered calls of everybody else are the same in both states. */
  ghost predicate SameRest(
    active: map<Ref, WorkerId>, flights: map<Ref, Flight>, active': map<Ref, WorkerId>, flights': map<Ref, Flight>)
  {
    && (forall ref :: ref in active && ref !in flights ==>
          ref in active' && ref !in flights' && active'[ref] == active[ref])
    && (forall ref :: ref in active' && ref !in flights' ==> ref in active && ref !in flights)
  }

  /** The other callers keep their wishes and their order in every queue; nobody falls asleep. */
  ghost predicate OthersKeep(f: Fleet, f': Fleet, r: RunId) {
    && f'.workers == f.workers
    && (forall s :: s != r ==> f'.Wants(s) == f.Wants(s))
    && (forall s :: s in f'.asleep ==> s in f.asleep)
    && (f.Open() && f'.Open() ==> forall w :: Advances(f.Queue(w), f'.Queue(w), r))
  }

  // ---- Job accounting -----------------------------------------------------------------

  lemma SubmitPartition(jobs: seq<Job>, kept: seq<nat>, todo: seq<nat>, submitted: seq<nat>)
    requires todo != [] && Partition(jobs, kept + todo, submitted)
    ensures Partition(jobs, kept + todo[1..], submitted + [todo[0]])
    ensures forall q :: q in kept + todo <==> q in kept + todo[1..] || q == todo[0]
    ensures forall q :: q in kept ==> q < todo[0]
    ensures forall q :: q in todo[1..] ==> todo[0] < q
  {
    var p, before, after := todo[0], kept + todo, kept + todo[1..];
    assert before[|kept|] == p;
    forall i, j | 0 <= i < j < |after| ensures after[i] < after[j] {
      var i', j' := if i < |kept| then i else i + 1, if j < |kept| then j else j + 1;
      assert after[i] == before[i'] && after[j] == before[j'];
    }
    forall q | q in after ensures q in before {
      assert q in kept || q in todo[1..];
    }
    forall q | q in kept ensures q < p {
      var i := IndexOf(kept, q);
      assert before[i] == q;
    }
    forall q | q in todo[1..] ensures p < q {
      var i := IndexOf(todo[1..], q);
      assert before[|kept| + 1 + i] == q;
    }
    assert forall q :: q in after ==> q in kept || q in todo[1..];
    assert p !in submitted;
    forall q: nat | q < |jobs| ensures q in after || q in submitted + [p] {
      assert q in before || q in submitted;
    }
  }

  lemma SubmitLedger(run: Run, ref: Ref, kept: seq<nat>, todo: seq<nat>, w: WorkerId)
    requires todo != [] && Ledger(run, kept + todo) && ref !in run.flights
    requires w in run.Candidates(todo[0])
    requires forall v, p :: p in kept && BoundTo(run, p, v) ==> !BoundTo(run, todo[0], v)
    ensures Ledger(Submit(run, ref, todo[0], w), kept + todo[1..])
  {
    var p := todo[0];
    var run' := Submit(run, ref, p, w);
    SubmitPartition(run.jobs, kept, todo, run.submitted);
    SubmitProgress(run, ref, p, w);
    SubmitOrder(run, ref, p, w, kept + todo, kept + todo[1..]);
    forall x | x in run'.deliveries && run'.deliveries[x].Succeeded?
      ensures var q := run'.flights[x].position; q in run'.answers && run'.answers[q] == run'.deliveries[x].value
    {
      assert run'.flights[x] == run.flights[x];
    }
  }

  lemma SubmitProgress(run: Run, ref: Ref, p: nat, w: WorkerId)
    requires Progress(run) && ref !in run.flights && p !in run.submitted && w in run.Candidates(p)
    ensures Progress(Submit(run, ref, p, w))
  {
    var run' := Submit(run, ref, p, w);
    assert forall q :: q in run'.submitted <==> q in run.submitted || q == p;
    assert forall x :: x in run.flights ==> run'.flights[x] == run.flights[x];
    forall q | q in run'.submitted && q != p ensures InFlight(run', q) || HasResult(run', q) {
      if InFlight(run, q) {
        var x :| x in run.flights && run.flights[x].position == q;
        assert run'.flights[x].position == q;
      } else {
        var e :| e in run.results && e.position == q;
        assert e in run'.results;
      }
    }
    assert run'.flights[ref].position == p && InFlight(run', p);
    forall e | e in run'.results ensures e.position in run'.submitted && !InFlight(run', e.position) {
      assert !InFlight(run, e.position);
    }
    assert forall q :: run'.Candidates(q) == run.Candidates(q);
  }

  lemma SubmitOrder(run: Run, ref: Ref, p: nat, w: WorkerId, before: seq<nat>, after: seq<nat>)
    requires BoundOrder(run, before) && p in before
    requires forall q :: q in after ==> q in before && q != p
    requires forall v, q :: q in after && BoundTo(run, q, v) && BoundTo(run, p, v) ==> p < q
    ensures BoundOrder(Submit(run, ref, p, w), after)
  {
    var run' := Submit(run, ref, p, w);
    assert forall q, v :: BoundTo(run', q, v) <==> BoundTo(run, q, v);
    forall v, i, j | 0 <= i < j < |run'.submitted|
        && BoundTo(run', run'.submitted[i], v) && BoundTo(run', run'.submitted[j], v)
      ensures run'.submitted[i] < run'.submitted[j]
    {
      assert run'.submitted[i] == run.submitted[i];
    }
  }

  // ---- Fleet framing ------------------------------------------------------------------

  /** Leaving touches nothing but the caller's own place. */
  lemma LeaveFleetOk(f: Fleet, r: RunId)
    requires FleetOk(f)
    ensures var g := Rouse(Withdraw(f, r), r);
            && FleetOk(g) && OthersKeep(f, g, r)
            && g.Wants(r) == [] && r !in g.asleep
            && g.terminal == f.terminal && g.active == f.active && g.available == f.available
  {
    SyncOk(f, r, []);
    RouseOk(Withdraw(f, r), r);
  }

  /** Taking a slot moves nobody else and unblocks nothing for the taker. */
  lemma TakeKeeps(f: Fleet, r: RunId, w: WorkerId)
    requires FleetOk(f) && f.Open() && CanTake(f.available, f.queues, r, w)
    ensures var g := Take(f, r, w);
            && TakenOk(g, w) && OthersKeep(f, g, r) && g.active == f.active && g.Wants(r) == []
            && forall candidates :: !f.CanAcquire(r, candidates) ==> !g.CanAcquire(r, candidates)
  {
    TakeOk(f, r, w);
    SyncOk(f, r, []);
    var g := Take(f, r, w);
    assert forall v :: Advances(f.Queue(v), g.Queue(v), r);
    forall candidates | g.CanAcquire(r, candidates) ensures f.CanAcquire(r, candidates) {
      var v :| v in candidates && CanTake(g.available, g.queues, r, v);
      assert g.Queue(v) == Without(f.Queue(v), r);
      if f.Queue(v) != [] && f.Queue(v)[0] != r {
        WithoutHead(f.Queue(v), r);
      }
      assert CanTake(f.available, f.queues, r, v);
    }
  }

  // ---- Results ------------------------------------------------------------------------

  predicate SortedByIndex(pairs: seq<(int, Value)>) {
    forall i, j :: 0 <= i < j < |pairs| ==> pairs[i].0 <= pairs[j].0
  }

  function AnswerTo(run: Run, p: nat): (int, Value) {
    (if p < |run.jobs| then run.jobs[p].index else 0, if p in run.answers then run.answers[p] else 0)
  }

  /** `pairs` holds one pair per job, the job's index with its actor's answer, sorted by index. */
  ghost predicate Complete(run: Run, pairs: seq<(int, Value)>) {
    && (forall p: nat :: p < |run.jobs| ==> p in run.answers)
    && SortedByIndex(pairs)
    && multiset(pairs) == multiset(Image((p: nat) => AnswerTo(run, p), Upto(|run.jobs|)))
  }

  lemma {:induction false} InsertSorted(e: (int, Value), s: seq<(int, Value)>)
    requires SortedByIndex(s)
    ensures SortedByIndex(Insert(e, s))
  {
    if s == [] || s[0].0 > e.0 {
    } else {
      var tail := Insert(e, s[1..]);
      InsertSorted(e, s[1..]);
      forall x | x in tail ensures s[0].0 <= x.0 {
        assert x in multiset(tail);
        assert x in multiset(s[1..]) || x == e;
      }
    }
  }

  lemma {:induction false} SortPairsSorted(s: seq<(int, Value)>)
    ensures SortedByIndex(SortPairs(s))
  {
    if s != [] {
      SortPairsSorted(s[..|s| - 1]);
      InsertSorted(s[|s| - 1], SortPairs(s[..|s| - 1]));
    }
  }

  function PositionOf(e: Entry): nat { e.position }

  /** With nothing pending and nothing in flight there is exactly one result per job. */
  lemma ResultComplete(run: Run)
    requires Ledger(run, []) && run.flights == map[]
    ensures Complete(run, Result(run))
    ensures |run.results| == |run.submitted| == |run.jobs|
  {
    var positions := Image((e: Entry) => PositionOf(e), run.results);
    var all := Upto(|run.jobs|);
    forall p: nat ensures p in all <==> p < |run.jobs| {
      assert p < |run.jobs| ==> all[p] == p;
    }
    forall p | p in positions ensures p in all {
      var i := IndexOf(positions, p);
      assert run.results[i] in run.results;
    }
    forall p | p in all ensures p in positions {
      assert p in run.submitted && !InFlight(run, p);
      var e :| e in run.results && e.position == p;
      assert positions[IndexOf(run.results, e)] == p;
    }
    SameElementsPermute(positions, all);
    SameElementsPermute(run.submitted, all);
    ResultPairs(run, positions, all);
  }

  lemma ResultPairs(run: Run, positions: seq<nat>, all: seq<nat>)
    requires positions == Image((e: Entry) => PositionOf(e), run.results) && all == Upto(|run.jobs|)
    requires multiset(positions) == multiset(all) && Answers(run)
    ensures Complete(run, Result(run))
  {
    var answer := (p: nat) => AnswerTo(run, p);
    var raw := Image((e: Entry) => Pair(run, e), run.results);
    forall i | 0 <= i < |raw| ensures raw[i] == Image(answer, positions)[i] {
      assert run.results[i] in run.results;
    }
    assert raw == Image(answer, positions);
    ImagePermutes(answer, positions, all);
    SortPairsSorted(raw);
    forall p: nat | p < |run.jobs| ensures p in run.answers {
      assert all[p] in multiset(all);
      assert p in multiset(positions);
      var i := IndexOf(positions, p);
      assert run.results[i] in run.results;
    }
  }

  // ---- Departure ----------------------------------------------------------------------

  /** What an outcome promises about the fleet and the jobs of the run it ends. */
  ghost predicate OutcomeOk(f: Fleet, run: Run, outcome: Outcome) {
    match outcome
    case Returned(pairs) => Complete(run, pairs)
    case Failed(error) => f.terminal == Some(error)
    case Refused => !f.Open()
    case CallRaised => run.submitted == []
    case Rejected => run.submitted == []
    case Cancelled => run.submitted == [] || !f.Open()
    case Broken(_) => false
  }

  predicate Departing(run: Run) { run.phase.Exiting? || run.phase.Exited? }

  function OutcomeOf(run: Run): Outcome
    requires Departing(run)
  {
    run.phase.outcome
  }

  /** A section that started on fleet `f` with `flights` in the air and left `run`. */
  ghost predicate Departed(f: Fleet, flights: map<Ref, Flight>, r: RunId, s: Section) {
    && FleetOk(s.fleet) && OthersKeep(f, s.fleet, r)
    && s.fleet.Wants(r) == [] && r !in s.fleet.asleep
    && Departing(s.run) && OutcomeOk(s.fleet, s.run, OutcomeOf(s.run))
    && (if s.fleet.Open() then
          && f.Open() && s.doomed == {} && s.run.flights == map[]
          && SameRest(f.active, flights, s.fleet.active, map[])
        else if f.Open() then
          && (forall ref :: ref in f.active && ref !in flights ==> ref in s.doomed)
          && (forall ref :: ref in s.run.flights ==> ref in s.doomed)
        else
          && s.doomed == {} && s.fleet.terminal == f.terminal
          && (forall ref :: ref in s.run.flights ==> ref in flights))
  }

  lemma LeaveClosed(f: Fleet, g: Fleet, flights: map<Ref, Flight>, r: RunId, run: Run)
    requires FleetOk(g) && !g.Open() && OthersKeep(f, g, r) && g.terminal == f.terminal
    requires forall ref :: ref in run.flights ==> ref in flights
    ensures Departed(f, flights, r, Leave(g, r, run, Refused, {}))
  {
    LeaveFleetOk(g, r);
  }

  /** Closing an open fleet on the way out. */
  lemma CloseAndDepartOk(
    f: Fleet, g: Fleet, flights: map<Ref, Flight>, r: RunId, run: Run, error: TerminalError, outcome: Outcome)
    requires FleetOk(g) || (exists w :: TakenOk(g, w))
    requires g.Open() && f.Open() && OthersKeep(f, g, r)
    requires forall ref :: ref in f.active && ref !in flights ==> ref in g.active
    requires forall ref :: ref in run.flights ==> ref in g.active
    requires outcome == Cancelled || outcome == Failed(error)
    ensures Departed(f, flights, r, Leave(Close(g, error), r, run, outcome, Doomed(g)))
  {
    CloseOk(g, error);
    LeaveFleetOk(Close(g, error), r);
  }

  lemma CloseAndLeaveOk(f: Fleet, g: Fleet, flights: map<Ref, Flight>, r: RunId, run: Run, error: TerminalError)
    requires FleetOk(g) || (exists w :: TakenOk(g, w))
    requires g.Open() && f.Open() && OthersKeep(f, g, r)
    requires forall ref :: ref in f.active && ref !in flights ==> ref in g.active
    requires forall ref :: ref in run.flights ==> ref in g.active
    ensures Departed(f, flights, r, CloseAndLeave(g, r, run, error))
  {
    CloseAndDepartOk(f, g, flights, r, run, error, Failed(error));
  }
}

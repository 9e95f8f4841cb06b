/** `RayActorDispatcher` as the source has it: one object whose methods update its fields. Each
    method is proved to have exactly the effect of its operation on the fleet value, so every
    theorem about fleets is a theorem about these methods. */
module ActorDispatcher {
  import opened Sequences
  import opened ActorFleet
  import opened ActorRuns

  /** What a dispatcher method does instead of returning. */
  datatype Raised = Fine | TerminallyClosed | ReleasedTwice | DuplicateRef | LostWaiter

  /** Duplicate-free, non-empty names. */
  predicate GoodWorkerIds(workerIds: seq<WorkerId>) {
    workerIds != [] && NoDup(workerIds) && forall w :: w in workerIds ==> w.name != ""
  }

  lemma FewerNamesThanIds(workerIds: seq<WorkerId>)
    ensures |set w | w in workerIds| == |workerIds| <==> NoDup(workerIds)
  {
    assert (set w | w in workerIds) == Elements(workerIds);
    if NoDup(workerIds) {
      NoDupSize(workerIds);
    } else {
      DuplicatesShrink(workerIds);
    }
  }

  lemma NoDupSnoc(front: seq<WorkerId>, last: WorkerId)
    requires NoDup(front) && last !in front
    ensures NoDup(front + [last])
  {
  }

  lemma {:induction false} DuplicatesShrink(s: seq<WorkerId>)
    ensures |Elements(s)| <= |s|
    ensures !NoDup(s) ==> |Elements(s)| < |s|
  {
    if s != [] {
      var front, last := s[..|s| - 1], s[|s| - 1];
      DuplicatesShrink(front);
      assert s == front + [last] && Elements(s) == Elements(front) + {last};
      hide Elements;
      if last !in front && NoDup(front) {
        NoDupSnoc(front, last);
      }
    }
  }

  class RayActorDispatcher {
    const workerIds: seq<WorkerId>
    var available: set<WorkerId>
    var activeRefs: map<Ref, WorkerId>
    var admissionQueues: map<WorkerId, seq<RunId>>
    var candidatesOf: map<RunId, seq<WorkerId>>   // the `candidates` field of each caller's waiter
    var asleep: set<RunId>                        // admission tasks waiting on `_changed`
    var terminalError: Option<TerminalError>

    constructor (workerIds: seq<WorkerId>)
      requires GoodWorkerIds(workerIds)
      ensures this.workerIds == workerIds && View() == New(workerIds)
    {
      this.workerIds := workerIds;
      available := set w | w in workerIds;
      activeRefs := map[];
      admissionQueues := map w | w in workerIds :: [];
      candidatesOf := map[];
      asleep := {};
      terminalError := None;
    }

    /** The checks of `__init__`; null stands for its `ValueError`. */
    static method Create(workerIds: seq<WorkerId>) returns (d: RayActorDispatcher?)
      ensures d != null <==> GoodWorkerIds(workerIds)
      ensures d != null ==> fresh(d) && d.View() == New(workerIds)
    {
      d := null;
      if workerIds == [] {
        return;
      }
      for i := 0 to |workerIds|
        invariant forall j :: 0 <= j < i ==> workerIds[j].name != ""
      {
        if workerIds[i].name == "" {
          return;
        }
      }
      FewerNamesThanIds(workerIds);
      if |set w | w in workerIds| != |workerIds| {
        return;
      }
      d := new RayActorDispatcher(workerIds);
    }

    /** The fleet this object stands for. */
    function View(): Fleet
      reads this
    {
      Fleet(workerIds, available, activeRefs, admissionQueues, candidatesOf, asleep, terminalError)
    }

    function Wants(waiter: RunId): seq<WorkerId>
      reads this
    {
      WantsOf(candidatesOf, waiter)
    }

    /** Queues exist for exactly the fleet's workers, and waiters name only those. */
    ghost predicate Valid()
      reads this
    {
      Shape(workerIds, admissionQueues, candidatesOf)
    }

    /** `_changed.set()`. */
    method Notify()
      modifies `asleep
      ensures asleep == {}
    {
      asleep := {};
    }

    method RemoveWaiterFromQueue(w: WorkerId, waiter: RunId) returns (removed: bool)
      requires w in admissionQueues
      modifies `admissionQueues
      ensures admissionQueues == old(admissionQueues)[w := Without(old(admissionQueues[w]), waiter)]
      ensures removed <==> waiter in old(admissionQueues[w])
    {
      var queue := admissionQueues[w];
      var index := 0;
      while index < |queue|
        invariant 0 <= index <= |queue| && waiter !in queue[..index]
      {
        if queue[index] == waiter {
          WithoutFirst(queue, index, waiter);
          admissionQueues := admissionQueues[w := queue[..index] + queue[index + 1..]];
          return true;
        }
        index := index + 1;
      }
      assert queue[..index] == queue;
      assert admissionQueues[w := queue] == admissionQueues;
      return false;
    }

    method LeaveQueues(waiter: RunId, candidates: seq<WorkerId>)
      requires NoDup(candidates) && forall w :: w in candidates ==> w in admissionQueues
      modifies `admissionQueues
      ensures Left(old(admissionQueues), admissionQueues, waiter, Elements(candidates))
    {
      for i := 0 to |candidates|
        invariant Left(old(admissionQueues), admissionQueues, waiter, Elements(candidates[..i]))
      {
        assert candidates[i] in candidates && candidates[i] in admissionQueues;
        assert candidates[i] !in candidates[..i];
        ghost var before := admissionQueues;
        var _ := RemoveWaiterFromQueue(candidates[i], waiter);
        LeftOneMore(old(admissionQueues), before, admissionQueues, waiter, Elements(candidates[..i]), candidates[i]);
        assert Elements(candidates[..i + 1]) == Elements(candidates[..i]) + {candidates[i]};
      }
      assert candidates[..|candidates|] == candidates;
    }

    method RemoveAdmissionWaiter(waiter: RunId)
      requires Valid()
      modifies `admissionQueues, `candidatesOf, `asleep
      ensures View() == Withdraw(old(View()), waiter)
    {
      var candidates := Wants(waiter);
      if candidates == [] {
        return;
      }
      ghost var was := View();
      LeaveQueues(waiter, candidates);
      candidatesOf := candidatesOf[waiter := []];
      Notify();
      LeftAll(was, admissionQueues, waiter);
    }

    /** Queue the waiter for exactly `candidates`. The "lost waiter" error means that a queue it
        should stand in does not hold it. */
    method SyncAdmissionWaiter(candidates: seq<WorkerId>, waiter: RunId) returns (raised: Raised)
      requires Valid() && NoDup(candidates) && forall w :: w in candidates ==> w in workerIds
      modifies `admissionQueues, `candidatesOf, `asleep
      ensures raised == if LosesWaiter(old(View()), waiter, candidates) then LostWaiter else Fine
      ensures raised.Fine? ==> View() == Sync(old(View()), waiter, candidates)
    {
      var previous := Wants(waiter);
      ghost var was := View();
      LosesExactly(was, waiter, candidates);
      hide Left, Joined, LosesWaiter, Shape, Sync;
      if candidates == previous {
        SyncSame(was, waiter, candidates);
        return Fine;
      }
      var desired := set w | w in candidates;
      var lost := LeaveAll((set w | w in previous) - desired, waiter);
      if lost {
        return LostWaiter;
      }
      ghost var mid := admissionQueues;
      JoinAll(candidates, previous, waiter);
      candidatesOf := candidatesOf[waiter := candidates];
      Notify();
      SyncAll(was, mid, admissionQueues, waiter, candidates);
      return Fine;
    }

    /** The first loop of `_sync_admission_waiter`: leave the queues no longer wanted. */
    method LeaveAll(leaving: set<WorkerId>, waiter: RunId) returns (lost: bool)
      requires leaving <= admissionQueues.Keys
      modifies `admissionQueues
      ensures lost <==> exists w :: w in leaving && waiter !in old(admissionQueues)[w]
      ensures !lost ==> Left(old(admissionQueues), admissionQueues, waiter, leaving)
      ensures admissionQueues.Keys == old(admissionQueues.Keys)
    {
      var todo := leaving;
      while todo != {}
        invariant todo <= leaving && Left(old(admissionQueues), admissionQueues, waiter, leaving - todo)
        invariant forall w :: w in leaving && w !in todo ==> waiter in old(admissionQueues)[w]
        decreases |todo|
      {
        var w :| w in todo;
        ghost var before := admissionQueues;
        var removed := RemoveWaiterFromQueue(w, waiter);
        if !removed {
          return true;
        }
        LeftOneMore(old(admissionQueues), before, admissionQueues, waiter, leaving - todo, w);
        assert leaving - (todo - {w}) == leaving - todo + {w};
        todo := todo - {w};
      }
      assert leaving - {} == leaving;
      return false;
    }

    /** The second loop of `_sync_admission_waiter`: go to the back of the queues newly wanted. */
    method JoinAll(candidates: seq<WorkerId>, previous: seq<WorkerId>, waiter: RunId)
      requires NoDup(candidates) && forall w :: w in candidates ==> w in admissionQueues
      modifies `admissionQueues
      ensures Joined(old(admissionQueues), admissionQueues, waiter, set w | w in candidates && w !in previous)
    {
      for i := 0 to |candidates|
        invariant Joined(old(admissionQueues), admissionQueues, waiter, set w | w in candidates[..i] && w !in previous)
      {
        var w := candidates[i];
        JoinStep(candidates, previous, i);
        if w !in previous {
          JoinOneMore(old(admissionQueues), admissionQueues, waiter, (set v | v in candidates[..i] && v !in previous),
              w);
          admissionQueues := admissionQueues[w := admissionQueues[w] + [waiter]];
        }
      }
      assert candidates[..|candidates|] == candidates;
    }

    method FirstWaiterFor(w: WorkerId) returns (first: Option<RunId>)
      requires w in admissionQueues
      ensures first == if View().Queue(w) == [] then None else Some(View().Queue(w)[0])
    {
      var queue := admissionQueues[w];
      first := if queue != [] then Some(queue[0]) else None;
    }

    method CanAcquire(candidates: seq<WorkerId>, waiter: RunId) returns (can: bool)
      requires Valid() && forall w :: w in candidates ==> w in workerIds
      ensures can <==> View().CanAcquire(waiter, candidates)
    {
      for i := 0 to |candidates|
        invariant !View().CanAcquire(waiter, candidates[..i])
      {
        var w := candidates[i];
        assert candidates[..i + 1] == candidates[..i] + [w];
        if w in available {
          var first := FirstWaiterFor(w);
          if first.None? || first.value == waiter {
            assert w in candidates && CanTake(available, admissionQueues, waiter, w);
            return true;
          }
        }
      }
      assert candidates[..|candidates|] == candidates;
      return false;
    }

    /** Take the first free candidate nobody else is queued ahead for, and forfeit every place. */
    method TryAcquire(candidates: seq<WorkerId>, waiter: RunId) returns (raised: Raised, taken: Option<WorkerId>)
      requires Valid() && forall w :: w in candidates ==> w in workerIds
      modifies `available, `admissionQueues, `candidatesOf, `asleep
      ensures raised == if old(View()).Open() then Fine else TerminallyClosed
      ensures taken == if old(View()).Open() then Pick(old(View()), waiter, candidates) else None
      ensures View() == if taken.Some? then Take(old(View()), waiter, taken.value) else old(View())
    {
      taken := None;
      raised := RequireOpen();
      if !raised.Fine? {
        return;
      }
      for i := 0 to |candidates|
        invariant View() == old(View())
        invariant Pick(View(), waiter, candidates) == Pick(View(), waiter, candidates[i..])
      {
        var w := candidates[i];
        assert candidates[i..][0] == w && candidates[i..][1..] == candidates[i + 1..];
        if w in available {
          var first := FirstWaiterFor(w);
          if first.None? || first.value == waiter {
            RemoveAdmissionWaiter(waiter);
            available := available - {w};
            return Fine, Some(w);
          }
        }
      }
    }

    method RequireOpen() returns (raised: Raised)
      ensures raised == if View().Open() then Fine else TerminallyClosed
    {
      raised := if terminalError.Some? then TerminallyClosed else Fine;
    }

    method Register(ref: Ref, w: WorkerId) returns (raised: Raised)
      modifies `activeRefs
      ensures raised == if !old(View()).Open() then TerminallyClosed
                        else if ref in old(activeRefs) then DuplicateRef
                        else Fine
      ensures View() == if raised.Fine? then ActorFleet.Register(old(View()), ref, w) else old(View())
    {
      raised := RequireOpen();
      if raised.Fine? {
        if ref in activeRefs {
          return DuplicateRef;
        }
        activeRefs := activeRefs[ref := w];
      }
    }

    method Release(w: WorkerId) returns (raised: Raised)
      modifies `available, `asleep
      ensures raised == if ActorFleet.ReleasesTwice(old(View()), w) then ReleasedTwice else Fine
      ensures View() == if raised.Fine? then ActorFleet.Release(old(View()), w) else old(View())
    {
      if terminalError.Some? {
        return Fine;
      }
      if w in available {
        return ReleasedTwice;
      }
      available := available + {w};
      Notify();
      return Fine;
    }

    method Finish(ref: Ref, w: WorkerId) returns (raised: Raised)
      modifies `available, `asleep, `activeRefs
      ensures raised == if ActorFleet.ReleasesTwice(old(View()), w) then ReleasedTwice else Fine
      ensures raised.Fine? ==> View() == ActorFleet.Finish(old(View()), ref, w)
      ensures !raised.Fine? ==> View() == old(View()).(active := old(activeRefs) - {ref})
    {
      activeRefs := activeRefs - {ref};
      raised := Fine;
      if terminalError.None? {
        raised := Release(w);
      }
    }

    /** The first error closes the fleet and hands every registered ref to cancellation. */
    method Close(error: TerminalError) returns (terminal: TerminalError, doomed: set<Ref>)
      modifies `available, `asleep, `activeRefs, `admissionQueues, `terminalError
      ensures View() == ActorFleet.Close(old(View()), error)
      ensures Some(terminal) == View().terminal && doomed == ActorFleet.Doomed(old(View()))
    {
      if terminalError.None? {
        terminalError := Some(error);
        available := {};
        doomed := activeRefs.Keys;
        activeRefs := map[];
        ghost var queues := admissionQueues;
        var todo := admissionQueues.Keys;
        while todo != {}
          invariant todo <= queues.Keys && admissionQueues.Keys == queues.Keys
          invariant forall w :: w in queues && w !in todo ==> admissionQueues[w] == []
          invariant terminalError == Some(error) && available == {} && activeRefs == map[]
          decreases |todo|
        {
          var w :| w in todo;
          admissionQueues := admissionQueues[w := []];
          todo := todo - {w};
        }
        assert admissionQueues == map w | w in queues :: [];
        Notify();
        return error, doomed;
      }
      return terminalError.value, {};
    }

    /** One popped job: acquire a slot, call the worker method, register the ref. `stop` is what
        ends the run. */
    method SubmitOne(waiter: RunId, start: Run, call: Call, p: nat, pending: seq<nat>)
      returns (run: Run, flew: bool, stop: Option<Outcome>, doomed: set<Ref>)
      requires Valid() && forall w :: w in start.Candidates(p) ==> w in workerIds
      modifies this
      ensures match TryJob(old(View()), waiter, start, call, p, pending)
              case NoSlot => !flew && stop == None && View() == old(View()) && run == start
              case Flew(f, submitted) => flew && stop == None && View() == f && run == submitted
              case Ended(section) => stop.Some? && section == Leave(View(), waiter, run, stop.value, doomed)
      ensures stop == None ==> Valid() && run.jobs == start.jobs && run.methods == start.methods
    {
      run, flew, stop, doomed := start, false, None, {};
      var raised, choice := TryAcquire(run.Candidates(p), waiter);
      if raised.TerminallyClosed? {
        return run.(pending := pending), false, Some(Refused), {};
      }
      if choice.None? {
        return;
      }
      var w := choice.value;
      TakeShape(old(View()), waiter, w);
      hide Take, Pick, Shape;
      if call.CallRaises? {
        SlotTaken(old(View()), waiter, w);
        var _ := Release(w);
        run := run.(pending := pending);
        if run.submitted == [] {
          return run, false, Some(CallRaised), {};
        }
        var _, refs := Close(CallFailed(waiter, p));
        return run, false, Some(Failed(CallFailed(waiter, p))), refs;
      }
      raised := Register(call.ref, w);
      if !raised.Fine? {
        var _, refs := Close(CallFailed(waiter, p));
        return run.(pending := pending), false, Some(Failed(CallFailed(waiter, p))), refs;
      }
      return Submit(run, call.ref, p, w), true, None, {};
    }

    /** `submit_ready`: pop each pending job once; append it when it finds no slot, and rotate the
        appended ones back to the front when the last slot went. */
    method SubmitReady(waiter: RunId, start: Run, calls: nat -> Call)
      returns (run: Run, stop: Option<Outcome>, doomed: set<Ref>)
      requires Valid() && CandidatesKnown(start, start.pending, workerIds)
      modifies this
      ensures match SubmitPass(old(View()), waiter, start, calls, [], start.pending)
              case Passed(f, passed) => stop == None && View() == f && run == passed
              case Stopped(section) => stop.Some? && section == Leave(View(), waiter, run, stop.value, doomed)
    {
      run := start;
      var pending := start.pending;
      var failedBeforeSubmission := 0;
      ghost var kept: seq<nat>, todo := [], start.pending;
      for n := 0 to |start.pending|
        invariant pending == todo + kept && |kept| == failedBeforeSubmission && |todo| == |start.pending| - n
        invariant SubmitPass(old(View()), waiter, start, calls, [], start.pending)
               == SubmitPass(View(), waiter, run, calls, kept, todo)
        invariant Valid() && CandidatesKnown(run, todo, workerIds)
      {
        hide TryJob;
        ghost var rest := todo[1..];
        CandidatesOfRest(run, todo, workerIds);
        assert pending[0] == todo[0] && pending[1..] == rest + kept;
        var p := pending[0];
        pending := pending[1..];
        var flew;
        run, flew, stop, doomed := SubmitOne(waiter, run, calls(p), p, pending);
        if stop.Some? {
          return;
        }
        hide CandidatesKnown;
        todo := rest;
        if !flew {
          assert pending + [p] == rest + (kept + [p]);
          pending := pending + [p];
          failedBeforeSubmission := failedBeforeSubmission + 1;
          kept := kept + [p];
        } else if available == {} {
          var untouched := |pending| - failedBeforeSubmission;
          assert pending[untouched..] == kept && pending[..untouched] == rest;
          return run.(pending := pending[untouched..] + pending[..untouched]), None, {};
        }
      }
      return run.(pending := pending), None, {};
    }

    /** The workers pending jobs are bound to, and whether some pending job is unbound. */
    method PendingKinds(run: Run) returns (bound: set<WorkerId>, dynamic: bool)
      requires forall p :: p in run.pending ==> p < |run.jobs|
      ensures forall w :: w in bound <==> BoundIn(run, run.pending, w)
      ensures dynamic <==> UnboundIn(run, run.pending)
    {
      bound, dynamic := {}, false;
      for i := 0 to |run.pending|
        invariant forall w :: w in bound <==> BoundIn(run, run.pending[..i], w)
        invariant dynamic <==> UnboundIn(run, run.pending[..i])
      {
        var p := run.pending[i];
        assert p in run.pending;
        assert run.pending[..i + 1] == run.pending[..i] + [p];
        match run.jobs[p].worker {
          case Some(w) => bound := bound + {w};
          case None => dynamic := true;
        }
      }
      assert run.pending[..|run.pending|] == run.pending;
    }

    /** The fleet's workers that are bound or offered, and not busy. */
    method Choose(bound: set<WorkerId>, methods: seq<WorkerId>, busy: set<WorkerId>) returns (candidates: seq<WorkerId>)
      ensures candidates == Chosen(workerIds, bound, methods, busy)
    {
      candidates := [];
      for i := 0 to |workerIds|
        invariant candidates + Chosen(workerIds[i..], bound, methods, busy) == Chosen(workerIds, bound, methods, busy)
      {
        var w := workerIds[i];
        assert workerIds[i..][0] == w && workerIds[i..][1..] == workerIds[i + 1..];
        if (w in bound || w in methods) && w !in busy {
          candidates := candidates + [w];
        }
      }
    }

    /** `_pending_workers` and the filter after it: the workers some pending job may run on and no
        call of this run is on, in fleet order. */
    method PendingWorkers(run: Run) returns (candidates: seq<WorkerId>)
      requires forall p :: p in run.pending ==> p < |run.jobs|
      ensures candidates == Wanted(run, workerIds)
    {
      var bound, dynamic := PendingKinds(run);
      var busy := set ref | ref in run.flights :: run.flights[ref].worker;
      candidates := Choose(bound, if dynamic then run.methods else [], busy);
      hide BoundIn, UnboundIn, Wanted, Chosen;
      ChosenWanted(run, workerIds, bound, dynamic, busy);
    }

    /** The loop over the done set. `stop` is what ends the run. */
    method ObserveDone(waiter: RunId, start: Run, done: seq<Ref>)
      returns (run: Run, stop: Option<Outcome>, doomed: set<Ref>)
      requires NoDup(done) && forall ref :: ref in done ==> ref in start.flights && ref in start.deliveries
      modifies this
      ensures match Observe(old(View()), waiter, start, done)
              case Observed(f, observed) => stop == None && View() == f && run == observed
              case Aborted(section) => stop.Some? && section == Leave(View(), waiter, run, stop.value, doomed)
    {
      run := start;
      for n := 0 to |done|
        invariant NoDup(done[n..]) && forall ref :: ref in done[n..] ==> ref in run.flights && ref in run.deliveries
        invariant Observe(old(View()), waiter, start, done) == Observe(View(), waiter, run, done[n..])
      {
        var ref := done[n];
        assert done[n..][0] == ref && done[n..][1..] == done[n + 1..];
        var flight, delivery := run.flights[ref], run.deliveries[ref];
        run := Pop(run, ref);
        var raised := Finish(ref, flight.worker);
        if !raised.Fine? {
          return run, Some(Broken(SlotReleasedTwice)), {};
        }
        match delivery {
          case Succeeded(value) => run := Record(run, Entry(flight.position, value));
          case Errored =>
            if terminalError.Some? {
              return run, Some(Refused), {};
            }
            var _, refs := Close(CallFailed(waiter, flight.position));
            return run, Some(Failed(CallFailed(waiter, flight.position))), refs;
        }
      }
      return run, None, {};
    }

    /** The handler's loop over the settled calls: every outcome is recorded, the first failure is
        kept for the verdict. `stop` is what ends the handler early. */
    method SweepDone(waiter: RunId, start: Run, done: seq<Ref>)
      returns (run: Run, failed: Option<nat>, stop: Option<Outcome>)
      requires NoDup(done) && forall ref :: ref in done ==> ref in start.flights && ref in start.deliveries
      modifies this
      ensures match SweepArrived(old(View()), waiter, start, done, None)
              case Swept(f, swept, first) => stop == None && View() == f && run == swept && failed == first
              case SweepBroke(section) => stop.Some? && section == Leave(View(), waiter, run, stop.value, {})
    {
      run, failed := start, None;
      for n := 0 to |done|
        invariant NoDup(done[n..]) && forall ref :: ref in done[n..] ==> ref in run.flights && ref in run.deliveries
        invariant SweepArrived(old(View()), waiter, start, done, None)
               == SweepArrived(View(), waiter, run, done[n..], failed)
      {
        var ref := done[n];
        assert done[n..][0] == ref && done[n..][1..] == done[n + 1..];
        var flight, delivery := run.flights[ref], run.deliveries[ref];
        run := Pop(run, ref);
        var raised := Finish(ref, flight.worker);
        if !raised.Fine? {
          return run, failed, Some(Broken(SlotReleasedTwice));
        }
        match delivery {
          case Succeeded(value) => run := Record(run, Entry(flight.position, value));
          case Errored => failed := if failed.None? then Some(flight.position) else failed;
        }
      }
      return run, failed, None;
    }

    /** `_wait_for_available` from a wake-up to its next await. */
    method WakeUp(waiter: RunId, start: Run) returns (run: Run)
      requires Valid()
      modifies this
      ensures Section(View(), run, {}) == Wake(old(View()), waiter, start)
    {
      var raised := RequireOpen();
      if !raised.Fine? {
        RemoveAdmissionWaiter(waiter);
        return start.(task := Crashed);
      }
      var candidates := Wants(waiter);
      if candidates == [] {
        return start.(task := Done);
      }
      assert forall w :: w in WantsOf(candidatesOf, waiter) ==> w in workerIds;
      var can := CanAcquire(candidates, waiter);
      if can {
        return start.(task := Done);
      }
      asleep := asleep + {waiter};
      return start;
    }
  }

  ghost predicate BoundIn(run: Run, pending: seq<nat>, w: WorkerId) {
    exists p :: p in pending && p < |run.jobs| && run.jobs[p].worker == Some(w)
  }

  ghost predicate UnboundIn(run: Run, pending: seq<nat>) {
    exists p :: p in pending && p < |run.jobs| && run.jobs[p].worker.None?
  }

  function Chosen(
    workers: seq<WorkerId>, bound: set<WorkerId>, methods: seq<WorkerId>, busy: set<WorkerId>): seq<WorkerId>
  {
    if workers == [] then []
    else
      var w := workers[0];
      (if (w in bound || w in methods) && w !in busy then [w] else []) + Chosen(workers[1..], bound, methods, busy)
  }

  lemma {:induction false} ChosenWanted(run: Run, workers: seq<WorkerId>, bound: set<WorkerId>, dynamic: bool,
      busy: set<WorkerId>)
    requires forall p :: p in run.pending ==> p < |run.jobs|
    requires (forall w :: w in bound <==> BoundIn(run, run.pending, w)) && (dynamic <==> UnboundIn(run, run.pending))
    requires busy == set ref | ref in run.flights :: run.flights[ref].worker
    ensures Chosen(workers, bound, if dynamic then run.methods else [], busy) == Wanted(run, workers)
  {
    if workers != [] {
      ChosenWanted(run, workers[1..], bound, dynamic, busy);
      NeededOrNot(run, workers[0]);
      assert run.Busy(workers[0]) <==> workers[0] in busy;
    }
  }

  lemma NeededOrNot(run: Run, w: WorkerId)
    requires forall p :: p in run.pending ==> p < |run.jobs|
    ensures run.Needs(w) <==> BoundIn(run, run.pending, w) || (UnboundIn(run, run.pending) && w in run.methods)
  {
    if run.Needs(w) {
      var p :| p in run.pending && w in run.Candidates(p);
      assert run.jobs[p].worker == Some(w) || run.jobs[p].worker.None?;
    }
    if BoundIn(run, run.pending, w) {
      var p :| p in run.pending && run.jobs[p].worker == Some(w);
      assert w in run.Candidates(p);
    } else if UnboundIn(run, run.pending) && w in run.methods {
      var p :| p in run.pending && run.jobs[p].worker.None?;
      assert w in run.Candidates(p);
    }
  }

  ghost predicate CandidatesKnown(run: Run, pending: seq<nat>, workers: seq<WorkerId>) {
    forall p, w :: p in pending && w in run.Candidates(p) ==> w in workers
  }

  lemma CandidatesOfRest(run: Run, todo: seq<nat>, workers: seq<WorkerId>)
    requires todo != [] && CandidatesKnown(run, todo, workers)
    ensures forall w :: w in run.Candidates(todo[0]) ==> w in workers
    ensures forall run': Run :: run'.jobs == run.jobs && run'.methods == run.methods ==>
              CandidatesKnown(run', todo[1..], workers)
  {
    forall run': Run | run'.jobs == run.jobs && run'.methods == run.methods
      ensures CandidatesKnown(run', todo[1..], workers)
    {
      forall p, w | p in todo[1..] && w in run'.Candidates(p) ensures w in workers {
        assert p in todo && run'.Candidates(p) == run.Candidates(p);
      }
    }
  }

  lemma SlotTaken(f: Fleet, r: RunId, w: WorkerId)
    ensures !ReleasesTwice(Take(f, r, w), w)
  {
  }

  lemma TakeShape(f: Fleet, r: RunId, w: WorkerId)
    requires Shape(f.workers, f.queues, f.wants)
    ensures var g := Take(f, r, w); Shape(g.workers, g.queues, g.wants)
  {
    if f.Wants(r) != [] {
      ShapeUpdate(f, Withdraw(f, r).queues, r, []);
    }
  }

  /** The waiter has left the queues of `gone` and stands in the others as before. */
  ghost predicate Left(
    queues: map<WorkerId, seq<RunId>>, queues': map<WorkerId, seq<RunId>>, waiter: RunId, gone: set<WorkerId>)
  {
    && queues'.Keys == queues.Keys
    && forall v :: v in queues ==> queues'[v] == if v in gone then Without(queues[v], waiter) else queues[v]
  }

  lemma LeftOneMore(
    queues: map<WorkerId, seq<RunId>>, before: map<WorkerId, seq<RunId>>, after: map<WorkerId, seq<RunId>>,
    waiter: RunId, gone: set<WorkerId>, w: WorkerId)
    requires w in before && w !in gone && Left(queues, before, waiter, gone)
    requires after == before[w := Without(before[w], waiter)]
    ensures Left(queues, after, waiter, gone + {w})
  {
  }

  lemma LeftAll(f: Fleet, queues': map<WorkerId, seq<RunId>>, waiter: RunId)
    requires Left(f.queues, queues', waiter, Elements(f.Wants(waiter))) && f.Wants(waiter) != []
    ensures Withdraw(f, waiter) == f.(queues := queues', wants := f.wants[waiter := []], asleep := {})
  {
    assert Withdraw(f, waiter).queues == queues';
  }

  /** The waiter stands at the back of the queues of `joined`. */
  ghost predicate Joined(
    queues: map<WorkerId, seq<RunId>>, queues': map<WorkerId, seq<RunId>>, waiter: RunId, joined: set<WorkerId>)
  {
    && queues'.Keys == queues.Keys
    && forall v :: v in queues ==> queues'[v] == if v in joined then queues[v] + [waiter] else queues[v]
  }

  lemma JoinOneMore(
    queues: map<WorkerId, seq<RunId>>, before: map<WorkerId, seq<RunId>>, waiter: RunId, joined: set<WorkerId>,
        w: WorkerId)
    requires w in before && w !in joined && Joined(queues, before, waiter, joined)
    ensures Joined(queues, before[w := before[w] + [waiter]], waiter, joined + {w})
  {
  }

  lemma LosesExactly(f: Fleet, waiter: RunId, candidates: seq<WorkerId>)
    requires Shape(f.workers, f.queues, f.wants) && forall w :: w in candidates ==> w in f.workers
    ensures var leaving := (set w | w in f.Wants(waiter)) - (set w | w in candidates);
            && leaving <= f.queues.Keys
            && (LosesWaiter(f, waiter, candidates) <==> exists w :: w in leaving && waiter !in f.queues[w])
    ensures forall w :: w in candidates ==> w in f.queues
    ensures candidates == f.Wants(waiter) ==> !LosesWaiter(f, waiter, candidates)
  {
    forall w | w in f.Wants(waiter) ensures w in f.queues && f.Queue(w) == f.queues[w] {
      assert w in WantsOf(f.wants, waiter);
    }
  }

  lemma SyncSame(f: Fleet, waiter: RunId, candidates: seq<WorkerId>)
    requires candidates == f.Wants(waiter)
    ensures Sync(f, waiter, candidates) == f
  {
  }

  lemma JoinStep(candidates: seq<WorkerId>, previous: seq<WorkerId>, i: nat)
    requires i < |candidates| && NoDup(candidates)
    ensures var joined := set v | v in candidates[..i] && v !in previous;
            var joined' := set v | v in candidates[..i + 1] && v !in previous;
            && candidates[i] !in joined
            && joined' == if candidates[i] in previous then joined else joined + {candidates[i]}
  {
    assert candidates[..i + 1] == candidates[..i] + [candidates[i]];
    assert candidates[i] !in candidates[..i];
  }

  lemma SyncAll(
    f: Fleet, mid: map<WorkerId, seq<RunId>>, queues': map<WorkerId, seq<RunId>>, waiter: RunId,
        candidates: seq<WorkerId>)
    requires candidates != f.Wants(waiter)
    requires Left(f.queues, mid, waiter, (set w | w in f.Wants(waiter)) - (set w | w in candidates))
    requires Joined(mid, queues', waiter, set w | w in candidates && w !in f.Wants(waiter))
    ensures Sync(f, waiter, candidates) ==
              f.(queues := queues', wants := f.wants[waiter := candidates], asleep := {})
  {
    assert Sync(f, waiter, candidates).queues == queues';
  }

  lemma {:induction false} WithoutFirst(q: seq<RunId>, k: nat, r: RunId)
    requires k < |q| && q[k] == r && r !in q[..k]
    ensures Without(q, r) == q[..k] + q[k + 1..]
  {
    if k > 0 {
      assert q[0] == q[..k][0];
      assert q[1..][..k - 1] == q[..k][1..];
      WithoutFirst(q[1..], k - 1, r);
      assert q[1..][..k - 1] + q[1..][k..] == (q[..k] + q[k + 1..])[1..];
    } else {
      assert q[..0] + q[1..] == q[1..];
    }
  }
}

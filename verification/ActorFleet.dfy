/** The shared admission state of one actor fleet (vrl/ray/actor_pool.py), as a value.

    Each operation is the effect of one helper of the dispatcher on that state. The
    imperative dispatcher is proved against these operations, and the invariant below is
    what every one of them keeps. Callers (`run` coroutines) are opaque ids; an id stands
    for the caller's admission waiter object too, because each call owns exactly one.
 */
module ActorFleet {
  import opened Sequences

  datatype WorkerId = WorkerId(name: string)
  type Ref = nat
  type RunId = nat

  /** The terminal errors that close a fleet, with the call that proposed them. */
  datatype TerminalError =
    | CallFailed(run: RunId, position: nat)
    | TimedOut(run: RunId)
    | Abandoned(run: RunId)

  /** `asleep` holds the callers whose admission task waits on the event un-notified:
      setting the event empties it, clearing the event leaves it alone. */
  datatype Fleet = Fleet(
    workers: seq<WorkerId>,
    available: set<WorkerId>,
    active: map<Ref, WorkerId>,
    queues: map<WorkerId, seq<RunId>>,
    wants: map<RunId, seq<WorkerId>>,
    asleep: set<RunId>,
    terminal: Option<TerminalError>)
  {
    predicate Open() { terminal.None? }

    function Wants(r: RunId): seq<WorkerId> { WantsOf(wants, r) }

    function Queue(w: WorkerId): seq<RunId> { QueueOf(queues, w) }

    predicate CanAcquire(r: RunId, candidates: seq<WorkerId>) {
      CanAcquireFrom(available, queues, r, candidates)
    }
  }

  function WantsOf(wants: map<RunId, seq<WorkerId>>, r: RunId): seq<WorkerId> {
    if r in wants then wants[r] else []
  }

  function QueueOf(queues: map<WorkerId, seq<RunId>>, w: WorkerId): seq<RunId> {
    if w in queues then queues[w] else []
  }

  /** Worker `w` is free and nobody is queued ahead of `r` for it. */
  predicate CanTake(available: set<WorkerId>, queues: map<WorkerId, seq<RunId>>, r: RunId, w: WorkerId) {
    w in available && (QueueOf(queues, w) == [] || QueueOf(queues, w)[0] == r)
  }

  predicate CanAcquireFrom(
    available: set<WorkerId>, queues: map<WorkerId, seq<RunId>>, r: RunId, candidates: seq<WorkerId>)
  {
    exists w :: w in candidates && CanTake(available, queues, r, w)
  }

  /** The queue without its first occurrence of `r`. */
  function Without(q: seq<RunId>, r: RunId): (q': seq<RunId>)
    ensures r !in q ==> q' == q
    ensures forall x :: x in q' ==> x in q
    ensures forall x :: x in q && x != r ==> x in q'
  {
    if q == [] then []
    else if q[0] == r then q[1..]
    else [q[0]] + Without(q[1..], r)
  }

  lemma AdvancesTwice(q: seq<RunId>, q': seq<RunId>, q'': seq<RunId>, r: RunId)
    requires NoDup(q) && Advances(q, q', r) && Advances(q', q'', r)
    ensures Advances(q, q'', r)
  {
    WithoutElements(q, r);
    WithoutAppend(Without(q, r), r);
  }

  /** Callers standing ahead of `s`. */
  ghost function Ahead(q: seq<RunId>, s: RunId): set<RunId> {
    if q == [] || q[0] == s then {} else {q[0]} + Ahead(q[1..], s)
  }

  lemma {:induction false} WithoutAhead(q: seq<RunId>, r: RunId, s: RunId)
    requires s in q && s != r
    ensures Ahead(Without(q, r), s) <= Ahead(q, s)
  {
    if q[0] != s {
      if q[0] != r {
        WithoutAhead(q[1..], r, s);
      }
    }
  }

  lemma {:induction false} AppendAhead(q: seq<RunId>, r: RunId, s: RunId)
    requires s in q
    ensures Ahead(q + [r], s) == Ahead(q, s)
  {
    assert (q + [r])[1..] == q[1..] + [r];
    if q[0] != s {
      AppendAhead(q[1..], r, s);
    }
  }

  /** Whatever one caller does to a queue, everybody else in it stays and only moves forward. */
  lemma OnlyForward(q: seq<RunId>, q': seq<RunId>, r: RunId, s: RunId)
    requires Advances(q, q', r) && s in q && s != r
    ensures s in q' && Ahead(q', s) <= Ahead(q, s)
  {
    WithoutAhead(q, r, s);
    AppendAhead(Without(q, r), r, s);
  }

  lemma {:induction false} WithoutHead(q: seq<RunId>, r: RunId)
    requires q != [] && q[0] != r
    ensures Without(q, r) != [] && Without(q, r)[0] == q[0]
  {
  }

  lemma {:induction false} WithoutAppend(q: seq<RunId>, r: RunId)
    requires r !in q
    ensures Without(q + [r], r) == q
  {
    if q == [] {
    } else {
      WithoutAppend(q[1..], r);
      assert (q + [r])[1..] == q[1..] + [r];
    }
  }

  /** What one caller can do to a queue: nothing, drop out of it, or go to its back. */
  predicate Advances(q: seq<RunId>, q': seq<RunId>, r: RunId) {
    q' == q || q' == Without(q, r) || q' == Without(q, r) + [r]
  }

  // ---- Operations -------------------------------------------------------------------

  /** The queue of `w` once caller `r` wants `candidates` instead of what it wanted. */
  function Requeued(f: Fleet, r: RunId, candidates: seq<WorkerId>, w: WorkerId): seq<RunId>
    requires w in f.queues
  {
    if w in f.Wants(r) && w !in candidates then Without(f.queues[w], r)
    else if w in candidates && w !in f.Wants(r) then f.queues[w] + [r]
    else f.queues[w]
  }

  /** `_sync_admission_waiter` past its guard: queue up at the back, drop out, or stay. */
  function Sync(f: Fleet, r: RunId, candidates: seq<WorkerId>): Fleet {
    if candidates == f.Wants(r) then f
    else
      f.(queues := map w | w in f.queues :: Requeued(f, r, candidates, w),
         wants := f.wants[r := candidates],
         asleep := {})
  }

  /** `_remove_admission_waiter`: leave every queue. */
  function Withdraw(f: Fleet, r: RunId): Fleet {
    Sync(f, r, [])
  }

  /** The first candidate `_try_acquire` accepts. */
  function Pick(f: Fleet, r: RunId, candidates: seq<WorkerId>): (choice: Option<WorkerId>)
    ensures choice.None? <==> !f.CanAcquire(r, candidates)
    ensures choice.Some? ==> choice.value in candidates && CanTake(f.available, f.queues, r, choice.value)
  {
    if candidates == [] then None
    else if CanTake(f.available, f.queues, r, candidates[0]) then Some(candidates[0])
    else
      assert forall w :: w in candidates ==> w == candidates[0] || w in candidates[1..];
      Pick(f, r, candidates[1..])
  }

  /** Candidates are tried in order: none before the choice could be taken. */
  lemma {:induction false} PickFirst(f: Fleet, r: RunId, candidates: seq<WorkerId>)
    requires f.CanAcquire(r, candidates)
    ensures Pick(f, r, candidates).Some?
    ensures exists k :: 0 <= k < |candidates| && candidates[k] == Pick(f, r, candidates).value
                        && forall j :: 0 <= j < k ==> !CanTake(f.available, f.queues, r, candidates[j])
    decreases |candidates|
  {
    if !CanTake(f.available, f.queues, r, candidates[0]) {
      var w :| w in candidates && CanTake(f.available, f.queues, r, w);
      assert w in candidates[1..];
      PickFirst(f, r, candidates[1..]);
      var k :| 0 <= k < |candidates[1..]| && candidates[1..][k] == Pick(f, r, candidates).value
               && forall j :: 0 <= j < k ==> !CanTake(f.available, f.queues, r, candidates[1..][j]);
      assert candidates[k + 1] == candidates[1..][k];
      forall j | 0 <= j < k + 1 ensures !CanTake(f.available, f.queues, r, candidates[j]) {
        assert j == 0 || candidates[j] == candidates[1..][j - 1];
      }
    }
  }

  /** A successful `_try_acquire`: the caller forfeits its place in every queue. */
  function Take(f: Fleet, r: RunId, w: WorkerId): Fleet {
    var g := Withdraw(f, r);
    g.(available := g.available - {w})
  }

  /** `_register` for a fresh ref. */
  function Register(f: Fleet, ref: Ref, w: WorkerId): Fleet {
    f.(active := f.active[ref := w])
  }

  /** The guard of the "released twice" error. */
  predicate ReleasesTwice(f: Fleet, w: WorkerId) {
    f.Open() && w in f.available
  }

  /** `_release` past its guard. */
  function Release(f: Fleet, w: WorkerId): Fleet {
    if f.Open() then f.(available := f.available + {w}, asleep := {}) else f
  }

  /** `_finish` past the guard of `_release`. */
  function Finish(f: Fleet, ref: Ref, w: WorkerId): Fleet {
    Release(f.(active := f.active - {ref}), w)
  }

  /** `_close`: the first error wins and every later one changes nothing. */
  function Close(f: Fleet, e: TerminalError): Fleet {
    if f.Open() then
      f.(terminal := Some(e), available := {}, active := map[],
         queues := map w | w in f.queues :: [], asleep := {})
    else f
  }

  /** The refs `_close` hands to cancellation. */
  function Doomed(f: Fleet): set<Ref> {
    if f.Open() then f.active.Keys else {}
  }

  /** The guard of the "admission lost waiter" error. */
  predicate LosesWaiter(f: Fleet, r: RunId, candidates: seq<WorkerId>) {
    exists w :: w in f.Wants(r) && w !in candidates && r !in f.Queue(w)
  }

  /** The admission task enters `Event.wait()` after clearing the event. */
  function FallAsleep(f: Fleet, r: RunId): Fleet {
    f.(asleep := f.asleep + {r})
  }

  /** Cancelling an admission task takes it off the event. */
  function Rouse(f: Fleet, r: RunId): Fleet {
    f.(asleep := f.asleep - {r})
  }

  function New(workers: seq<WorkerId>): Fleet {
    Fleet(workers, set w | w in workers, map[], map w | w in workers :: [], map[], {}, None)
  }

  // ---- Invariant ----------------------------------------------------------------------

  ghost predicate Shape(workers: seq<WorkerId>, queues: map<WorkerId, seq<RunId>>, wants: map<RunId, seq<WorkerId>>) {
    && NoDup(workers)
    && (forall w :: w in queues <==> w in workers)
    && (forall r, w :: w in WantsOf(wants, r) ==> w in workers)
    && (forall r :: NoDup(WantsOf(wants, r)))
  }

  /** Free workers and workers of registered refs partition the fleet, one ref per worker. */
  ghost predicate Slots(workers: seq<WorkerId>, available: set<WorkerId>, active: map<Ref, WorkerId>) {
    && (forall w :: w in available ==> w in workers)
    && (forall ref :: ref in active ==> active[ref] in workers && active[ref] !in available)
    && (forall a, b :: a in active && b in active && active[a] == active[b] ==> a == b)
    && (forall w :: w in workers ==> w in available || exists ref :: ref in active && active[ref] == w)
  }

  /** A caller stands in a worker's queue, once, exactly when it wants that worker. */
  ghost predicate Queues(queues: map<WorkerId, seq<RunId>>, wants: map<RunId, seq<WorkerId>>) {
    && (forall w :: NoDup(QueueOf(queues, w)))
    && (forall r, w :: w in queues ==> (r in QueueOf(queues, w) <==> w in WantsOf(wants, r)))
  }

  /** No lost wakeup: an un-notified sleeper wants something and can acquire none of it. */
  ghost predicate Wakeups(
    available: set<WorkerId>, queues: map<WorkerId, seq<RunId>>, wants: map<RunId, seq<WorkerId>>, asleep: set<RunId>)
  {
    forall r :: r in asleep ==>
      WantsOf(wants, r) != [] && !CanAcquireFrom(available, queues, r, WantsOf(wants, r))
  }

  ghost predicate FleetOk(f: Fleet) {
    && Shape(f.workers, f.queues, f.wants)
    && (f.Open() ==>
          && Slots(f.workers, f.available, f.active)
          && Queues(f.queues, f.wants)
          && Wakeups(f.available, f.queues, f.wants, f.asleep))
    && (!f.Open() ==>
          f.available == {} && f.active == map[] && f.asleep == {}
          && forall w :: w in f.queues ==> f.queues[w] == [])
  }

  // ---- What each operation keeps ------------------------------------------------------

  lemma ShapeUpdate(f: Fleet, queues: map<WorkerId, seq<RunId>>, r: RunId, candidates: seq<WorkerId>)
    requires Shape(f.workers, f.queues, f.wants)
    requires queues.Keys == f.queues.Keys && NoDup(candidates)
    requires forall w :: w in candidates ==> w in f.workers
    ensures Shape(f.workers, queues, f.wants[r := candidates])
    ensures forall s :: WantsOf(f.wants[r := candidates], s) == if s == r then candidates else WantsOf(f.wants, s)
  {
    var wants := f.wants[r := candidates];
    forall s, w | w in WantsOf(wants, s) ensures w in f.workers {
      assert s == r || w in WantsOf(f.wants, s);
    }
    forall s ensures NoDup(WantsOf(wants, s)) {
      assert s == r || NoDup(WantsOf(f.wants, s));
    }
    assert forall w :: w in queues <==> w in queues.Keys;
    assert forall w :: w in f.queues <==> w in f.queues.Keys;
  }

  lemma NewOk(workers: seq<WorkerId>)
    requires NoDup(workers)
    ensures FleetOk(New(workers)) && New(workers).Open()
  {
  }

  lemma {:induction false} WithoutElements(q: seq<RunId>, r: RunId)
    requires NoDup(q)
    ensures NoDup(Without(q, r)) && r !in Without(q, r)
  {
    if q != [] && q[0] != r {
      var rest := q[1..];
      assert NoDup(rest);
      WithoutElements(rest, r);
      assert q[0] !in rest;
      assert q[0] !in Without(rest, r);
    }
  }

  /** One queue after re-queueing `r`: nobody else moves, and `r` stands in it iff it wants the worker. */
  lemma RequeuedOk(f: Fleet, r: RunId, candidates: seq<WorkerId>, w: WorkerId)
    requires Queues(f.queues, f.wants) && w in f.queues
    ensures var q := Requeued(f, r, candidates, w);
            && NoDup(q)
            && Advances(f.queues[w], q, r)
            && (r in q <==> w in candidates)
            && (forall s :: s != r ==> (s in q <==> s in f.queues[w]))
  {
    var q := QueueOf(f.queues, w);
    assert r in q <==> w in WantsOf(f.wants, r);
    WithoutElements(q, r);
    if r !in q {
      WithoutAppend(q, r);
    }
  }

  /** Re-queueing keeps the discipline and the other callers' order; the "lost waiter" guard cannot fire. */
  lemma SyncOk(f: Fleet, r: RunId, candidates: seq<WorkerId>)
    requires FleetOk(f) && NoDup(candidates)
    requires f.Open() || candidates == []
    requires forall w :: w in candidates ==> w in f.workers
    ensures FleetOk(Sync(f, r, candidates)) && Sync(f, r, candidates).Wants(r) == candidates
    ensures forall s :: s != r ==> Sync(f, r, candidates).Wants(s) == f.Wants(s)
    ensures f.Open() ==> !LosesWaiter(f, r, candidates)
    ensures f.Open() ==> forall w :: Advances(f.Queue(w), Sync(f, r, candidates).Queue(w), r)
  {
    var g := Sync(f, r, candidates);
    if candidates != f.Wants(r) {
      ShapeUpdate(f, g.queues, r, candidates);
      if f.Open() {
        forall w | w in f.queues ensures g.queues[w] == Requeued(f, r, candidates, w) {
        }
        SyncQueues(f, r, candidates);
      }
    }
  }

  lemma SyncQueues(f: Fleet, r: RunId, candidates: seq<WorkerId>)
    requires Queues(f.queues, f.wants) && candidates != f.Wants(r)
    ensures var g := Sync(f, r, candidates);
            && Queues(g.queues, g.wants)
            && forall w :: Advances(f.Queue(w), g.Queue(w), r)
  {
    var g := Sync(f, r, candidates);
    forall w ensures NoDup(QueueOf(g.queues, w)) && Advances(f.Queue(w), QueueOf(g.queues, w), r) {
      if w in f.queues {
        RequeuedOk(f, r, candidates, w);
      }
    }
    forall s, w | w in g.queues ensures s in QueueOf(g.queues, w) <==> w in WantsOf(g.wants, s) {
      RequeuedOk(f, r, candidates, w);
      assert s in QueueOf(f.queues, w) <==> w in WantsOf(f.wants, s);
    }
  }

  /** While a slot is taken but not yet registered, the partition misses exactly that worker. */
  ghost predicate SlotsBut(workers: seq<WorkerId>, available: set<WorkerId>, active: map<Ref, WorkerId>, w: WorkerId) {
    && w in workers && w !in available && (forall ref :: ref in active ==> active[ref] != w)
    && Slots(workers, available + {w}, active)
  }

  /** A fleet in the middle of a submission: slot `w` is taken and has no ref yet. */
  ghost predicate TakenOk(f: Fleet, w: WorkerId) {
    && f.Open()
    && Shape(f.workers, f.queues, f.wants)
    && SlotsBut(f.workers, f.available, f.active, w)
    && Queues(f.queues, f.wants)
    && Wakeups(f.available, f.queues, f.wants, f.asleep)
  }

  /** Fewer free workers wake nobody. */
  lemma FewerFree(
    more: set<WorkerId>, fewer: set<WorkerId>, queues: map<WorkerId, seq<RunId>>,
    wants: map<RunId, seq<WorkerId>>, asleep: set<RunId>)
    requires fewer <= more && Wakeups(more, queues, wants, asleep)
    ensures Wakeups(fewer, queues, wants, asleep)
  {
  }

  lemma TakeOk(f: Fleet, r: RunId, w: WorkerId)
    requires FleetOk(f) && f.Open() && CanTake(f.available, f.queues, r, w)
    ensures TakenOk(Take(f, r, w), w) && Take(f, r, w).Wants(r) == []
    ensures forall v :: Take(f, r, w).Queue(v) == Without(f.Queue(v), r)
  {
    forall v ensures Take(f, r, w).Queue(v) == Without(f.Queue(v), r) {
      if v in f.queues {
        RequeuedOk(f, r, [], v);
        assert r in QueueOf(f.queues, v) <==> v in WantsOf(f.wants, r);
      }
    }
    SyncOk(f, r, []);
    var g := Withdraw(f, r);
    assert g.available - {w} + {w} == g.available;
    FewerFree(g.available, g.available - {w}, g.queues, g.wants, g.asleep);
  }

  lemma RegisterOk(f: Fleet, ref: Ref, w: WorkerId)
    requires TakenOk(f, w) && ref !in f.active
    ensures FleetOk(Register(f, ref, w))
  {
    var active := f.active[ref := w];
    forall v | v in f.workers
      ensures v in f.available || exists x :: x in active && active[x] == v
    {
      if v == w {
        assert active[ref] == v;
      } else if v !in f.available {
        assert v !in f.available + {w};
        var x :| x in f.active && f.active[x] == v;
        assert active[x] == v;
      }
    }
    assert Slots(f.workers, f.available, active);
  }

  lemma ReleaseOk(f: Fleet, w: WorkerId)
    requires TakenOk(f, w)
    ensures FleetOk(Release(f, w)) && !ReleasesTwice(f, w)
  {
  }

  /** Finishing a registered ref gives its slot back; the "released twice" guard cannot fire. */
  lemma FinishOk(f: Fleet, ref: Ref, w: WorkerId)
    requires FleetOk(f)
    requires f.Open() ==> ref in f.active && f.active[ref] == w
    ensures FleetOk(Finish(f, ref, w)) && !ReleasesTwice(f, w)
  {
    if f.Open() {
      var active := f.active - {ref};
      forall v | v in f.workers
        ensures v in f.available + {w} || exists x :: x in active && active[x] == v
      {
        if v !in f.available + {w} {
          var x :| x in f.active && f.active[x] == v;
          assert x in active && active[x] == v;
        }
      }
      assert Slots(f.workers, f.available + {w}, active);
    }
  }

  lemma CloseOk(f: Fleet, e: TerminalError)
    requires Shape(f.workers, f.queues, f.wants)
    requires !f.Open() ==> FleetOk(f)
    ensures FleetOk(Close(f, e)) && !Close(f, e).Open()
    ensures forall later :: Close(Close(f, e), later) == Close(f, e)
    ensures Doomed(Close(f, e)) == {}
  {
  }

  lemma FallAsleepOk(f: Fleet, r: RunId)
    requires FleetOk(f) && f.Open() && f.Wants(r) != [] && !f.CanAcquire(r, f.Wants(r))
    ensures FleetOk(FallAsleep(f, r))
  {
  }

  lemma RouseOk(f: Fleet, r: RunId)
    requires FleetOk(f)
    ensures FleetOk(Rouse(f, r))
  {
  }
}

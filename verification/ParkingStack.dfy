/** The parking session (vrl/models/parking.py), the reward scorer above it (vrl/rewards/runtime.py)
    and the residency flag above that (vrl/rewards/base.py), as objects whose calls can fail at
    every external operation. `faulty` says that external operations may fail during a call. What a
    session does on the device-move ledger itself is in `TrainingParking`. */
module ParkingStack {
  import opened Environment
  import opened Sequences

  type Model = int

  datatype Mechanism = Cumem | Reload | MoveOut

  /** How a call ends: normally, with the typed failure of an unusable pool, with a move whose
      rollback failed too, or with any other error. */
  datatype Raised = Fine | CumemBroken | ParkingBroken | OtherError

  datatype Pool = Pool(asleep: bool, claimed: bool, closed: bool)

  datatype Backend = NoBackend | PoolBackend(pool: Pool) | ReloadBackend | LedgerBackend

  class ParkingSession {
    var backend: Backend
    var parked: bool
    var held: Option<Model>

    constructor ()
      ensures backend == NoBackend && !parked && held == None
    {
      backend, parked, held := NoBackend, false, None;
    }

    predicate PoolOpen()
      reads this
    {
      backend.PoolBackend? && !backend.pool.closed
    }

    /** An open pool sleeps exactly while the session is parked. */
    predicate InStep()
      reads this
    {
      backend.PoolBackend? ==> (backend.pool.asleep <==> parked)
    }

    /** Ready for park and restore: a committed backend, and an object to give back unless the
        mechanism rebuilds it. */
    predicate Usable()
      reads this
    {
      && backend != NoBackend && InStep()
      && (backend.PoolBackend? ==> !backend.pool.closed && held.Some?)
      && (backend.LedgerBackend? ==> held.Some?)
      && (backend.ReloadBackend? && parked ==> held.None?)
    }

    /** `_close_pool` around `CumemPool.close`. The guard against closing a sleeping pool is the
        precondition: no caller can run into it. */
    method ClosePool(faulty: bool, pool: Pool) returns (raised: Raised)
      requires !pool.asleep
      modifies `backend
      ensures raised == Fine || raised == CumemBroken
      ensures !faulty ==> raised == Fine
      ensures raised == Fine ==>
                backend == if old(backend).PoolBackend? then PoolBackend(pool.(closed := true)) else old(backend)
      ensures raised == CumemBroken ==> backend == PoolBackend(pool) && !pool.closed
    {
      if !pool.closed {
        var ok := External(faulty);
        if !ok {
          backend := PoolBackend(pool);
          return CumemBroken;
        }
      }
      if backend.PoolBackend? {
        backend := PoolBackend(pool.(closed := true));
      }
      return Fine;
    }

    /** Build once and commit the mechanism. A failed build leaves no pool behind, or says so. */
    method Build(faulty: bool, mechanism: Mechanism, resident: bool) returns (raised: Raised, model: Option<Model>)
      modifies this
      requires backend == NoBackend && !parked && held == None
      ensures raised == Fine ==> model.Some? && held == model && !parked && Usable()
      ensures raised == Fine ==>
                backend == match mechanism
                           case Reload => ReloadBackend
                           case MoveOut => LedgerBackend
                           case Cumem => if resident then PoolBackend(Pool(false, true, false)) else LedgerBackend
      ensures raised == OtherError ==> backend == NoBackend && !parked && held == None
      ensures raised == CumemBroken ==> mechanism == Cumem && PoolOpen() && InStep() && !parked
      ensures raised != ParkingBroken && (!faulty ==> raised == Fine)
    {
      model := None;
      if mechanism != Cumem {
        var ok := External(faulty);
        if !ok {
          return OtherError, None;
        }
        var m: Model := *;
        held := Some(m);
        backend := if mechanism == Reload then ReloadBackend else LedgerBackend;
        return Fine, held;
      }
      var available := External(faulty);
      if !available {
        return OtherError, None;
      }
      var pool := Pool(false, true, false);
      var built := External(faulty);
      if !built {
        raised := ClosePool(faulty, pool);
        return if raised == Fine then OtherError else raised, None;
      }
      var m: Model := *;
      held := Some(m);
      if !resident {
        raised := ClosePool(faulty, pool);
        if raised != Fine {
          return raised, None;
        }
        backend := LedgerBackend;
        return Fine, held;
      }
      backend := PoolBackend(pool);
      return Fine, held;
    }

    /** Release the card; idempotent. Anything but a broken pool or rollback leaves a state from
        which a retry can park. */
    method Park(faulty: bool) returns (raised: Raised)
      requires Usable() || backend == NoBackend
      modifies this
      ensures old(backend) == NoBackend ==> raised == OtherError && unchanged(this)
      ensures old(backend) != NoBackend ==> ParkedAs(old(backend), old(parked), old(held), faulty, raised)
    {
      if backend == NoBackend {
        return OtherError;   // `_require_backend`
      }
      raised := Release(faulty);
    }

    /** How `park` ends on a committed backend. */
    ghost predicate ParkedAs(before: Backend, was: bool, model: Option<Model>, faulty: bool, raised: Raised)
      reads this
    {
      && (Usable() || raised == ParkingBroken)
      && (backend == before
            || (before.PoolBackend? && backend == PoolBackend(before.pool.(asleep := true)) && raised == Fine))
      && (raised == Fine <==> parked)
      && (!faulty ==> raised == Fine)
      && (raised == CumemBroken ==> backend.PoolBackend? && !parked)
      && (raised == ParkingBroken ==> backend.LedgerBackend? && !parked)
      && held == if backend.ReloadBackend? && !was then None else model
    }

    method Release(faulty: bool) returns (raised: Raised)
      requires Usable()
      modifies this
      ensures ParkedAs(old(backend), old(parked), old(held), faulty, raised)
    {
      if parked {
        return Fine;
      }
      match backend {
        case ReloadBackend =>
          held := None;
          var ok := External(faulty);
          if !ok {
            return OtherError;
          }
        case PoolBackend(pool) =>
          var ok := External(faulty);
          if !ok {
            return CumemBroken;
          }
          backend := PoolBackend(pool.(asleep := true));
        case LedgerBackend =>
          var moved := External(faulty);
          if !moved {
            var undone := External(faulty);
            return if undone then OtherError else ParkingBroken;
          }
      }
      parked := true;
      return Fine;
    }

    /** Bring the card back and return the live object. A failure leaves the session parked. */
    method Restore(faulty: bool) returns (raised: Raised, model: Option<Model>)
      requires Usable() || backend == NoBackend
      modifies this
      ensures old(backend) == NoBackend ==> raised == OtherError && model == None && unchanged(this)
      ensures old(backend) != NoBackend ==> Usable() && (!faulty ==> raised == Fine)
      ensures raised != ParkingBroken && (raised == CumemBroken ==> backend.PoolBackend?)
      ensures raised == Fine ==> model.Some? && held == model && !parked
      ensures raised == Fine ==>
                backend == if old(backend).PoolBackend? then PoolBackend(old(backend).pool.(asleep := false))
                    else old(backend)
      ensures raised == Fine && old(held).Some? ==> held == old(held)
      ensures raised != Fine ==> unchanged(this) && model == None
    {
      if backend == NoBackend {
        return OtherError, None;   // `_require_backend`
      }
      match backend {
        case ReloadBackend =>
          if held == None {
            var ok := External(faulty);
            if !ok {
              return OtherError, None;
            }
            var m: Model := *;
            held := Some(m);
          }
        case PoolBackend(pool) =>
          if !parked {
            return Fine, held;
          }
          var ok := External(faulty);
          if !ok {
            return CumemBroken, None;
          }
          backend := PoolBackend(pool.(asleep := false));
        case LedgerBackend =>
          if !parked {
            return Fine, held;
          }
          var ok := External(faulty);
          if !ok {
            return OtherError, None;
          }
      }
      parked := false;
      return Fine, held;
    }

    /** What `release_scope` can have left behind when it failed and is entered again. */
    predicate Releasable()
      reads this
    {
      InStep() && (backend.PoolBackend? && backend.pool.closed ==> !parked)
    }

    /** `release_scope` up to its yield: wake a sleeping pool. */
    method WakeForRelease(faulty: bool) returns (raised: Raised)
      requires Releasable()
      modifies this
      ensures raised == Fine
                || (raised == CumemBroken && backend == old(backend) && parked && old(parked) && PoolOpen())
      ensures raised == Fine ==> Releasable() && (backend.PoolBackend? ==> !parked)
      ensures raised == Fine ==>
                (backend.PoolBackend? <==> old(backend).PoolBackend?) && (PoolOpen() <==> old(PoolOpen()))
      ensures !faulty ==> raised == Fine
    {
      match backend {
        case PoolBackend(pool) =>
          if parked {
            var ok := External(faulty);
            if !ok {
              return CumemBroken;
            }
            backend := PoolBackend(pool.(asleep := false));
            parked := false;
          }
        case _ =>
      }
      return Fine;
    }

    /** `release_scope` after its yield: drop the object, free, close the pool. */
    method FinishRelease(faulty: bool) returns (raised: Raised)
      requires Releasable() && (backend.PoolBackend? ==> !parked)
      modifies this
      ensures raised != ParkingBroken && Releasable() && (backend.PoolBackend? ==> !parked)
      ensures raised == Fine ==> backend == NoBackend && !parked && held == None
      ensures raised == CumemBroken ==> PoolOpen()
      ensures PoolOpen() ==> old(PoolOpen())
      ensures !faulty ==> raised == Fine
    {
      held := None;
      var ok := External(faulty);
      if !ok {
        return OtherError;
      }
      match backend {
        case PoolBackend(pool) =>
          raised := ClosePool(faulty, pool);
          if raised != Fine {
            return;
          }
          ok := External(faulty);
          if !ok {
            return OtherError;
          }
        case _ =>
      }
      backend, parked := NoBackend, false;
      return Fine;
    }
  }
}

/** The reward owners above the parking session: `RewardParking` and `InProcessRewardScorer`
    (vrl/rewards/runtime.py), `ModelRewardFunction` (vrl/rewards/base.py) and the runtime that
    closes admission. Every public call keeps one invariant, whatever fails inside it. */
module RewardStack {
  import opened Environment
  import opened Sequences
  import opened ParkingStack

  class RewardParking {
    const required: bool
    const mechanism: Mechanism
    var session: ParkingSession?
    var broken: bool

    constructor (required: bool, mechanism: Mechanism)
      requires mechanism != MoveOut
      ensures this.required == required && this.mechanism == mechanism && session == null && !broken
    {
      this.required, this.mechanism := required, mechanism;
      session, broken := null, false;
    }

    function Repr(): set<object>
      reads this
    {
      if session == null then {this} else {this, session}
    }

    /** While scoring is admitted: a built session can park and restore, and only an owner that
        must park has one. */
    ghost predicate Ready()
      reads Repr()
    {
      && mechanism != MoveOut
      && (session != null ==> required && session.Usable() && !session.backend.LedgerBackend?)
    }

    /** The model is on the card and is the one the session holds. */
    ghost predicate Resident(model: Model)
      reads Repr()
    {
      required ==> session != null && !session.parked && session.held == Some(model) && session.Usable()
                   && (session.backend.PoolBackend? ==> !session.backend.pool.asleep && !session.backend.pool.closed)
    }

    method Build(faulty: bool) returns (raised: Raised, model: Option<Model>)
      requires session == null && mechanism != MoveOut
      modifies this
      ensures raised != ParkingBroken && (raised == Fine <==> model.Some?)
      ensures old(broken) ==> raised == CumemBroken && unchanged(this)
      ensures broken <==> raised == CumemBroken
      ensures raised == Fine ==>
                fresh(Repr() - {this}) && Ready() && Resident(model.value) && (session != null <==> required)
      ensures raised == OtherError ==> session == null
      ensures !faulty && !old(broken) ==> raised == Fine
      ensures session == null || fresh(session)
    {
      if broken {
        return CumemBroken, None;
      }
      if !required {
        var ok := External(faulty);
        if !ok {
          return OtherError, None;
        }
        var m: Model := *;
        return Fine, Some(m);
      }
      var candidate := new ParkingSession();
      raised, model := candidate.Build(faulty, mechanism, true);
      if raised == CumemBroken {
        session, broken := candidate, true;
        return CumemBroken, None;
      }
      if raised != Fine {
        var _ := External(faulty);   // the device cache; its failure replaces one plain error by another
        return OtherError, None;
      }
      session := candidate;
    }

    method Restore(faulty: bool) returns (raised: Raised, model: Option<Model>)
      requires !broken ==> Ready()
      modifies Repr()
      ensures session == old(session) && (!broken ==> Ready())
      ensures raised != ParkingBroken && (broken <==> raised == CumemBroken)
      ensures old(broken) ==> raised == CumemBroken
      ensures raised == Fine ==> (model == None <==> session == null)
      ensures session == null && !old(broken) ==> raised == Fine
      ensures raised != Fine ==> model == None
      ensures raised == Fine && model.Some? ==> Resident(model.value)
      ensures raised == OtherError && session != null ==>
                session.parked == old(session.parked) && session.held == old(session.held)
      ensures !faulty && !old(broken) ==> raised == Fine
    {
      if broken {
        return CumemBroken, None;
      }
      if session == null {
        return Fine, None;
      }
      raised, model := session.Restore(faulty);
      if raised == CumemBroken {
        broken := true;
      }
    }

    method Park(faulty: bool) returns (raised: Raised)
      requires !broken ==> Ready()
      modifies Repr()
      ensures session == old(session) && (!broken ==> Ready())
      ensures raised != ParkingBroken && (broken <==> raised == CumemBroken)
      ensures old(broken) ==> raised == CumemBroken
      ensures raised == Fine ==> required && session != null && session.parked
      ensures session == null && !old(broken) ==> raised == OtherError
      ensures !faulty && !old(broken) ==> (raised == Fine <==> session != null)
    {
      if broken {
        return CumemBroken;
      }
      if !required || session == null {
        return OtherError;
      }
      raised := session.Park(faulty);
      if raised == CumemBroken {
        broken := true;
      }
      if raised != Fine {
        return;
      }
      var ok := External(faulty);
      return if ok then Fine else OtherError;
    }

    /** After a teardown has begun. */
    ghost predicate Releasable()
      reads Repr()
    {
      session != null ==> session.Releasable()
    }

    /** `release_scope` up to the owner's drop. */
    method BeginRelease(faulty: bool) returns (raised: Raised)
      requires !broken ==> Releasable()
      modifies Repr()
      ensures session == old(session) && (!broken ==> Releasable())
      ensures raised == Fine || raised == CumemBroken
      ensures broken <==> raised == CumemBroken
      ensures old(broken) ==> raised == CumemBroken
      ensures raised == Fine && session != null ==> session.backend.PoolBackend? ==> !session.parked
      ensures raised != Fine && !old(broken) ==> session != null && old(session.parked)
      ensures !faulty && !old(broken) ==> raised == Fine
    {
      if broken {
        return CumemBroken;
      }
      if session == null {
        return Fine;
      }
      raised := session.WakeForRelease(faulty);
      if raised != Fine {
        broken := true;
      }
    }

    /** `release_scope` after the owner's drop. */
    method FinishRelease(faulty: bool) returns (raised: Raised)
      requires !broken && Releasable() && (session != null ==> session.backend.PoolBackend? ==> !session.parked)
      modifies Repr()
      ensures !broken ==> Releasable()
      ensures raised != ParkingBroken && (broken <==> raised == CumemBroken)
      ensures session == null || session == old(session)
      ensures raised == Fine ==> session == null && (old(session) != null ==> !old(session).PoolOpen())
      ensures !faulty ==> raised == Fine
    {
      if session != null {
        raised := session.FinishRelease(faulty);
        if raised != Fine {
          broken := raised == CumemBroken;
          return;
        }
      }
      var ok := External(faulty);
      if !ok {
        return OtherError;
      }
      session := null;
      return Fine;
    }
  }

  datatype Phase = Running | ShuttingDown | Terminated

  /** The scorer's reference to the model, the function's residency flag and the runtime's phase sit
      on one parking owner. */
  class RewardRuntime {
    const parking: RewardParking
    const hasFactory: bool
    var model: Option<Model>   // `InProcessRewardScorer._model`
    var flag: bool             // `ModelRewardFunction._parked`
    var phase: Phase

    constructor (required: bool, mechanism: Mechanism, hasFactory: bool, model: Option<Model>)
      requires mechanism != MoveOut
      requires required ==> model == None   // checked by `InProcessRewardScorer.__init__`
      ensures Valid() && fresh(Repr()) && phase == Running && !parking.broken && parking.required == required
      ensures this.model == model && this.hasFactory == hasFactory && flag && parking.session == null
    {
      parking := new RewardParking(required, mechanism);
      this.hasFactory, this.model := hasFactory, model;
      flag, phase := true, Running;
    }

    function Repr(): set<object>
      reads this, parking
    {
      {this} + parking.Repr()
    }

    /** While work is admitted and the pool is healthy, the scorer's reference is the resident model;
        a broken pool leaves no reference. */
    ghost predicate Consistent()
      reads this, parking, parking.Repr()
    {
      && (phase == Running && !parking.broken ==>
            && parking.Ready()
            && (model.Some? ==> parking.Resident(model.value)))
      && (parking.broken ==> model == None)
      && (phase == ShuttingDown ==> model == None && (!parking.broken ==> parking.Releasable()))
      && (phase == Terminated ==> parking.session == null && model == None && !parking.broken)
    }

    /** A raised flag means that nothing of a parking owner is on the card. */
    ghost predicate Valid()
      reads this, parking, parking.Repr()
    {
      && Consistent()
      && (phase == Running && !parking.broken && flag && parking.session != null ==> parking.session.parked)
    }

    /** Nothing is built and there is nothing to build it with. */
    ghost predicate Unbuildable()
      reads this, parking
    {
      model == None && !hasFactory && parking.session == null && !parking.broken
    }

    /** `_resident_model`: keep, wake, rebuild or build. What it returns is on the card. */
    method ResidentModel(faulty: bool) returns (raised: Raised)
      requires Valid() && phase == Running
      modifies Repr()
      ensures Consistent() && phase == Running && flag == old(flag)
      ensures fresh(Repr() - old(Repr()))
      ensures raised == Fine ==> model.Some? && parking.Resident(model.value) && !parking.broken
      ensures raised != Fine ==> Valid()
      ensures raised != ParkingBroken && (parking.broken <==> raised == CumemBroken)
      ensures old(parking.broken) ==> raised == CumemBroken
      ensures !faulty && !old(parking.broken) && hasFactory ==> raised == Fine
      ensures old(Unbuildable()) ==> raised == OtherError && Unbuildable()
    {
      if model.Some? {
        return Fine;
      }
      raised, model := parking.Restore(faulty);
      if raised == Fine && model == None {
        if !hasFactory {
          return OtherError;
        }
        raised, model := parking.Build(faulty);
      }
    }

    /** `activate`, behind the runtime's admission check. */
    method Activate(faulty: bool) returns (raised: Raised)
      requires Valid()
      modifies Repr()
      ensures Valid() && phase == old(phase) && fresh(Repr() - old(Repr()))
      ensures raised == Fine ==> phase == Running && model.Some? && parking.Resident(model.value)
      ensures raised != Fine ==> flag == old(flag)
      ensures old(Unbuildable()) ==> raised == OtherError && Unbuildable()
      ensures old(parking.broken) ==> parking.broken && raised != Fine
    {
      if phase != Running {
        return OtherError;
      }
      raised := ResidentModel(faulty);
      if raised == Fine {
        flag := false;
      }
    }

    /** `score`: the flag falls before the scorer is asked; the model that scores is on the card. */
    method Score(faulty: bool) returns (raised: Raised, scoredBy: Option<Model>)
      requires Valid()
      modifies Repr()
      ensures Valid() && phase == old(phase) && fresh(Repr() - old(Repr()))
      ensures scoredBy.Some? ==> model == scoredBy && parking.Resident(scoredBy.value) && !parking.broken
      ensures raised == Fine ==> scoredBy.Some?
      ensures old(parking.broken) ==> parking.broken && raised != Fine && scoredBy == None
      ensures phase == Running ==> !flag
      ensures old(Unbuildable()) ==> raised == OtherError && Unbuildable()
    {
      if phase != Running {
        return OtherError, None;
      }
      flag := false;
      raised := ResidentModel(faulty);
      if raised != Fine {
        return raised, None;
      }
      scoredBy := model;
      var ok := External(faulty);
      raised := if ok then Fine else OtherError;
    }

    /** `park_memory`. A call in which nothing external fails parks what is built, whatever failed
        before; it raises only when the pool is broken or no model was ever built. */
    method ParkMemory(faulty: bool) returns (raised: Raised)
      requires Valid()
      modifies Repr()
      ensures Valid() && phase == old(phase) && Repr() == old(Repr())
      ensures raised == Fine && phase == Running && parking.required ==>
                flag && (parking.session != null && !parking.broken ==> parking.session.parked)
      ensures !faulty && phase == Running && !old(parking.broken) && parking.required ==>
                (raised == Fine <==> old(flag) || parking.session != null)
      ensures phase == Running && !old(parking.broken) && parking.required && !old(flag) && parking.session == null ==>
                raised == OtherError
      ensures old(parking.broken) ==> parking.broken && (raised == Fine ==> old(flag) || !parking.required)
    {
      if phase != Running {
        return OtherError;
      }
      if !parking.required || flag {
        return Fine;
      }
      model := None;
      raised := parking.Park(faulty);
      if raised == Fine {
        flag := true;
      }
    }

    /** `shutdown`: close admission, then release; a failed release can be tried again. */
    method Shutdown(faulty: bool) returns (raised: Raised)
      requires Valid()
      modifies Repr()
      ensures Valid() && phase != Running
      ensures raised == Fine <==> phase == Terminated
      ensures raised == Fine && old(phase) != Terminated && old(parking.session) != null ==>
                !old(parking.session).PoolOpen()
      ensures !faulty && !old(parking.broken) ==> phase == Terminated
      ensures old(parking.broken) ==> parking.broken && raised != Fine
    {
      if phase == Terminated {
        return Fine;
      }
      phase := ShuttingDown;
      raised := parking.BeginRelease(faulty);
      if raised != Fine {
        return;
      }
      model := None;
      raised := parking.FinishRelease(faulty);
      if raised == Fine {
        phase := Terminated;
      }
    }
  }

  /** A reward that must park but has no model factory, in a process where nothing external fails. Its
      first `score` raises, and the park after it raises too, because the flag fell before the model
      was asked for; after a failed `activate` the park reaches nothing. */
  method ParkAfterFailure(mechanism: Mechanism)
    returns (scored: Raised, afterScore: Raised, activated: Raised, afterActivate: Raised)
    requires mechanism != MoveOut
    ensures scored == OtherError && afterScore == OtherError
    ensures activated == OtherError && afterActivate == Fine
  {
    var runtime := new RewardRuntime(true, mechanism, false, None);
    var scoredBy;
    scored, scoredBy := runtime.Score(false);
    afterScore := runtime.ParkMemory(false);
    runtime := new RewardRuntime(true, mechanism, false, None);
    activated := runtime.Activate(false);
    afterActivate := runtime.ParkMemory(false);
  }
}

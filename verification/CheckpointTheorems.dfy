/** What the all-rank checkpoint protocol guarantees on every schedule, and exactly when. */
module CheckpointTheorems {
  import opened Sequences
  import opened CheckpointRanks
  import opened CheckpointLockstep

  /** Some rank waits for a peer that has already left. */
  ghost predicate Stranded(ranks: seq<Rank>) {
    exists i, j :: 0 <= i < |ranks| && 0 <= j < |ranks| && ranks[i].position.At? && ranks[j].position.Left?
  }

  predicate AllLeft(ranks: seq<Rank>) {
    forall i :: 0 <= i < |ranks| ==> ranks[i].position.Left?
  }

  /** The two checks the program makes outside any agreement fall alike on every rank: the
      argument validation, and the RNG gather if it is reached at all. */
  ghost predicate Agreeing(lucks: seq<Luck>) {
    && (AllValid(lucks) || forall i :: 0 <= i < |lucks| ==> !lucks[i].valid)
    && (Passed(lucks, GatherRng) ==> AllRng(lucks) || forall i :: 0 <= i < |lucks| ==> !lucks[i].rng)
  }

  /** With agreement every rank heads for the same place. */
  lemma SameTarget(lucks: seq<Luck>, c: Collective, i: nat, j: nat)
    requires i < |lucks| && j < |lucks| && Passed(lucks, c) && Agreeing(lucks)
    ensures Target(lucks, c, i) == Target(lucks, c, j)
  {
  }

  // ---- Lockstep ---------------------------------------------------------------------------

  /** Ranks that are blocked are blocked in the same collective, and none of them waits for a
      peer that has left. */
  lemma Lockstep(lucks: seq<Luck>, ranks: seq<Rank>)
    requires Reachable(lucks, ranks) && Agreeing(lucks)
    ensures !Stranded(ranks)
    ensures forall i, j :: 0 <= i < |ranks| && 0 <= j < |ranks| && ranks[i].position.At? && ranks[j].position.At? ==>
              ranks[i].position.collective == ranks[j].position.collective
  {
    ReachableOk(lucks, ranks);
    var c, pre :| Good(lucks, c, pre) && Between(lucks, pre, ranks);
    forall i, j | 0 <= i < |ranks| && 0 <= j < |ranks| && ranks[i].position.At? && !ranks[j].position.Local?
      ensures ranks[j].position.At? && ranks[i].position.collective == ranks[j].position.collective
    {
      assert GoodRank(lucks, c, i, pre[i]) && GoodRank(lucks, c, j, pre[j]);
      AdvanceGoes(lucks, c, i, pre[i]);
      AdvanceGoes(lucks, c, j, pre[j]);
      SameTarget(lucks, c, i, j);
    }
  }

  /** Until everybody has left, somebody can move. */
  lemma NeverStuck(lucks: seq<Luck>, ranks: seq<Rank>)
    requires Reachable(lucks, ranks) && Agreeing(lucks) && !AllLeft(ranks)
    ensures exists step :: Enabled(ranks, step)
  {
    Lockstep(lucks, ranks);
    ReachableOk(lucks, ranks);
    if i :| 0 <= i < |ranks| && ranks[i].position.Local? {
      assert Enabled(ranks, Run(i));
    } else {
      assert Enabled(ranks, Join);
    }
  }

  // ---- Schedules end ----------------------------------------------------------------------

  function Order(c: Collective): (o: nat)
    ensures o <= 14
  {
    match c
    case Entry => 0 case Setup => 1 case EmaOn => 2 case EmaOff => 3 case GatherRaw => 4 case RawDone => 5
    case GatherTrainer => 6 case TrainerDone => 7 case Preflight => 8 case SwapDone => 9 case RollbackDone => 10
    case GatherEma => 11 case Restored => 12 case GatherRng => 13 case Published => 14
  }

  function Fuel(r: Rank): nat {
    match r.position
    case Local(c, _) => 31 - 2 * Order(c)
    case At(c, _) => 32 - 2 * Order(c)
    case Left(_) => 0
  }

  function TotalFuel(ranks: seq<Rank>): nat {
    if ranks == [] then 0 else Fuel(ranks[0]) + TotalFuel(ranks[1..])
  }

  lemma {:induction false} FuelUpdate(ranks: seq<Rank>, i: nat, r: Rank)
    requires i < |ranks|
    ensures TotalFuel(ranks[i := r]) == TotalFuel(ranks) - Fuel(ranks[i]) + Fuel(r)
  {
    if i > 0 {
      FuelUpdate(ranks[1..], i - 1, r);
      assert ranks[i := r][1..] == ranks[1..][i - 1 := r];
    } else {
      assert ranks[0 := r][1..] == ranks[1..];
    }
  }

  lemma {:induction false} FuelJoined(ranks: seq<Rank>, c: Collective, reply: Reply)
    requires AllAt(ranks, c)
    ensures TotalFuel(Joined(ranks, c, reply)) == TotalFuel(ranks) - |ranks|
  {
    if ranks != [] {
      assert Joined(ranks, c, reply)[1..] == Joined(ranks[1..], c, reply);
      assert AllAt(ranks[1..], c);
      FuelJoined(ranks[1..], c, reply);
    }
  }

  /** The program only moves forward. */
  lemma TargetForward(lucks: seq<Luck>, c: Collective, i: nat)
    requires i < |lucks| && Target(lucks, c, i).Some?
    ensures Order(c) < Order(Target(lucks, c, i).value)
  {
  }

  lemma RunBurns(lucks: seq<Luck>, ranks: seq<Rank>, i: nat)
    requires Inv(lucks, ranks) && |ranks| == |lucks| && Enabled(ranks, Run(i))
    ensures Fuel(Advance(ranks[i], |ranks|, i, lucks[i])) < Fuel(ranks[i])
  {
    var c, pre :| Good(lucks, c, pre) && Between(lucks, pre, ranks);
    assert GoodRank(lucks, c, i, pre[i]);
    AdvanceGoes(lucks, c, i, pre[i]);
    hide Advance, Order, Target;
    if Target(lucks, c, i).Some? {
      TargetForward(lucks, c, i);
    }
  }

  lemma StepBurns(lucks: seq<Luck>, ranks: seq<Rank>, step: Step)
    requires Inv(lucks, ranks) && |ranks| == |lucks| && Enabled(ranks, step)
    ensures TotalFuel(Apply(lucks, ranks, step)) < TotalFuel(ranks)
  {
    match step {
      case Run(i) =>
        RunBurns(lucks, ranks, i);
        hide Advance, Fuel;
        FuelUpdate(ranks, i, Advance(ranks[i], |ranks|, i, lucks[i]));
      case Join => FuelJoined(ranks, ranks[0].position.collective, ReplyTo(ranks));
    }
  }

  lemma {:induction false} StartFuel(n: nat)
    ensures TotalFuel(Start(n)) == 31 * n
  {
    if n > 0 {
      assert Start(n)[1..] == Start(n - 1);
      StartFuel(n - 1);
    }
  }

  lemma {:induction false} ReachesBurns(lucks: seq<Luck>, from: seq<Rank>, to: seq<Rank>, steps: seq<Step>)
    requires |from| == |lucks| && Reaches(lucks, from, to, steps) && Inv(lucks, from)
    ensures |steps| + TotalFuel(to) <= TotalFuel(from)
    decreases |steps|
  {
    if steps != [] {
      StepBurns(lucks, from, steps[0]);
      StepKeeps(lucks, from, steps[0]);
      ReachesBurns(lucks, Apply(lucks, from, steps[0]), to, steps[1..]);
    }
  }

  /** No schedule runs forever: with NeverStuck, every rank leaves. */
  lemma SchedulesEnd(lucks: seq<Luck>, ranks: seq<Rank>, steps: seq<Step>)
    requires |lucks| > 0 && Reaches(lucks, Start(|lucks|), ranks, steps)
    ensures |steps| <= 31 * |lucks|
  {
    StartGood(lucks);
    ReachesBurns(lucks, Start(|lucks|), ranks, steps);
    StartFuel(|lucks|);
  }

  // ---- Outcomes ---------------------------------------------------------------------------

  lemma Leaves(lucks: seq<Luck>, c: Collective, i: nat, r: Rank)
    requires i < |lucks| && Passed(lucks, c) && GoodRank(lucks, c, i, r) && Target(lucks, c, i).None?
    ensures var r' := Advance(r, |lucks|, i, lucks[i]);
            && r'.position.Left? && r'.weights == WeightsAt(lucks[i], c) && r'.published == r.published
            && (r'.position.result.Returned? <==> c == Published && lucks[0].publish)
  {
  }

  /** A rank that left, traced back to the round it left from. */
  lemma LeftFrom(lucks: seq<Luck>, c: Collective, pre: seq<Rank>, ranks: seq<Rank>, i: nat)
    requires Good(lucks, c, pre) && Between(lucks, pre, ranks) && i < |ranks| && ranks[i].position.Left?
    ensures ranks[i].weights == WeightsAt(lucks[i], c) && Target(lucks, c, i).None?
    ensures ranks[i].position.result.Returned? <==> c == Published && lucks[0].publish
  {
    assert GoodRank(lucks, c, i, pre[i]);
    AdvanceGoes(lucks, c, i, pre[i]);
    Leaves(lucks, c, i, pre[i]);
  }

  /** All ranks return or all raise. */
  lemma SameOutcome(lucks: seq<Luck>, ranks: seq<Rank>, i: nat, j: nat)
    requires Reachable(lucks, ranks) && i < |ranks| && j < |ranks|
    requires ranks[i].position.Left? && ranks[j].position.Left?
    ensures ranks[i].position.result.Returned? <==> ranks[j].position.result.Returned?
  {
    ReachableOk(lucks, ranks);
    var c, pre :| Good(lucks, c, pre) && Between(lucks, pre, ranks);
    hide GoodRank, Between, Target;
    LeftFrom(lucks, c, pre, ranks, i);
    LeftFrom(lucks, c, pre, ranks, j);
  }

  /** A failed vote is somebody's own failure. */
  lemma SomebodysFault(lucks: seq<Luck>, c: Collective, pre: seq<Rank>)
    requires Good(lucks, c, pre)
    requires forall i :: 0 <= i < |pre| ==> Target(lucks, c, i).None?
    requires !(c == Published && lucks[0].publish)
    ensures exists i :: 0 <= i < |pre| &&
              var result := Advance(pre[i], |pre|, i, lucks[i]).position;
              result.Left? && result.result.Raised? && !result.result.failure.Peer?
  {
    var i := Culprit(lucks, c);
    assert Target(lucks, c, i).None?;
    assert GoodRank(lucks, c, i, pre[i]);
    var result := Advance(pre[i], |pre|, i, lucks[i]).position;
    assert result.Left? && result.result.Raised? && !result.result.failure.Peer?;
  }

  /** A rank whose own outcome made everybody leave after `c`. */
  ghost function Culprit(lucks: seq<Luck>, c: Collective): (i: nat)
    requires |lucks| > 0 && Passed(lucks, c) && forall i :: 0 <= i < |lucks| ==> Target(lucks, c, i).None?
    requires !(c == Published && lucks[0].publish)
    ensures i < |lucks|
    ensures match c
            case Setup => !lucks[i].setup
            case RawDone => !lucks[i].raw
            case TrainerDone => !lucks[i].trainer
            case Preflight => !lucks[i].params
            case RollbackDone => if AllRolledBack(lucks) then !lucks[i].swap else lucks[i].swap && !lucks[i].rollback
            case Restored => !(lucks[i].emaGather && lucks[i].restore)
            case Published => i == 0 && !lucks[i].publish
            case _ => i == 0
  {
    assert Target(lucks, c, 0).None?;
    match c
    case Setup => var i: nat :| i < |lucks| && !lucks[i].setup; i
    case RawDone => var i: nat :| i < |lucks| && !lucks[i].raw; i
    case TrainerDone => var i: nat :| i < |lucks| && !lucks[i].trainer; i
    case Preflight => var i: nat :| i < |lucks| && !lucks[i].params; i
    case RollbackDone =>
      if AllRolledBack(lucks) then var i: nat :| i < |lucks| && !lucks[i].swap; i
      else var i: nat :| i < |lucks| && lucks[i].swap && !lucks[i].rollback; i
    case Restored => var i: nat :| i < |lucks| && !(lucks[i].emaGather && lucks[i].restore); i
    case _ => 0
  }

  /** When all ranks have left without returning, at least one of them raised its own failure. */
  lemma RootCauseRaised(lucks: seq<Luck>, ranks: seq<Rank>)
    requires Reachable(lucks, ranks) && AllLeft(ranks)
    ensures ranks[0].position.result.Returned? ||
            exists i :: 0 <= i < |ranks| && ranks[i].position.result.Raised? && !ranks[i].position.result.failure.Peer?
  {
    ReachableOk(lucks, ranks);
    var c, pre :| Good(lucks, c, pre) && Between(lucks, pre, ranks);
    forall i | 0 <= i < |ranks|
      ensures ranks[i] == Advance(pre[i], |pre|, i, lucks[i]) && Target(lucks, c, i).None?
    {
      assert GoodRank(lucks, c, i, pre[i]);
      AdvanceGoes(lucks, c, i, pre[i]);
    }
    assert GoodRank(lucks, c, 0, pre[0]);
    Leaves(lucks, c, 0, pre[0]);
    if !(c == Published && lucks[0].publish) {
      SomebodysFault(lucks, c, pre);
    }
  }

  /** The outcome drawn for rank `i` at `c`: a check of its own, or what it votes there. */
  predicate FineAt(l: Luck, i: nat, c: Collective) {
    if c == Entry then l.valid else if c == GatherRng then l.rng else VoteAt(l, i, c)
  }

  /** What a rank raises, read off the drawn outcomes of all ranks. */
  ghost predicate Blames(lucks: seq<Luck>, i: nat, failure: Failure)
    requires i < |lucks|
  {
    && (failure.Own? ==> !FineAt(lucks[i], i, failure.at))
    && (failure.Peer? ==>
          && FineAt(lucks[i], i, failure.at)
          && exists j :: 0 <= j < |lucks| && j != i && !FineAt(lucks[j], j, failure.at))
    && (failure.Disagree? ==>
          exists j, k :: 0 <= j < |lucks| && 0 <= k < |lucks| && lucks[j].ema && !lucks[k].ema)
  }

  lemma RaiseBlames(lucks: seq<Luck>, c: Collective, i: nat, r: Rank)
    requires i < |lucks| && Passed(lucks, c) && GoodRank(lucks, c, i, r)
    ensures var position := Advance(r, |lucks|, i, lucks[i]).position;
            position.Left? && position.result.Raised? ==> Blames(lucks, i, position.result.failure)
  {
    if c == EmaOff && !AllEma(lucks) && !NoneEma(lucks) {
      var j :| 0 <= j < |lucks| && lucks[j].ema;
      var k :| 0 <= k < |lucks| && !lucks[k].ema;
    }
  }

  /** A rank that raises its own failure had that operation fail; one that reports a peer had it
      succeed, and another rank's failed. */
  lemma RaisesWhatFailed(lucks: seq<Luck>, ranks: seq<Rank>, i: nat)
    requires Reachable(lucks, ranks) && i < |ranks|
    requires ranks[i].position.Left? && ranks[i].position.result.Raised?
    ensures Blames(lucks, i, ranks[i].position.result.failure)
  {
    ReachableOk(lucks, ranks);
    var c, pre :| Good(lucks, c, pre) && Between(lucks, pre, ranks);
    assert GoodRank(lucks, c, i, pre[i]);
    RaiseBlames(lucks, c, i, pre[i]);
  }

  /** Every operation the save needs went well on every rank. */
  ghost predicate AllWell(lucks: seq<Luck>) {
    && AllValid(lucks) && AllSetup(lucks) && AllGathered(lucks) && AllTrainer(lucks)
    && (AllEma(lucks) || NoneEma(lucks))
    && (AllEma(lucks) ==> AllParams(lucks) && AllSwap(lucks) && AllRestored(lucks))
    && (|lucks| > 1 ==> AllRng(lucks)) && |lucks| > 0 && lucks[0].publish
  }

  lemma WellTarget(lucks: seq<Luck>, c: Collective, i: nat)
    requires i < |lucks| && Passed(lucks, c) && AllWell(lucks) && Target(lucks, c, i).None?
    ensures c == Published
  {
  }

  /** A rank that leaves returns exactly when all went well; with SchedulesEnd and NeverStuck, a save in
      which nothing fails returns on every rank. */
  lemma ReturnsIff(lucks: seq<Luck>, ranks: seq<Rank>, i: nat)
    requires Reachable(lucks, ranks) && i < |ranks| && ranks[i].position.Left?
    ensures ranks[i].position.result.Returned? <==> AllWell(lucks)
  {
    ReachableOk(lucks, ranks);
    var c, pre :| Good(lucks, c, pre) && Between(lucks, pre, ranks);
    LeftFrom(lucks, c, pre, ranks, i);
    assert Passed(lucks, c);
    hide GoodRank, Between, Target;
    if AllWell(lucks) {
      WellTarget(lucks, c, i);
    }
  }

  // ---- Weights and contents ---------------------------------------------------------------

  lemma RawAt(lucks: seq<Luck>, c: Collective, i: nat)
    requires i < |lucks| && Passed(lucks, c) && Target(lucks, c, i).None? && WeightsAt(lucks[i], c) != Raw
    ensures lucks[i].swap && if AllSwap(lucks) then !lucks[i].restore else !lucks[i].rollback
    ensures c != Published
  {
  }

  /** Raw weights survive: a rank leaves with anything else only if its own restore failed, and
      then every rank that leaves raises. */
  lemma RawWeightsSurvive(lucks: seq<Luck>, ranks: seq<Rank>, i: nat)
    requires Reachable(lucks, ranks) && i < |ranks| && ranks[i].position.Left?
    ensures ranks[i].weights != Raw ==>
              lucks[i].swap && if AllSwap(lucks) then !lucks[i].restore else !lucks[i].rollback
    ensures ranks[i].weights != Raw ==>
              forall j :: 0 <= j < |ranks| && ranks[j].position.Left? ==> ranks[j].position.result.Raised?
  {
    ReachableOk(lucks, ranks);
    var c, pre :| Good(lucks, c, pre) && Between(lucks, pre, ranks);
    LeftFrom(lucks, c, pre, ranks, i);
    if ranks[i].weights != Raw {
      RawAt(lucks, c, i);
    }
    hide GoodRank, Between, Target, WeightsAt;
    forall j | 0 <= j < |ranks| && ranks[j].position.Left?
      ensures ranks[i].position.result.Returned? <==> ranks[j].position.result.Returned?
    {
      SameOutcome(lucks, ranks, i, j);
    }
  }

  predicate InEmaBranch(c: Collective) {
    c.Preflight? || c.SwapDone? || c.RollbackDone? || c.GatherEma? || c.Restored?
  }

  /** A rank that is blocked, and any rank at all, traced back to its round. */
  lemma BlockedFrom(lucks: seq<Luck>, c: Collective, pre: seq<Rank>, ranks: seq<Rank>, i: nat)
    requires Good(lucks, c, pre) && Between(lucks, pre, ranks) && i < |ranks| && ranks[i].position.At?
    ensures Target(lucks, c, i) == Some(ranks[i].position.collective)
  {
    assert GoodRank(lucks, c, i, pre[i]);
    AdvanceGoes(lucks, c, i, pre[i]);
  }

  lemma MovedFrom(lucks: seq<Luck>, c: Collective, pre: seq<Rank>, ranks: seq<Rank>, i: nat)
    requires Good(lucks, c, pre) && Between(lucks, pre, ranks) && i < |ranks|
    ensures match ranks[i].position
            case Local(_, _) => true
            case At(c', _) => Target(lucks, c, i) == Some(c')
            case Left(_) => Target(lucks, c, i) == None
    ensures !BeforeEmaOff(c) ==> (ranks[i].allExport <==> AllEma(lucks))
  {
    assert GoodRank(lucks, c, i, pre[i]);
    AdvanceGoes(lucks, c, i, pre[i]);
    if !BeforeEmaOff(c) {
      AdvanceExport(lucks, c, i, pre[i]);
    }
  }

  lemma EmaTarget(lucks: seq<Luck>, c: Collective, i: nat, j: nat)
    requires i < |lucks| && j < |lucks| && Passed(lucks, c)
    requires Target(lucks, c, i).Some? && InEmaBranch(Target(lucks, c, i).value)
    ensures AllEma(lucks) && !BeforeEmaOff(c) && Target(lucks, c, j) == Target(lucks, c, i)
  {
  }

  /** The EMA branch is entered by all ranks or by none. */
  lemma EmaAllOrNone(lucks: seq<Luck>, ranks: seq<Rank>, i: nat, j: nat)
    requires Reachable(lucks, ranks) && i < |ranks| && j < |ranks|
    requires ranks[i].position.At? && InEmaBranch(ranks[i].position.collective)
    ensures AllEma(lucks) && ranks[j].allExport
    ensures !ranks[j].position.Left?
    ensures ranks[j].position.At? ==> ranks[j].position.collective == ranks[i].position.collective
  {
    ReachableOk(lucks, ranks);
    var c, pre :| Good(lucks, c, pre) && Between(lucks, pre, ranks);
    BlockedFrom(lucks, c, pre, ranks, i);
    EmaTarget(lucks, c, i, j);
    hide Target, Good;
    MovedFrom(lucks, c, pre, ranks, j);
  }

  lemma AdvanceExport(lucks: seq<Luck>, c: Collective, i: nat, r: Rank)
    requires i < |lucks| && GoodRank(lucks, c, i, r) && !BeforeEmaOff(c)
    ensures Advance(r, |lucks|, i, lucks[i]).allExport == r.allExport
  {
  }

  lemma AdvancePublishes(lucks: seq<Luck>, c: Collective, i: nat, r: Rank)
    requires i < |lucks| && Passed(lucks, c) && GoodRank(lucks, c, i, r)
    ensures var published := Advance(r, |lucks|, i, lucks[i]).published;
            published.Some? ==>
              && i == 0 && lucks[0].publish
              && published.value == Checkpoint(OnlyRaw, if AllEma(lucks) then OnlyEma else OnlyRaw)
  {
  }

  /** Only the primary publishes. The payload holds raw state; the artifacts hold EMA state when
      every rank swapped and raw state when none did, never a mixture. */
  lemma PublishedContents(lucks: seq<Luck>, ranks: seq<Rank>, i: nat)
    requires Reachable(lucks, ranks) && i < |ranks| && ranks[i].published.Some?
    ensures i == 0
    ensures ranks[i].published.value == Checkpoint(OnlyRaw, if AllEma(lucks) then OnlyEma else OnlyRaw)
  {
    ReachableOk(lucks, ranks);
    var c, pre :| Good(lucks, c, pre) && Between(lucks, pre, ranks);
    assert GoodRank(lucks, c, i, pre[i]);
    AdvancePublishes(lucks, c, i, pre[i]);
  }

  /** A rank returns exactly when the primary published. */
  lemma ReturnedIffPublished(lucks: seq<Luck>, ranks: seq<Rank>, i: nat)
    requires Reachable(lucks, ranks) && AllLeft(ranks) && i < |ranks|
    ensures ranks[i].position.result.Returned? <==> ranks[0].published.Some?
  {
    ReachableOk(lucks, ranks);
    var c, pre :| Good(lucks, c, pre) && Between(lucks, pre, ranks);
    assert GoodRank(lucks, c, 0, pre[0]);
    AdvanceGoes(lucks, c, 0, pre[0]);
    Leaves(lucks, c, 0, pre[0]);
    SameOutcome(lucks, ranks, 0, i);
  }
}

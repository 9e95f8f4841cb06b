/** The all-rank checkpoint protocol: no schedule strands a rank, all ranks return or all raise,
    and the raw weights survive, exactly under the condition the code needs. */
module CheckpointLockstep {
  import opened Sequences
  import opened CheckpointRanks

  // ---- What has to have gone well, read off the drawn outcomes ----------------------------

  ghost predicate AllValid(lucks: seq<Luck>) { forall i :: 0 <= i < |lucks| ==> lucks[i].valid }
  ghost predicate AllSetup(lucks: seq<Luck>) { forall i :: 0 <= i < |lucks| ==> lucks[i].setup }
  ghost predicate AllEma(lucks: seq<Luck>) { forall i :: 0 <= i < |lucks| ==> lucks[i].ema }
  ghost predicate NoneEma(lucks: seq<Luck>) { forall i :: 0 <= i < |lucks| ==> !lucks[i].ema }
  ghost predicate AllGathered(lucks: seq<Luck>) { forall i :: 0 <= i < |lucks| ==> lucks[i].raw }
  ghost predicate AllTrainer(lucks: seq<Luck>) { forall i :: 0 <= i < |lucks| ==> lucks[i].trainer }
  ghost predicate AllParams(lucks: seq<Luck>) { forall i :: 0 <= i < |lucks| ==> lucks[i].params }
  ghost predicate AllSwap(lucks: seq<Luck>) { forall i :: 0 <= i < |lucks| ==> lucks[i].swap }
  ghost predicate AllRolledBack(lucks: seq<Luck>) {
    forall i :: 0 <= i < |lucks| ==> !lucks[i].swap || lucks[i].rollback
  }
  ghost predicate AllRestored(lucks: seq<Luck>) {
    forall i :: 0 <= i < |lucks| ==> lucks[i].emaGather && lucks[i].restore
  }
  ghost predicate AllRng(lucks: seq<Luck>) { forall i :: 0 <= i < |lucks| ==> lucks[i].rng }

  /** Every rank got through its setup and all decided alike about EMA. */
  ghost predicate Decided(lucks: seq<Luck>) {
    AllValid(lucks) && AllSetup(lucks) && (AllEma(lucks) || NoneEma(lucks))
  }

  ghost predicate RawExported(lucks: seq<Luck>) {
    Decided(lucks) && AllGathered(lucks) && AllTrainer(lucks)
  }

  ghost predicate EmaExported(lucks: seq<Luck>) {
    AllEma(lucks) ==> AllParams(lucks) && AllSwap(lucks) && AllRestored(lucks)
  }

  /** The condition under which a rank that completes collective `c` can exist. */
  ghost predicate Passed(lucks: seq<Luck>, c: Collective) {
    match c
    case Entry => true
    case Setup => AllValid(lucks)
    case EmaOn => AllValid(lucks) && AllSetup(lucks)
    case EmaOff => AllValid(lucks) && AllSetup(lucks)
    case GatherRaw => Decided(lucks)
    case RawDone => Decided(lucks)
    case GatherTrainer => Decided(lucks) && AllGathered(lucks)
    case TrainerDone => Decided(lucks) && AllGathered(lucks)
    case Preflight => RawExported(lucks) && AllEma(lucks)
    case SwapDone => RawExported(lucks) && AllEma(lucks) && AllParams(lucks)
    case RollbackDone => RawExported(lucks) && AllEma(lucks) && AllParams(lucks) && !AllSwap(lucks)
    case GatherEma => RawExported(lucks) && AllEma(lucks) && AllParams(lucks) && AllSwap(lucks)
    case Restored => RawExported(lucks) && AllEma(lucks) && AllParams(lucks) && AllSwap(lucks)
    case GatherRng => RawExported(lucks) && EmaExported(lucks) && |lucks| > 1
    case Published => RawExported(lucks) && EmaExported(lucks) && (|lucks| > 1 ==> AllRng(lucks))
  }

  /** The agreement a reduction reaches. */
  ghost predicate Verdict(lucks: seq<Luck>, c: Collective) {
    match c
    case Setup => AllSetup(lucks)
    case EmaOn => AllEma(lucks)
    case EmaOff => NoneEma(lucks)
    case RawDone => AllGathered(lucks)
    case TrainerDone => AllTrainer(lucks)
    case Preflight => AllParams(lucks)
    case SwapDone => AllSwap(lucks)
    case RollbackDone => AllRolledBack(lucks)
    case Restored => AllRestored(lucks)
    case Published => |lucks| > 0 && lucks[0].publish
    case _ => true
  }

  /** The live weights of a rank when collective `c` completes. */
  function WeightsAt(l: Luck, c: Collective): Weights {
    match c
    case SwapDone => if l.swap then Ema else Raw
    case RollbackDone => if l.swap && !l.rollback then Ema else Raw
    case GatherEma => if l.swap then Ema else Raw
    case Restored => if l.restore then Raw else if l.swap then Ema else Raw
    case _ => Raw
  }

  /** What the gathers so far hold on a rank when collective `c` completes. */
  ghost predicate HoldsAt(lucks: seq<Luck>, c: Collective, r: Rank) {
    match c
    case RawDone => AllGathered(lucks) ==> r.checkpoint == OnlyRaw
    case GatherTrainer => r.checkpoint == OnlyRaw
    case TrainerDone => r.checkpoint == OnlyRaw
    case Preflight => r.checkpoint == OnlyRaw
    case SwapDone => r.checkpoint == OnlyRaw
    case GatherEma => r.checkpoint == OnlyRaw
    case Restored => r.checkpoint == OnlyRaw && (AllRestored(lucks) ==> r.artifacts == OnlyEma)
    case GatherRng => r.checkpoint == OnlyRaw && r.artifacts == if AllEma(lucks) then OnlyEma else OnlyRaw
    case Published => r.checkpoint == OnlyRaw && r.artifacts == if AllEma(lucks) then OnlyEma else OnlyRaw
    case _ => true
  }

  predicate BeforeEmaOff(c: Collective) { c.Entry? || c.Setup? || c.EmaOn? }
  predicate BeforeSwap(c: Collective) {
    BeforeEmaOff(c) || c.EmaOff? || c.GatherRaw? || c.RawDone? || c.GatherTrainer? || c.TrainerDone? || c.Preflight?
  }
  predicate SwapKnown(c: Collective) { c.SwapDone? || c.RollbackDone? }

  /** Rank `i` when collective `c` has just replied to it. */
  ghost predicate GoodRank(lucks: seq<Luck>, c: Collective, i: nat, r: Rank)
    requires i < |lucks|
  {
    && r.position.Local? && r.position.after == c
    && (r.position.reply.all <==> Verdict(lucks, c))
    && (c == GatherRaw ==> r.position.reply.content == OnlyRaw)
    && (c == GatherEma ==> r.position.reply.content == OnlyEma)
    && (!BeforeEmaOff(c) ==> (r.allExport <==> AllEma(lucks)))
    && (SwapKnown(c) ==> (r.swapped <==> lucks[i].swap))
    && (BeforeSwap(c) ==> !r.swapped)
    && r.weights == WeightsAt(lucks[i], c)
    && HoldsAt(lucks, c, r)
    && r.published ==
         if c == Published && i == 0 && lucks[0].publish then Some(Checkpoint(r.checkpoint, r.artifacts)) else None
  }

  /** All ranks have just got the reply of `c`. */
  ghost predicate Good(lucks: seq<Luck>, c: Collective, pre: seq<Rank>) {
    && |pre| == |lucks| > 0 && Passed(lucks, c)
    && forall i :: 0 <= i < |pre| ==> GoodRank(lucks, c, i, pre[i])
  }

  /** Each rank has run its stretch after `c` or not yet. */
  ghost predicate Between(lucks: seq<Luck>, pre: seq<Rank>, ranks: seq<Rank>)
    requires |pre| == |lucks| && forall i :: 0 <= i < |pre| ==> pre[i].position.Local?
  {
    && |ranks| == |pre|
    && forall i :: 0 <= i < |pre| ==> ranks[i] == pre[i] || ranks[i] == Advance(pre[i], |pre|, i, lucks[i])
  }

  ghost predicate Inv(lucks: seq<Luck>, ranks: seq<Rank>) {
    exists c, pre :: Good(lucks, c, pre) && Between(lucks, pre, ranks)
  }

  // ---- Every schedule ---------------------------------------------------------------------

  /** Where rank `i` goes from the reply of `c`: the next collective, or out. */
  ghost function Target(lucks: seq<Luck>, c: Collective, i: nat): Option<Collective>
    requires i < |lucks|
  {
    var toRng := if |lucks| > 1 then Some(GatherRng) else Some(Published);
    match c
    case Entry => if lucks[i].valid then Some(Setup) else None
    case Setup => if AllSetup(lucks) then Some(EmaOn) else None
    case EmaOn => Some(EmaOff)
    case EmaOff => if AllEma(lucks) || NoneEma(lucks) then Some(GatherRaw) else None
    case GatherRaw => Some(RawDone)
    case RawDone => if AllGathered(lucks) then Some(GatherTrainer) else None
    case GatherTrainer => Some(TrainerDone)
    case TrainerDone => if !AllTrainer(lucks) then None else if AllEma(lucks) then Some(Preflight) else toRng
    case Preflight => if AllParams(lucks) then Some(SwapDone) else None
    case SwapDone => if AllSwap(lucks) then Some(GatherEma) else Some(RollbackDone)
    case RollbackDone => None
    case GatherEma => Some(Restored)
    case Restored => if AllRestored(lucks) then toRng else None
    case GatherRng => if lucks[i].rng then Some(Published) else None
    case Published => None
  }

  /** What rank `i` votes in the reduction `c`. */
  function VoteAt(l: Luck, i: nat, c: Collective): bool {
    match c
    case Setup => l.setup
    case EmaOn => l.ema
    case EmaOff => !l.ema
    case RawDone => l.raw
    case TrainerDone => l.trainer
    case Preflight => l.params
    case SwapDone => l.swap
    case RollbackDone => !l.swap || l.rollback
    case Restored => l.emaGather && l.restore
    case Published => i != 0 || l.publish
    case _ => true
  }

  /** Where a good rank goes, and with which vote and weights. */
  ghost predicate Goes(lucks: seq<Luck>, c: Collective, i: nat, r': Rank)
    requires i < |lucks|
  {
    match Target(lucks, c, i)
    case Some(c') => r'.position == At(c', VoteAt(lucks[i], i, c')) && r'.weights == WeightsAt(lucks[i], c')
    case None => r'.position.Left?
  }

  predicate BeforeEma(c: Collective) {
    c.Entry? || c.Setup? || c.EmaOn? || c.EmaOff? || c.GatherRaw? || c.RawDone? || c.GatherTrainer?
  }

  lemma AdvanceEarly(lucks: seq<Luck>, c: Collective, i: nat, r: Rank)
    requires i < |lucks| && Passed(lucks, c) && GoodRank(lucks, c, i, r) && BeforeEma(c)
    ensures Goes(lucks, c, i, Advance(r, |lucks|, i, lucks[i]))
  {
  }

  lemma AdvanceLate(lucks: seq<Luck>, c: Collective, i: nat, r: Rank)
    requires i < |lucks| && Passed(lucks, c) && GoodRank(lucks, c, i, r) && !BeforeEma(c)
    ensures Goes(lucks, c, i, Advance(r, |lucks|, i, lucks[i]))
  {
  }

  lemma AdvanceGoes(lucks: seq<Luck>, c: Collective, i: nat, r: Rank)
    requires i < |lucks| && Passed(lucks, c) && GoodRank(lucks, c, i, r)
    ensures var r' := Advance(r, |lucks|, i, lucks[i]);
            match Target(lucks, c, i)
            case Some(c') => r'.position == At(c', VoteAt(lucks[i], i, c')) && r'.weights == WeightsAt(lucks[i], c')
            case None => r'.position.Left?
  {
    assert r.position.Local?;
    hide Passed, GoodRank, Advance, Target, VoteAt, WeightsAt;
    if BeforeEma(c) {
      AdvanceEarly(lucks, c, i, r);
    } else {
      AdvanceLate(lucks, c, i, r);
    }
  }

  /** A rank that gets the next reply is good again. */
  lemma NextGood(lucks: seq<Luck>, c: Collective, i: nat, r: Rank, c': Collective, reply: Reply)
    requires i < |lucks| && Passed(lucks, c) && GoodRank(lucks, c, i, r) && Passed(lucks, c')
    requires Target(lucks, c, i) == Some(c') && (reply.all <==> Verdict(lucks, c'))
    requires c' == GatherRaw ==> reply.content == OnlyRaw
    requires c' == GatherEma ==> reply.content == OnlyEma
    ensures GoodRank(lucks, c', i, Advance(r, |lucks|, i, lucks[i]).(position := Local(c', reply)))
  {
  }

  lemma NextPassed(lucks: seq<Luck>, c: Collective, c': Collective)
    requires Passed(lucks, c) && |lucks| > 0 && forall i :: 0 <= i < |lucks| ==> Target(lucks, c, i) == Some(c')
    ensures Passed(lucks, c')
  {
    assert Target(lucks, c, 0) == Some(c');
    if c == Entry {
      assert forall i :: 0 <= i < |lucks| && Target(lucks, c, i) == Some(c') ==> lucks[i].valid;
    } else if c == GatherRng {
      assert forall i :: 0 <= i < |lucks| && Target(lucks, c, i) == Some(c') ==> lucks[i].rng;
    }
  }

  /** The reply of a completed collective is the verdict over the drawn outcomes. */
  lemma ReplyGood(lucks: seq<Luck>, c: Collective, ranks: seq<Rank>)
    requires |ranks| == |lucks| > 0 && Passed(lucks, c) && c != Entry
    requires forall i :: 0 <= i < |ranks| ==>
               ranks[i].position == At(c, VoteAt(lucks[i], i, c)) && ranks[i].weights == WeightsAt(lucks[i], c)
    ensures ReplyTo(ranks).all <==> Verdict(lucks, c)
    ensures c == GatherRaw ==> ReplyTo(ranks).content == OnlyRaw
    ensures c == GatherEma ==> ReplyTo(ranks).content == OnlyEma
  {
    assert AllVote(ranks) <==> forall i :: 0 <= i < |lucks| ==> VoteAt(lucks[i], i, c);
    assert WeightsOf(ranks)[0] == ranks[0].weights;
  }

  lemma StartGood(lucks: seq<Luck>)
    requires |lucks| > 0
    ensures Inv(lucks, Start(|lucks|))
  {
    assert Good(lucks, Entry, Start(|lucks|));
    assert Between(lucks, Start(|lucks|), Start(|lucks|));
  }

  lemma RunKeeps(lucks: seq<Luck>, ranks: seq<Rank>, i: nat)
    requires Inv(lucks, ranks) && |ranks| == |lucks| && Enabled(ranks, Run(i))
    ensures Inv(lucks, Apply(lucks, ranks, Run(i)))
  {
    var c, pre :| Good(lucks, c, pre) && Between(lucks, pre, ranks);
    assert GoodRank(lucks, c, i, pre[i]);
    AdvanceGoes(lucks, c, i, pre[i]);
    assert Between(lucks, pre, Apply(lucks, ranks, Run(i)));
  }

  lemma JoinKeeps(lucks: seq<Luck>, ranks: seq<Rank>)
    requires Inv(lucks, ranks) && |ranks| == |lucks| && Enabled(ranks, Join)
    ensures Inv(lucks, Apply(lucks, ranks, Join))
  {
    var c, pre :| Good(lucks, c, pre) && Between(lucks, pre, ranks);
    var c' := ranks[0].position.collective;
    forall i | 0 <= i < |ranks|
      ensures Target(lucks, c, i) == Some(c') && ranks[i] == Advance(pre[i], |pre|, i, lucks[i])
    {
      assert GoodRank(lucks, c, i, pre[i]);
      AdvanceGoes(lucks, c, i, pre[i]);
    }
    hide Good;
    RoundGood(lucks, c, pre, c', ranks);
    var post := Apply(lucks, ranks, Join);
    AllLocal(lucks, c', post);
    assert Between(lucks, post, post);
  }

  lemma AllLocal(lucks: seq<Luck>, c: Collective, pre: seq<Rank>)
    requires Good(lucks, c, pre)
    ensures forall i :: 0 <= i < |pre| ==> pre[i].position.Local?
  {
    assert forall i :: 0 <= i < |pre| ==> GoodRank(lucks, c, i, pre[i]);
  }

  /** A round in which every rank arrived at `c'` is followed by a good one. */
  lemma RoundGood(lucks: seq<Luck>, c: Collective, pre: seq<Rank>, c': Collective, ranks: seq<Rank>)
    requires Good(lucks, c, pre) && |ranks| == |pre|
    requires forall i :: 0 <= i < |pre| ==> pre[i].position.Local?
    requires forall i :: 0 <= i < |ranks| ==>
              Target(lucks, c, i) == Some(c') && ranks[i] == Advance(pre[i], |pre|, i, lucks[i])
    ensures Enabled(ranks, Join) && ranks[0].position.collective == c' && Good(lucks, c', Apply(lucks, ranks, Join))
  {
    forall i | 0 <= i < |ranks|
      ensures ranks[i].position == At(c', VoteAt(lucks[i], i, c')) && ranks[i].weights == WeightsAt(lucks[i], c')
    {
      assert GoodRank(lucks, c, i, pre[i]);
      AdvanceGoes(lucks, c, i, pre[i]);
    }
    assert Target(lucks, c, 0) == Some(c') && c' != Entry;
    NextPassed(lucks, c, c');
    hide Advance, WeightsAt, VoteAt, Target, Passed, Verdict;
    ReplyGood(lucks, c', ranks);
    forall i | 0 <= i < |ranks| ensures GoodRank(lucks, c', i, Apply(lucks, ranks, Join)[i]) {
      assert GoodRank(lucks, c, i, pre[i]);
      NextGood(lucks, c, i, pre[i], c', ReplyTo(ranks));
    }
  }

  lemma StepKeeps(lucks: seq<Luck>, ranks: seq<Rank>, step: Step)
    requires Inv(lucks, ranks) && |ranks| == |lucks| && Enabled(ranks, step)
    ensures Inv(lucks, Apply(lucks, ranks, step))
  {
    match step {
      case Run(i) => RunKeeps(lucks, ranks, i);
      case Join => JoinKeeps(lucks, ranks);
    }
  }

  lemma {:induction false} ReachesKeeps(lucks: seq<Luck>, from: seq<Rank>, to: seq<Rank>, steps: seq<Step>)
    requires |from| == |lucks| && Reaches(lucks, from, to, steps) && Inv(lucks, from)
    ensures Inv(lucks, to)
    decreases |steps|
  {
    if steps != [] {
      StepKeeps(lucks, from, steps[0]);
      ReachesKeeps(lucks, Apply(lucks, from, steps[0]), to, steps[1..]);
    }
  }

  lemma ReachableOk(lucks: seq<Luck>, ranks: seq<Rank>)
    requires Reachable(lucks, ranks)
    ensures Inv(lucks, ranks)
  {
    StartGood(lucks);
    var steps :| Reaches(lucks, Start(|lucks|), ranks, steps);
    ReachesKeeps(lucks, Start(|lucks|), ranks, steps);
  }
}

/** The claim that no rank ever waits for a peer that has left is false of the code as it stands:
    the argument validation and the RNG gather raise outside any agreement. It holds exactly
    when those two fall alike on every rank. */
module CheckpointStranding {
  import opened Sequences
  import opened CheckpointRanks
  import opened CheckpointLockstep
  import opened CheckpointTheorems

  // ---- Building schedules -----------------------------------------------------------------

  lemma {:induction false} ReachesThen(lucks: seq<Luck>, from: seq<Rank>, to: seq<Rank>, steps: seq<Step>, step: Step)
    requires |from| == |to| == |lucks| && Reaches(lucks, from, to, steps) && Enabled(to, step)
    ensures Reaches(lucks, from, Apply(lucks, to, step), steps + [step])
    decreases |steps|
  {
    var after := Apply(lucks, to, step);
    if steps == [] {
      assert Reaches(lucks, after, after, []);
      assert [step][1..] == [];
    } else {
      ReachesThen(lucks, Apply(lucks, from, steps[0]), to, steps[1..], step);
      assert (steps + [step])[1..] == steps[1..] + [step];
    }
  }

  lemma ReachableThen(lucks: seq<Luck>, ranks: seq<Rank>, step: Step)
    requires Reachable(lucks, ranks) && Enabled(ranks, step)
    ensures Reachable(lucks, Apply(lucks, ranks, step))
  {
    var steps :| Reaches(lucks, Start(|lucks|), ranks, steps);
    ReachesThen(lucks, Start(|lucks|), ranks, steps, step);
  }

  /** The ranks after the first `k` of them have run their stretch. */
  function RunFirst(lucks: seq<Luck>, pre: seq<Rank>, k: nat): seq<Rank>
    requires k <= |pre| == |lucks| && forall i :: 0 <= i < |pre| ==> pre[i].position.Local?
  {
    seq(|pre|, i requires 0 <= i < |pre| => if i < k then Advance(pre[i], |pre|, i, lucks[i]) else pre[i])
  }

  lemma {:induction false} RunAll(lucks: seq<Luck>, pre: seq<Rank>, k: nat)
    requires k <= |pre| == |lucks| && forall i :: 0 <= i < |pre| ==> pre[i].position.Local?
    requires Reachable(lucks, pre)
    ensures Reachable(lucks, RunFirst(lucks, pre, k))
  {
    if k == 0 {
      assert RunFirst(lucks, pre, 0) == pre;
    } else {
      RunAll(lucks, pre, k - 1);
      var before := RunFirst(lucks, pre, k - 1);
      assert before[k - 1] == pre[k - 1];
      ReachableThen(lucks, before, Run(k - 1));
      assert RunFirst(lucks, pre, k) == Apply(lucks, before, Run(k - 1));
    }
  }

  /** When every rank heads for `c'`, the next round is reached. */
  lemma NextRound(lucks: seq<Luck>, c: Collective, c': Collective, pre: seq<Rank>) returns (post: seq<Rank>)
    requires Reachable(lucks, pre) && Good(lucks, c, pre)
    requires forall i :: 0 <= i < |lucks| ==> Target(lucks, c, i) == Some(c')
    ensures Reachable(lucks, post) && Good(lucks, c', post)
  {
    RunAll(lucks, pre, |pre|);
    var ranks := RunFirst(lucks, pre, |pre|);
    hide Good, Reachable, Advance, Target;
    RoundGood(lucks, c, pre, c', ranks);
    ReachableThen(lucks, ranks, Join);
    post := Apply(lucks, ranks, Join);
  }

  /** When one rank stays and another leaves, somebody is stranded. */
  lemma PartedStrands(lucks: seq<Luck>, c: Collective, pre: seq<Rank>, i: nat, j: nat) returns (ranks: seq<Rank>)
    requires Reachable(lucks, pre) && Good(lucks, c, pre) && i < |pre| && j < |pre|
    requires Target(lucks, c, i).Some? && Target(lucks, c, j).None?
    ensures Reachable(lucks, ranks) && Stranded(ranks)
  {
    RunAll(lucks, pre, |pre|);
    ranks := RunFirst(lucks, pre, |pre|);
    assert GoodRank(lucks, c, i, pre[i]) && GoodRank(lucks, c, j, pre[j]);
    AdvanceGoes(lucks, c, i, pre[i]);
    AdvanceGoes(lucks, c, j, pre[j]);
    assert ranks[i].position.At? && ranks[j].position.Left?;
  }

  lemma EntryRound(lucks: seq<Luck>) returns (pre: seq<Rank>)
    requires |lucks| > 0
    ensures Reachable(lucks, pre) && Good(lucks, Entry, pre)
  {
    pre := Start(|lucks|);
    assert Reaches(lucks, pre, pre, []);
  }

  lemma ToEmaOff(lucks: seq<Luck>) returns (pre: seq<Rank>)
    requires |lucks| > 0 && RawExported(lucks)
    ensures Reachable(lucks, pre) && Good(lucks, EmaOff, pre)
  {
    hide Reachable, Good;
    pre := EntryRound(lucks);
    pre := NextRound(lucks, Entry, Setup, pre);
    pre := NextRound(lucks, Setup, EmaOn, pre);
    pre := NextRound(lucks, EmaOn, EmaOff, pre);
  }

  lemma ToTrainerDone(lucks: seq<Luck>) returns (pre: seq<Rank>)
    requires |lucks| > 0 && RawExported(lucks)
    ensures Reachable(lucks, pre) && Good(lucks, TrainerDone, pre)
  {
    hide Reachable, Good;
    pre := ToEmaOff(lucks);
    pre := NextRound(lucks, EmaOff, GatherRaw, pre);
    pre := NextRound(lucks, GatherRaw, RawDone, pre);
    pre := NextRound(lucks, RawDone, GatherTrainer, pre);
    pre := NextRound(lucks, GatherTrainer, TrainerDone, pre);
  }

  lemma ThroughEma(lucks: seq<Luck>, trainerDone: seq<Rank>) returns (pre: seq<Rank>)
    requires Passed(lucks, GatherRng) && AllEma(lucks)
    requires Reachable(lucks, trainerDone) && Good(lucks, TrainerDone, trainerDone)
    ensures Reachable(lucks, pre) && Good(lucks, GatherRng, pre)
  {
    hide Reachable, Good;
    pre := NextRound(lucks, TrainerDone, Preflight, trainerDone);
    pre := NextRound(lucks, Preflight, SwapDone, pre);
    pre := NextRound(lucks, SwapDone, GatherEma, pre);
    pre := NextRound(lucks, GatherEma, Restored, pre);
    pre := NextRound(lucks, Restored, GatherRng, pre);
  }

  lemma ToGatherRng(lucks: seq<Luck>) returns (pre: seq<Rank>)
    requires Passed(lucks, GatherRng)
    ensures Reachable(lucks, pre) && Good(lucks, GatherRng, pre)
  {
    hide Reachable, Good;
    pre := ToTrainerDone(lucks);
    if AllEma(lucks) {
      pre := ThroughEma(lucks, pre);
    } else {
      pre := NextRound(lucks, TrainerDone, GatherRng, pre);
    }
  }

  /** Some schedule strands a rank exactly when the ranks disagree about their arguments, or get
      as far as the RNG gather and it fails on some of them only. */
  lemma StrandedIff(lucks: seq<Luck>)
    requires |lucks| > 0
    ensures (exists ranks :: Reachable(lucks, ranks) && Stranded(ranks)) <==> !Agreeing(lucks)
  {
    if Agreeing(lucks) {
      forall ranks | Reachable(lucks, ranks) ensures !Stranded(ranks) {
        Lockstep(lucks, ranks);
      }
    } else if !AllValid(lucks) && exists i :: 0 <= i < |lucks| && lucks[i].valid {
      var i :| 0 <= i < |lucks| && lucks[i].valid;
      var j :| 0 <= j < |lucks| && !lucks[j].valid;
      var pre := EntryRound(lucks);
      var ranks := PartedStrands(lucks, Entry, pre, i, j);
    } else {
      var i :| 0 <= i < |lucks| && lucks[i].rng;
      var j :| 0 <= j < |lucks| && !lucks[j].rng;
      var pre := ToGatherRng(lucks);
      var ranks := PartedStrands(lucks, GatherRng, pre, i, j);
    }
  }

  const FINE := Luck(true, true, false, true, true, true, true, true, true, true, true, true)

  /** Two healthy ranks whose RNG gather fails on rank 0 only: rank 1 waits for ever. */
  lemma RngFailureStrands()
    ensures exists ranks :: Reachable([FINE.(rng := false), FINE], ranks) && Stranded(ranks)
  {
    var lucks := [FINE.(rng := false), FINE];
    assert Passed(lucks, GatherRng) && !lucks[0].rng && lucks[1].rng;
    StrandedIff(lucks);
  }
}

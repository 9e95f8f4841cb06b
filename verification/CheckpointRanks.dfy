/** `save_training_checkpoint` on every rank at once (vrl/trainers/checkpointing.py).

    Each rank runs the same straight-line program; between two collectives it touches only its
    own state. A rank is either in a local stretch, blocked in a collective, or gone. Ranks run
    their stretches in any order, and a collective completes when every rank is blocked in it.
    What can go wrong on a rank is drawn beforehand: each operation runs at most once per rank.
 */
module CheckpointRanks {
  import opened Sequences

  /** The local outcome of each fallible operation of one rank; `ema` is its export decision. */
  datatype Luck = Luck(
    valid: bool, setup: bool, ema: bool, raw: bool, trainer: bool, params: bool, swap: bool,
    rollback: bool, emaGather: bool, restore: bool, rng: bool, publish: bool)

  /** Where a rank can be blocked, in program order. `Entry` is the call itself. */
  datatype Collective =
    | Entry | Setup | EmaOn | EmaOff | GatherRaw | RawDone | GatherTrainer | TrainerDone
    | Preflight | SwapDone | RollbackDone | GatherEma | Restored | GatherRng | Published

  datatype Weights = Raw | Ema

  /** What a gather over all ranks assembles from their live weights. */
  datatype Content = OnlyRaw | OnlyEma | Mixed

  /** A rank raises its own failure, or reports that a peer failed. */
  datatype Failure = Own(at: Collective) | Peer(at: Collective) | Disagree

  datatype Result = Returned | Raised(failure: Failure)

  datatype Reply = Reply(all: bool, content: Content)

  datatype Position =
    | Local(after: Collective, reply: Reply)   // running, from the return of a collective
    | At(collective: Collective, vote: bool)   // blocked in a collective
    | Left(result: Result)

  datatype Checkpoint = Checkpoint(payload: Content, artifacts: Content)

  datatype Rank = Rank(
    position: Position,
    allExport: bool,
    swapped: bool,
    weights: Weights,
    checkpoint: Content,
    artifacts: Content,
    published: Option<Checkpoint>)

  const NO_REPLY := Reply(true, OnlyRaw)

  function Fresh(): Rank {
    Rank(Local(Entry, NO_REPLY), false, false, Raw, OnlyRaw, OnlyRaw, None)
  }

  // ---- The program of one rank ----------------------------------------------------------

  /** Raise unless every rank succeeded; the failing rank raises its own error. */
  function RaiseFor(r: Rank, at: Collective, fine: bool): Rank {
    r.(position := Left(Raised(if fine then Peer(at) else Own(at))))
  }

  /** Rank 0 writes and publishes; everybody joins the last agreement. */
  function Publish(r: Rank, i: nat, l: Luck): Rank {
    r.(published := if i == 0 && l.publish then Some(Checkpoint(r.checkpoint, r.artifacts)) else None,
       position := At(Published, i != 0 || l.publish))
  }

  /** The RNG states are gathered only when there are peers. */
  function GatherOrPublish(r: Rank, n: nat, i: nat, l: Luck): Rank {
    if n > 1 then r.(position := At(GatherRng, true)) else Publish(r, i, l)
  }

  /** The local stretch of rank `i` of `n` from the return of a collective to the next one. */
  function Advance(r: Rank, n: nat, i: nat, l: Luck): Rank
    requires r.position.Local?
  {
    var reply := r.position.reply;
    match r.position.after
    case Entry => if l.valid then r.(position := At(Setup, l.setup)) else RaiseFor(r, Entry, false)
    case Setup => if reply.all then r.(position := At(EmaOn, l.ema)) else RaiseFor(r, Setup, l.setup)
    case EmaOn => r.(allExport := reply.all, position := At(EmaOff, !l.ema))
    case EmaOff =>
      if r.allExport == reply.all then r.(position := Left(Raised(Disagree)))
      else r.(position := At(GatherRaw, true))
    case GatherRaw =>
      r.(checkpoint := if l.raw then reply.content else r.checkpoint, position := At(RawDone, l.raw))
    case RawDone => if reply.all then r.(position := At(GatherTrainer, true)) else RaiseFor(r, RawDone, l.raw)
    case GatherTrainer => r.(position := At(TrainerDone, l.trainer))
    case TrainerDone =>
      if !reply.all then RaiseFor(r, TrainerDone, l.trainer)
      else
        var r' := r.(artifacts := r.checkpoint);
        if r.allExport then r'.(position := At(Preflight, l.params)) else GatherOrPublish(r', n, i, l)
    case Preflight =>
      if !reply.all then RaiseFor(r, Preflight, l.params)
      else if l.swap then r.(weights := Ema, swapped := true, position := At(SwapDone, true))
      else r.(position := At(SwapDone, false))
    case SwapDone =>
      if reply.all then r.(position := At(GatherEma, true))
      else if r.swapped then
        r.(weights := if l.rollback then Raw else r.weights, position := At(RollbackDone, l.rollback))
      else r.(position := At(RollbackDone, true))
    case RollbackDone =>
      if !reply.all then RaiseFor(r, RollbackDone, !r.swapped || l.rollback) else RaiseFor(r, SwapDone, l.swap)
    case GatherEma =>
      r.(artifacts := if l.emaGather then reply.content else r.artifacts,
         weights := if l.restore then Raw else r.weights,
         position := At(Restored, l.emaGather && l.restore))
    case Restored =>
      if reply.all then GatherOrPublish(r, n, i, l) else RaiseFor(r, Restored, l.emaGather && l.restore)
    case GatherRng => if l.rng then Publish(r, i, l) else RaiseFor(r, GatherRng, false)
    case Published => if reply.all then r.(position := Left(Returned)) else RaiseFor(r, Published, i != 0 || l.publish)
  }

  // ---- All ranks --------------------------------------------------------------------------

  datatype Step = Run(i: nat) | Join

  function Assemble(weights: seq<Weights>): Content {
    if forall i :: 0 <= i < |weights| ==> weights[i] == Raw then OnlyRaw
    else if forall i :: 0 <= i < |weights| ==> weights[i] == Ema then OnlyEma
    else Mixed
  }

  predicate AllAt(ranks: seq<Rank>, c: Collective) {
    forall i :: 0 <= i < |ranks| ==> ranks[i].position.At? && ranks[i].position.collective == c
  }

  predicate AllVote(ranks: seq<Rank>) {
    forall i :: 0 <= i < |ranks| ==> ranks[i].position.At? ==> ranks[i].position.vote
  }

  function WeightsOf(ranks: seq<Rank>): seq<Weights> {
    seq(|ranks|, i requires 0 <= i < |ranks| => ranks[i].weights)
  }

  function ReplyTo(ranks: seq<Rank>): Reply {
    Reply(AllVote(ranks), Assemble(WeightsOf(ranks)))
  }

  predicate Enabled(ranks: seq<Rank>, step: Step) {
    match step
    case Run(i) => i < |ranks| && ranks[i].position.Local?
    case Join => |ranks| > 0 && ranks[0].position.At? && AllAt(ranks, ranks[0].position.collective)
  }

  /** Every rank gets the same reply from a completed collective. */
  function Joined(ranks: seq<Rank>, c: Collective, reply: Reply): seq<Rank> {
    seq(|ranks|, i requires 0 <= i < |ranks| => ranks[i].(position := Local(c, reply)))
  }

  function Apply(lucks: seq<Luck>, ranks: seq<Rank>, step: Step): seq<Rank>
    requires |ranks| == |lucks| && Enabled(ranks, step)
  {
    match step
    case Run(i) => ranks[i := Advance(ranks[i], |ranks|, i, lucks[i])]
    case Join => Joined(ranks, ranks[0].position.collective, ReplyTo(ranks))
  }

  function Start(n: nat): seq<Rank> { seq(n, i => Fresh()) }

  ghost predicate Reaches(lucks: seq<Luck>, from: seq<Rank>, to: seq<Rank>, steps: seq<Step>)
    requires |from| == |lucks|
    decreases |steps|
  {
    if steps == [] then from == to
    else Enabled(from, steps[0]) && Reaches(lucks, Apply(lucks, from, steps[0]), to, steps[1..])
  }

  ghost predicate Reachable(lucks: seq<Luck>, ranks: seq<Rank>) {
    |ranks| == |lucks| > 0 && exists steps :: Reaches(lucks, Start(|lucks|), ranks, steps)
  }
}

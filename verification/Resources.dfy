/** Role requests become device sets (vrl/ray/resources.py). `None` stands for "auto" or null, a
    failed resolution for the `ValueError` the code raises. */
module Resources {
  import opened Sequences

  type Device = int

  datatype Strategy = SingleProcess | Ddp | Fsdp

  /** `distributed.resources` with its training strategy. */
  datatype Config = Config(
    visible: Option<seq<Device>>,
    trainerPinned: Option<seq<Device>>,
    trainerGpus: Option<int>,
    rolloutPinned: Option<seq<Device>>,
    rolloutGpus: Option<int>,
    rolloutEngines: Option<int>,
    rewardPinned: Option<seq<Device>>,
    rewardNeedsGpu: bool,
    crossNode: bool,
    strategy: Strategy,
    worldSize: int)

  datatype Plan = Plan(
    visible: seq<Device>,
    trainer: seq<Device>,
    rollout: seq<Device>,
    reward: seq<Device>,
    followsTrainer: bool,
    engines: nat,
    crossNode: bool)
  {
    function RewardExecution(): seq<Device> { if followsTrainer then trainer else reward }

    predicate Colocated() { Meet(trainer, rollout) }

    predicate RequiresTrainerReservation() {
      trainer != [] && rollout != [] && !Colocated() && engines > 0 && !crossNode
    }
  }

  predicate Meet(a: seq<Device>, b: seq<Device>) { exists d :: d in a && d in b }

  predicate Subset(a: seq<Device>, b: seq<Device>) { forall d :: d in a ==> d in b }

  // ---- Validation -------------------------------------------------------------------------

  predicate GoodIds(ids: seq<Device>) { NoDup(ids) && forall d :: d in ids ==> d >= 0 }

  /** `_validate_device_ids`: an accumulating loop that stops at a negative or repeated id. */
  method ValidateDeviceIds(values: seq<Device>) returns (ids: Option<seq<Device>>)
    ensures ids == if GoodIds(values) then Some(values) else None
  {
    var out: seq<Device>, seen := [], {};
    for i := 0 to |values|
      invariant out == values[..i] && GoodIds(out) && seen == set d | d in out
    {
      var item := values[i];
      assert values[..i + 1] == values[..i] + [item];
      if item < 0 {
        assert item in values;
        return None;
      }
      if item in seen {
        var j := IndexOf(values[..i], item);
        assert values[j] == values[i] && j < i;
        return None;
      }
      seen := seen + {item};
      out := out + [item];
    }
    assert values[..|values|] == values;
    return Some(out);
  }

  predicate GoodPin(pinned: Option<seq<Device>>) { pinned.Some? ==> GoodIds(pinned.value) }

  // ---- Resolution -------------------------------------------------------------------------

  function SymmetricFsdp(c: Config): bool { c.strategy == Fsdp && !c.crossNode && c.rolloutPinned.None? }

  function AsymmetricFsdp(c: Config): bool { c.strategy == Fsdp && !SymmetricFsdp(c) }

  /** `_explicit_role_gpu_count`, for a cross-node budget. */
  function ExplicitCount(pinned: Option<seq<Device>>, gpus: Option<int>): Option<nat> {
    if pinned.Some? then Some(|pinned.value|)
    else if gpus.None? || gpus.value < 0 then None
    else Some(gpus.value)
  }

  function VisibleDevices(c: Config, auto: seq<Device>): Option<seq<Device>> {
    if c.visible.Some? then (if GoodIds(c.visible.value) then c.visible else None)
    else if c.crossNode then
      match (ExplicitCount(c.trainerPinned, c.trainerGpus), ExplicitCount(c.rolloutPinned, c.rolloutGpus))
      case (Some(t), Some(r)) =>
        Some(seq(t + r + (if c.rewardPinned.Some? then |c.rewardPinned.value| else 0), i => i))
      case _ => None
    else Some(auto)
  }

  /** `_resolve_role_devices` for the trainer. */
  function TrainerDevices(c: Config, visible: seq<Device>): Option<seq<Device>> {
    if c.trainerPinned.Some? then (if Subset(c.trainerPinned.value, visible) then c.trainerPinned else None)
    else
      var default := if AsymmetricFsdp(c) then c.worldSize else if visible != [] then 1 else 0;
      var count := if c.trainerGpus.None? then default else c.trainerGpus.value;
      if 0 <= count <= |visible| then Some(visible[..count]) else None
  }

  predicate TrainerCountOk(c: Config, trainer: seq<Device>) {
    if AsymmetricFsdp(c) then |trainer| == c.worldSize else |trainer| <= 1
  }

  /** `requested_gpu_count`. */
  function RequestedGpus(c: Config, available: nat): Option<nat> {
    if c.rolloutGpus.Some? then (if c.rolloutGpus.value >= 0 then Some(c.rolloutGpus.value) else None)
    else if c.rolloutEngines.Some? then (if c.rolloutEngines.value >= 0 then Some(c.rolloutEngines.value) else None)
    else Some(available)
  }

  function Excluding(pool: seq<Device>, taken: seq<Device>): (rest: seq<Device>)
    ensures forall d :: d in rest <==> d in pool && d !in taken
    ensures NoDup(pool) ==> NoDup(rest)
  {
    if pool == [] then []
    else (if pool[0] in taken then [] else [pool[0]]) + Excluding(pool[1..], taken)
  }

  function RolloutDevices(c: Config, visible: seq<Device>, trainer: seq<Device>): Option<seq<Device>> {
    if c.rolloutPinned.Some? then (if Subset(c.rolloutPinned.value, visible) then c.rolloutPinned else None)
    else
      var pool := if c.crossNode then Excluding(visible, trainer) else trainer;
      match RequestedGpus(c, |pool|)
      case None => None
      case Some(n) => if n <= |pool| then Some(pool[..n]) else None
  }

  /** `resolve_num_engines`. */
  function Engines(c: Config, gpus: nat): Option<nat> {
    if c.rolloutEngines.Some? && c.rolloutEngines.value < 0 then None
    else if gpus > 0 then
      if c.rolloutEngines.None? || c.rolloutEngines.value == gpus then Some(gpus) else None
    else if c.rolloutEngines.None? then Some(if c.rolloutGpus == Some(0) then 1 else 0)
    else Some(c.rolloutEngines.value)
  }

  function RewardDevices(c: Config, visible: seq<Device>): Option<seq<Device>> {
    if c.rewardPinned.None? then Some([])
    else if |c.rewardPinned.value| == 1 && Subset(c.rewardPinned.value, visible) then c.rewardPinned
    else None
  }

  predicate Accepted(c: Config, p: Plan) {
    && TrainerCountOk(c, p.trainer)
    && (c.crossNode ==> !Meet(p.reward, p.trainer) && !Meet(p.reward, p.rollout))
    && (AsymmetricFsdp(c) ==> !Meet(p.trainer, p.rollout) && !Meet(p.trainer, p.reward))
  }

  /** `ResourcePlan.from_root`; `auto` is what the process sees. */
  function Resolve(c: Config, auto: seq<Device>): Option<Plan> {
    if !GoodPin(c.trainerPinned) || !GoodPin(c.rolloutPinned) || !GoodPin(c.rewardPinned) then None
    else
      match VisibleDevices(c, auto)
      case None => None
      case Some(visible) =>
        match TrainerDevices(c, visible)
        case None => None
        case Some(trainer) =>
          match RolloutDevices(c, visible, trainer)
          case None => None
          case Some(rollout) =>
            match (Engines(c, |rollout|), RewardDevices(c, visible))
            case (Some(engines), Some(reward)) =>
              var p := Plan(visible, trainer, rollout, reward,
                            c.rewardNeedsGpu && reward == [] && trainer != [], engines, c.crossNode);
              if Accepted(c, p) then Some(p) else None
            case _ => None
  }

  /** What placement relies on. */
  ghost predicate GoodPlan(p: Plan) {
    && NoDup(p.trainer) && NoDup(p.rollout) && NoDup(p.reward)
    && Subset(p.trainer, p.visible) && Subset(p.rollout, p.visible) && Subset(p.reward, p.visible)
    && (p.rollout != [] ==> p.engines == |p.rollout|)
    && |p.reward| <= 1
    && (p.crossNode ==> !Meet(p.reward, p.trainer) && !Meet(p.reward, p.rollout))
  }

  lemma PrefixGood(s: seq<Device>, n: nat, all: seq<Device>)
    requires n <= |s| && NoDup(s) && Subset(s, all)
    ensures NoDup(s[..n]) && Subset(s[..n], all)
  {
  }

  /** Every accepted request yields a good plan: duplicate-free visible device sets, one engine per
      rollout GPU, at most one reward GPU, and no reward sharing across nodes. A whole-world FSDP
      trainer shares with nobody, and an unpinned single-node rollout only with the trainer. */
  lemma ResolvedPlanIsGood(c: Config, auto: seq<Device>)
    requires GoodIds(auto) && Resolve(c, auto).Some?
    ensures var p := Resolve(c, auto).value;
            && GoodPlan(p) && p.crossNode == c.crossNode
            && (AsymmetricFsdp(c) ==>
                  |p.trainer| == c.worldSize && !Meet(p.trainer, p.rollout) && !Meet(p.trainer, p.reward))
            && (c.rolloutPinned.None? && !c.crossNode ==> p.rollout <= p.trainer)
            && (c.rolloutPinned.None? && c.crossNode ==> !Meet(p.trainer, p.rollout))
            && (c.rewardNeedsGpu && p.trainer != [] ==> p.RewardExecution() != [])
  {
    var visible := VisibleDevices(c, auto).value;
    assert NoDup(visible);
    var trainer := TrainerDevices(c, visible).value;
    if c.trainerPinned.None? {
      PrefixGood(visible, |trainer|, visible);
    }
    if c.rolloutPinned.None? {
      var pool := if c.crossNode then Excluding(visible, trainer) else trainer;
      PrefixGood(pool, RequestedGpus(c, |pool|).value, visible);
    }
  }

  // ---- What a request is promised -----------------------------------------------------------

  /** One is listed before the other. */
  ghost predicate Before(pool: seq<Device>, a: Device, b: Device) {
    exists i, j :: 0 <= i < j < |pool| && pool[i] == a && pool[j] == b
  }

  /** The chosen devices are the first of the pool that are not taken, in the pool's order. */
  ghost predicate FirstUntaken(pool: seq<Device>, taken: seq<Device>, chosen: seq<Device>) {
    && (forall d :: d in chosen ==> d in pool && d !in taken)
    && (forall i, j :: 0 <= i < j < |chosen| ==> Before(pool, chosen[i], chosen[j]))
    && (forall a, b :: b in chosen && Before(pool, a, b) && a !in taken ==> a in chosen)
  }

  /** The number of GPUs a role names. */
  ghost predicate Names(pinned: Option<seq<Device>>, gpus: Option<int>, n: nat) {
    if pinned.Some? then n == |pinned.value| else gpus == Some(n)
  }

  /** The visible devices: as configured, as the process sees them, or a budget of numbered tokens. */
  ghost predicate VisiblePromise(c: Config, auto: seq<Device>, p: Plan) {
    if c.visible.Some? then p.visible == c.visible.value && GoodIds(p.visible)
    else if !c.crossNode then p.visible == auto
    else
      && (forall i :: 0 <= i < |p.visible| ==> p.visible[i] == i)
      && exists t: nat, r: nat ::
        && Names(c.trainerPinned, c.trainerGpus, t) && Names(c.rolloutPinned, c.rolloutGpus, r)
        && |p.visible| == t + r + if c.rewardPinned.Some? then |c.rewardPinned.value| else 0
  }

  /** A trainer whose process spans the world: FSDP across nodes or beside a pinned rollout. */
  predicate SpansWorld(c: Config) { c.strategy == Fsdp && (c.crossNode || c.rolloutPinned.Some?) }

  /** The trainer: its pin, or the first visible devices, as many as asked for, the whole world, or one. */
  ghost predicate TrainerPromise(c: Config, p: Plan) {
    && (c.trainerPinned.Some? ==> p.trainer == c.trainerPinned.value && Subset(p.trainer, p.visible))
    && (c.trainerPinned.None? ==>
          && p.trainer <= p.visible
          && (c.trainerGpus.Some? ==> |p.trainer| == c.trainerGpus.value)
          && (c.trainerGpus.None? && !SpansWorld(c) ==> (|p.trainer| == 1 || p.trainer == p.visible == [])))
    && if SpansWorld(c) then |p.trainer| == c.worldSize else |p.trainer| <= 1
  }

  /** The rollout: its pin, or the first of the trainer's devices, or across nodes the first that the
      trainer leaves; as many as asked for in GPUs or engines, or all of them. */
  ghost predicate RolloutPromise(c: Config, p: Plan) {
    && (c.rolloutPinned.Some? ==> p.rollout == c.rolloutPinned.value && Subset(p.rollout, p.visible))
    && (c.rolloutPinned.None? ==>
          && (if c.crossNode then FirstUntaken(p.visible, p.trainer, p.rollout) else p.rollout <= p.trainer)
          && (c.rolloutGpus.Some? ==> |p.rollout| == c.rolloutGpus.value)
          && (c.rolloutGpus.None? && c.rolloutEngines.Some? ==> |p.rollout| == c.rolloutEngines.value)
          && (c.rolloutGpus.None? && c.rolloutEngines.None? && c.crossNode ==>
                forall d :: d in p.visible && d !in p.trainer ==> d in p.rollout)
          && (c.rolloutGpus.None? && c.rolloutEngines.None? && !c.crossNode ==> p.rollout == p.trainer))
  }

  /** The engines: one per GPU; without GPUs as many as asked for, else one if the request says zero GPUs. */
  ghost predicate EnginesPromise(c: Config, p: Plan) {
    && (p.rollout != [] ==> p.engines == |p.rollout|)
    && (c.rolloutEngines.Some? ==> p.engines == c.rolloutEngines.value)
    && (c.rolloutEngines.None? && p.rollout == [] ==> p.engines == if c.rolloutGpus == Some(0) then 1 else 0)
  }

  /** The reward: its one pinned GPU, or none and the trainer's if it needs one; what may not be shared. */
  ghost predicate RewardPromise(c: Config, p: Plan) {
    && (c.rewardPinned.None? ==> p.reward == [])
    && (c.rewardPinned.Some? ==>
          p.reward == c.rewardPinned.value && |p.reward| == 1 && Subset(p.reward, p.visible))
    && (p.followsTrainer <==> c.rewardNeedsGpu && c.rewardPinned.None? && p.trainer != [])
    && (c.crossNode ==> !Meet(p.reward, p.trainer) && !Meet(p.reward, p.rollout))
    && (SpansWorld(c) ==> !Meet(p.trainer, p.rollout) && !Meet(p.trainer, p.reward))
  }

  ghost predicate Served(c: Config, auto: seq<Device>, p: Plan) {
    && GoodPin(c.trainerPinned) && GoodPin(c.rolloutPinned) && GoodPin(c.rewardPinned)
    && p.crossNode == c.crossNode
    && VisiblePromise(c, auto, p) && TrainerPromise(c, p) && RolloutPromise(c, p)
    && EnginesPromise(c, p) && RewardPromise(c, p)
  }

  lemma BeforeLater(pool: seq<Device>, a: Device, b: Device)
    requires pool != []
    ensures Before(pool, a, b) <==> Before(pool[1..], a, b) || (a == pool[0] && b in pool[1..])
  {
    var rest := pool[1..];
    if Before(pool, a, b) {
      var i, j :| 0 <= i < j < |pool| && pool[i] == a && pool[j] == b;
      assert rest[j - 1] == b && (i > 0 ==> rest[i - 1] == a);
    }
    if Before(rest, a, b) {
      var i, j :| 0 <= i < j < |rest| && rest[i] == a && rest[j] == b;
      assert pool[i + 1] == a && pool[j + 1] == b;
    }
    if a == pool[0] && b in rest {
      var j := IndexOf(rest, b);
      assert pool[j + 1] == b;
    }
  }

  /** How the order looks once the first device is set aside. */
  ghost predicate Splits(pool: seq<Device>) {
    && pool != [] && pool[0] !in pool[1..]
    && (forall a, b :: Before(pool, a, b) <==> Before(pool[1..], a, b) || (a == pool[0] && b in pool[1..]))
    && forall a, b :: Before(pool[1..], a, b) ==> a in pool[1..] && b in pool[1..]
  }

  lemma PoolSplits(pool: seq<Device>)
    requires NoDup(pool) && pool != []
    ensures Splits(pool)
  {
    forall a, b ensures Before(pool, a, b) <==> Before(pool[1..], a, b) || (a == pool[0] && b in pool[1..]) {
      BeforeLater(pool, a, b);
    }
  }

  lemma FirstSkips(pool: seq<Device>, taken: seq<Device>, chosen: seq<Device>)
    requires Splits(pool) && pool[0] in taken
    ensures FirstUntaken(pool, taken, chosen) <==> FirstUntaken(pool[1..], taken, chosen)
  {
    hide Before;
    assert forall d :: d in pool <==> d == pool[0] || d in pool[1..];
  }

  lemma FirstTakes(pool: seq<Device>, taken: seq<Device>, chosen: seq<Device>)
    requires Splits(pool) && pool[0] !in taken && chosen != []
    ensures FirstUntaken(pool, taken, chosen) <==>
              chosen[0] == pool[0] && FirstUntaken(pool[1..], taken, chosen[1..])
  {
    hide Before;
    assert forall d :: d in pool <==> d == pool[0] || d in pool[1..];
    assert forall d :: d in chosen <==> d == chosen[0] || d in chosen[1..];
    if FirstUntaken(pool, taken, chosen) {
      HeadTaken(pool, taken, chosen);
      TailTaken(pool, taken, chosen);
    } else if chosen[0] == pool[0] && FirstUntaken(pool[1..], taken, chosen[1..]) {
      forall i, j | 0 <= i < j < |chosen| ensures Before(pool, chosen[i], chosen[j]) {
        assert chosen[1..][j - 1] == chosen[j] && (i > 0 ==> chosen[1..][i - 1] == chosen[i]);
      }
    }
  }

  lemma HeadTaken(pool: seq<Device>, taken: seq<Device>, chosen: seq<Device>)
    requires Splits(pool) && pool[0] !in taken && chosen != [] && FirstUntaken(pool, taken, chosen)
    ensures chosen[0] == pool[0]
  {
    hide Before;
    assert chosen[0] in chosen;
  }

  lemma TailTaken(pool: seq<Device>, taken: seq<Device>, chosen: seq<Device>)
    requires Splits(pool) && chosen != [] && chosen[0] == pool[0] && FirstUntaken(pool, taken, chosen)
    ensures FirstUntaken(pool[1..], taken, chosen[1..])
  {
    hide Before;
    forall d | d in chosen[1..] ensures d in pool[1..] && d in chosen {
      var i := IndexOf(chosen[1..], d);
      assert d == chosen[i + 1];
      assert Before(pool, chosen[0], chosen[i + 1]);
    }
    forall i, j | 0 <= i < j < |chosen[1..]| ensures Before(pool[1..], chosen[1..][i], chosen[1..][j]) {
      assert Before(pool, chosen[i + 1], chosen[j + 1]);
      assert chosen[1..][i] in chosen[1..];
    }
  }

  lemma NoneUntaken(pool: seq<Device>, taken: seq<Device>)
    ensures FirstUntaken(pool, taken, [])
  {
  }

  lemma ExcludingStep(pool: seq<Device>, taken: seq<Device>)
    requires pool != []
    ensures Excluding(pool, taken) ==
              (if pool[0] in taken then [] else [pool[0]]) + Excluding(pool[1..], taken)
  {
  }

  lemma TakeMore(all: seq<Device>, x: Device, rest: seq<Device>, n: nat)
    requires all == [x] + rest && 0 < n <= |all|
    ensures all[..n][0] == x && all[..n][1..] == rest[..n - 1]
  {
  }

  lemma {:induction false} UntakenFirst(pool: seq<Device>, taken: seq<Device>, n: nat)
    requires NoDup(pool) && n <= |Excluding(pool, taken)|
    ensures FirstUntaken(pool, taken, Excluding(pool, taken)[..n])
  {
    if pool == [] || n == 0 {
      NoneUntaken(pool, taken);
    } else {
      PoolSplits(pool);
      ExcludingStep(pool, taken);
      hide Splits, FirstUntaken, Excluding;
      var all, rest := Excluding(pool, taken), Excluding(pool[1..], taken);
      if pool[0] in taken {
        assert all == rest;
        UntakenFirst(pool[1..], taken, n);
        FirstSkips(pool, taken, all[..n]);
      } else {
        UntakenFirst(pool[1..], taken, n - 1);
        TakeMore(all, pool[0], rest, n);
        FirstTakes(pool, taken, all[..n]);
      }
    }
  }

  lemma {:induction false} FirstIsPrefix(pool: seq<Device>, taken: seq<Device>, chosen: seq<Device>)
    requires NoDup(pool) && FirstUntaken(pool, taken, chosen)
    ensures chosen <= Excluding(pool, taken)
  {
    if chosen != [] {
      assert chosen[0] in chosen && chosen[0] in pool && pool != [];
      PoolSplits(pool);
      ExcludingStep(pool, taken);
      assert NoDup(pool[1..]);
      hide Splits, FirstUntaken, Excluding;
      if pool[0] in taken {
        FirstSkips(pool, taken, chosen);
        FirstIsPrefix(pool[1..], taken, chosen);
      } else {
        FirstTakes(pool, taken, chosen);
        FirstIsPrefix(pool[1..], taken, chosen[1..]);
        assert chosen == [chosen[0]] + chosen[1..];
      }
    }
  }

  lemma VisibleServed(c: Config, auto: seq<Device>, p: Plan)
    ensures VisibleDevices(c, auto) == Some(p.visible) <==> VisiblePromise(c, auto, p)
  {
    if c.visible.None? && c.crossNode {
      var trainer := ExplicitCount(c.trainerPinned, c.trainerGpus);
      var rollout := ExplicitCount(c.rolloutPinned, c.rolloutGpus);
      assert forall t: nat :: Names(c.trainerPinned, c.trainerGpus, t) <==> trainer == Some(t);
      assert forall r: nat :: Names(c.rolloutPinned, c.rolloutGpus, r) <==> rollout == Some(r);
      if trainer.Some? && rollout.Some? {
        var total := trainer.value + rollout.value + if c.rewardPinned.Some? then |c.rewardPinned.value| else 0;
        assert VisibleDevices(c, auto) == Some(seq(total, i => i));
        assert p.visible == seq(total, i => i) <==>
               |p.visible| == total && forall i :: 0 <= i < total ==> p.visible[i] == i;
      }
    }
  }

  lemma TrainerServed(c: Config, p: Plan)
    ensures TrainerDevices(c, p.visible) == Some(p.trainer) && TrainerCountOk(c, p.trainer) <==> TrainerPromise(c, p)
  {
    assert AsymmetricFsdp(c) <==> SpansWorld(c);
    assert p.trainer <= p.visible ==> p.trainer == p.visible[..|p.trainer|];
  }

  lemma RolloutServed(c: Config, p: Plan)
    requires NoDup(p.visible)
    ensures RolloutDevices(c, p.visible, p.trainer) == Some(p.rollout) <==> RolloutPromise(c, p)
  {
    if c.rolloutPinned.None? {
      var pool := if c.crossNode then Excluding(p.visible, p.trainer) else p.trainer;
      if p.rollout <= pool {
        assert p.rollout == pool[..|p.rollout|];
        if c.crossNode {
          UntakenFirst(p.visible, p.trainer, |p.rollout|);
        }
      }
      if c.crossNode && FirstUntaken(p.visible, p.trainer, p.rollout) {
        FirstIsPrefix(p.visible, p.trainer, p.rollout);
        AllOrNot(pool, p.rollout);
      }
      hide FirstUntaken, Excluding;
    }
  }

  /** A proper prefix of a duplicate-free list leaves something out. */
  lemma AllOrNot(pool: seq<Device>, chosen: seq<Device>)
    requires NoDup(pool) && chosen <= pool
    ensures (forall d :: d in pool ==> d in chosen) <==> chosen == pool
  {
    if |chosen| < |pool| {
      assert pool[|chosen|] in pool;
      assert forall i :: 0 <= i < |chosen| ==> chosen[i] == pool[i] != pool[|chosen|];
    }
  }

  /** A request resolves to exactly the plan that keeps every promise to it, and is refused exactly when
      no plan does. */
  lemma ResolvesIff(c: Config, auto: seq<Device>, p: Plan)
    requires GoodIds(auto)
    ensures Resolve(c, auto) == Some(p) <==> Served(c, auto, p)
  {
    VisibleServed(c, auto, p);
    TrainerServed(c, p);
    if VisibleDevices(c, auto) == Some(p.visible) {
      assert NoDup(p.visible);
      RolloutServed(c, p);
    }
    assert Engines(c, |p.rollout|) == Some(p.engines) <==> EnginesPromise(c, p);
    assert AsymmetricFsdp(c) <==> SpansWorld(c);
    hide VisiblePromise, TrainerPromise, RolloutPromise, EnginesPromise, VisibleDevices, TrainerDevices,
        RolloutDevices, Engines, Meet, Subset, GoodPin, TrainerCountOk, AsymmetricFsdp, SpansWorld;
  }

  /** One process with nothing pinned: when it is accepted, and what it gets. */
  lemma SharedGpu(c: Config, auto: seq<Device>)
    requires GoodIds(auto) && c.strategy == SingleProcess && !c.crossNode && c.visible.None?
    requires c.trainerPinned.None? && c.rolloutPinned.None? && c.rewardPinned.None?
    ensures var own := if c.trainerGpus.Some? then c.trainerGpus.value else if auto == [] then 0 else 1;
            var shared := if c.rolloutGpus.Some? then c.rolloutGpus.value
                          else if c.rolloutEngines.Some? then c.rolloutEngines.value else own;
            var engines := if c.rolloutEngines.Some? then c.rolloutEngines.value
                           else if c.rolloutGpus == Some(0) then 1 else shared;
            Resolve(c, auto) ==
              if 0 <= shared <= own <= 1 && own <= |auto| && engines >= 0 && (shared == 1 ==> engines == 1)
              then Some(Plan(auto, auto[..own], auto[..shared], [], c.rewardNeedsGpu && own == 1, engines, false))
              else None
  {
    assert forall k, n :: 0 <= k <= n <= |auto| ==> auto[..n][..k] == auto[..k];
    assert !AsymmetricFsdp(c) && !Meet([], []);
    hide Meet, Subset;
  }

  // ---- Phases -----------------------------------------------------------------------------

  /** The three `offload_*` bits of `RoleLifecycle`. */
  predicate OffloadTrain(p: Plan) { Meet(p.trainer, p.rollout) || Meet(p.trainer, p.RewardExecution()) }
  predicate OffloadRollout(p: Plan) { Meet(p.rollout, p.trainer) || Meet(p.rollout, p.RewardExecution()) }
  predicate OffloadReward(p: Plan) { Meet(p.RewardExecution(), p.trainer) || Meet(p.RewardExecution(), p.rollout) }

  /** `validate_schedule_mode` for the continuous mode. */
  predicate ContinuousAccepted(p: Plan) {
    && !(p.Colocated() || Meet(p.trainer, p.rollout))
    && !Meet(p.rollout, p.RewardExecution())
    && !Meet(p.trainer, p.RewardExecution())
  }

  lemma SharesFirst(a: seq<Device>, b: seq<Device>)
    requires a != [] && a <= b
    ensures Meet(a, b)
  {
    assert a[0] in a && b[0] == a[0];
  }

  /** What a request has to look like for a continuous schedule, which is one in which no role would ever
      have to park, the reward being no case of its own. A reward that follows the trainer rules
      it out; a single-node rollout without its own devices sits on the trainer's, so it must be empty;
      across nodes nothing else stands in the way; and a trainer spanning the world shares with nobody,
      so only the rollout and the reward can clash. */
  lemma ContinuousFromRequest(c: Config, auto: seq<Device>)
    requires GoodIds(auto) && Resolve(c, auto).Some?
    ensures var p := Resolve(c, auto).value;
            && (ContinuousAccepted(p) <==> !OffloadTrain(p) && !OffloadRollout(p) && !OffloadReward(p))
            && (ContinuousAccepted(p) <==> !OffloadTrain(p) && !OffloadRollout(p))
            && (p.followsTrainer ==> !ContinuousAccepted(p) && OffloadReward(p))
            && (!c.crossNode && c.rolloutPinned.None? ==>
                  (ContinuousAccepted(p) <==> !p.followsTrainer && p.rollout == [] && !Meet(p.trainer, p.reward)))
            && (c.crossNode && c.rolloutPinned.None? ==> (ContinuousAccepted(p) <==> !p.followsTrainer))
            && (AsymmetricFsdp(c) ==> (ContinuousAccepted(p) <==> !p.followsTrainer && !Meet(p.rollout, p.reward)))
  {
    ResolvedPlanIsGood(c, auto);
    var p := Resolve(c, auto).value;
    assert Accepted(c, p) && (p.followsTrainer ==> p.reward == [] && p.trainer != []);
    assert forall a: seq<Device>, b: seq<Device> :: Meet(a, b) ==> Meet(b, a);
    hide Resolve, GoodPlan;
    if p.trainer != [] {
      SharesFirst(p.trainer, p.trainer);
    }
    if p.rollout != [] && p.rollout <= p.trainer {
      SharesFirst(p.rollout, p.trainer);
    }
  }
}

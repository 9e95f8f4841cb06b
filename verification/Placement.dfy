/** Device sets become bundles, and bundles are handed to roles after probing which GPU each really
    holds (vrl/ray/placement.py). Ray may permute the GPUs over the bundles in any way. */
module Placement {
  import opened Environment
  import opened Sequences
  import opened Resources

  /** Bundle `i` asks for GPU `gpus[i]`, or for CPUs only. */
  datatype Layout = Layout(gpus: seq<Option<Device>>, rollout: seq<nat>, reward: seq<nat>)

  /** Index `i` is the bundle that asks for device `d`. */
  predicate Asks(gpus: seq<Option<Device>>, i: nat, d: Device) { i < |gpus| && gpus[i] == Some(d) }

  /** One bundle per device. */
  ghost predicate Coalesced(gpus: seq<Option<Device>>) {
    forall i, j :: 0 <= i < j < |gpus| && gpus[i].Some? && gpus[j].Some? ==> gpus[i] != gpus[j]
  }

  predicate AsksEach(gpus: seq<Option<Device>>, indices: seq<nat>, devices: seq<Device>) {
    |indices| == |devices| && forall k :: 0 <= k < |devices| ==> Asks(gpus, indices[k], devices[k])
  }

  predicate CpuOnly(gpus: seq<Option<Device>>, indices: seq<nat>, count: nat) {
    |indices| == count && NoDup(indices) && forall i :: i in indices ==> i < |gpus| && gpus[i] == None
  }

  /** On one node, a trainer that shares no GPU with a rollout that has engines keeps its own reserved. */
  ghost predicate Reserves(p: Plan) {
    && !p.crossNode && p.engines > 0 && p.rollout != [] && p.trainer != []
    && forall d :: d in p.trainer ==> d !in p.rollout
  }

  /** The devices the run touches. */
  ghost predicate Touched(p: Plan, d: Device) {
    d in p.rollout || d in p.reward || (Reserves(p) && d in p.trainer)
  }

  /** The reserved trainer GPUs come before every other bundle. */
  ghost predicate TrainerFirst(p: Plan, l: Layout) {
    Reserves(p) ==> forall i, j :: 0 <= i < j < |l.gpus| && l.gpus[j].Some? && l.gpus[j].value in p.trainer ==>
      l.gpus[i].Some? && l.gpus[i].value in p.trainer
  }

  /** What a layout owes its plan: one bundle per touched device, the roles' bundles in device
      order, and one CPU bundle per engine of a GPU-less fleet. */
  ghost predicate GoodLayout(p: Plan, l: Layout) {
    && Coalesced(l.gpus)
    && (forall i :: 0 <= i < |l.gpus| && l.gpus[i].Some? ==> Touched(p, l.gpus[i].value))
    && (forall d :: Touched(p, d) ==> Some(d) in l.gpus)
    && (if p.rollout != [] then AsksEach(l.gpus, l.rollout, p.rollout) else CpuOnly(l.gpus, l.rollout, p.engines))
    && (forall i: nat :: i < |l.gpus| && l.gpus[i] == None ==> p.rollout == [] && i in l.rollout)
    && AsksEach(l.gpus, l.reward, p.reward) && TrainerFirst(p, l)
  }

  /** The growing bundle list of `BundleLayout.from_resources` with its two closures. */
  class LayoutBuilder {
    var gpus: seq<Option<Device>>
    var bundleByGpu: map<Device, nat>

    constructor ()
      ensures Valid() && gpus == []
    {
      gpus, bundleByGpu := [], map[];
    }

    ghost predicate Valid()
      reads this
    {
      && Coalesced(gpus)
      && (forall d :: d in bundleByGpu ==> Asks(gpus, bundleByGpu[d], d))
      && (forall i :: 0 <= i < |gpus| && gpus[i].Some? ==> gpus[i].value in bundleByGpu)
    }

    /** `gpu_bundle`: the bundle of a device, new only at its first mention. */
    method GpuBundle(d: Device) returns (index: nat)
      requires Valid()
      modifies this
      ensures Valid() && Asks(gpus, index, d) && old(gpus) <= gpus
      ensures gpus == if Some(d) in old(gpus) then old(gpus) else old(gpus) + [Some(d)]
    {
      if d in bundleByGpu {
        return bundleByGpu[d];
      }
      index := |gpus|;
      gpus := gpus + [Some(d)];
      bundleByGpu := bundleByGpu[d := index];
    }

    method GpuBundles(devices: seq<Device>) returns (indices: seq<nat>)
      requires Valid()
      modifies this
      ensures Valid() && AsksEach(gpus, indices, devices) && old(gpus) <= gpus
      ensures forall g :: g in gpus ==> g in old(gpus) || (g.Some? && g.value in devices)
      ensures forall i :: |old(gpus)| <= i < |gpus| ==> gpus[i].Some?
    {
      indices := [];
      for k := 0 to |devices|
        invariant Valid() && AsksEach(gpus, indices, devices[..k]) && old(gpus) <= gpus
        invariant forall g :: g in gpus ==> g in old(gpus) || (g.Some? && g.value in devices[..k])
        invariant forall i :: |old(gpus)| <= i < |gpus| ==> gpus[i].Some?
      {
        var index := GpuBundle(devices[k]);
        indices := indices + [index];
        assert devices[..k + 1] == devices[..k] + [devices[k]];
      }
      assert devices[..|devices|] == devices;
    }

    /** `cpu_bundles`. */
    method CpuBundles(count: nat) returns (indices: seq<nat>)
      requires Valid()
      modifies this
      ensures Valid() && CpuOnly(gpus, indices, count) && old(gpus) <= gpus
      ensures forall i: nat :: |old(gpus)| <= i < |gpus| ==> gpus[i] == None && i in indices
    {
      indices := [];
      for k := 0 to count
        invariant Valid() && CpuOnly(gpus, indices, k) && old(gpus) <= gpus
        invariant forall i: nat :: |old(gpus)| <= i < |gpus| ==> gpus[i] == None && i in indices
      {
        assert forall j :: 0 <= j < |indices| ==> indices[j] in indices;
        indices := indices + [|gpus|];
        gpus := gpus + [None];
      }
    }
  }

  lemma ReservationIff(p: Plan)
    ensures p.RequiresTrainerReservation() <==> Reserves(p)
  {
  }

  lemma ReservedFirst(p: Plan, l: Layout, reserved: seq<Option<Device>>)
    requires Coalesced(l.gpus) && reserved <= l.gpus
    requires Reserves(p) ==>
               && (forall g :: g in reserved ==> g.Some? && g.value in p.trainer)
               && forall d :: d in p.trainer ==> Some(d) in reserved
    ensures TrainerFirst(p, l)
  {
    forall i, j | Reserves(p) && 0 <= i < j < |l.gpus| && l.gpus[j].Some? && l.gpus[j].value in p.trainer
      ensures l.gpus[i].Some? && l.gpus[i].value in p.trainer
    {
      var device := l.gpus[j].value;
      assert Some(device) in reserved;
      var k := IndexOf(reserved, Some(device));
      assert l.gpus[k] == l.gpus[j];
      assert reserved[i] == l.gpus[i];
    }
  }

  /** The bundles after the reservation: the reserved trainer's GPUs and nothing else. */
  ghost predicate HoldsReserved(p: Plan, gpus: seq<Option<Device>>) {
    && (forall g :: g in gpus ==> Reserves(p) && g.Some? && g.value in p.trainer)
    && (Reserves(p) ==> forall d :: d in p.trainer ==> Some(d) in gpus)
  }

  /** The bundles after the rollout's. */
  ghost predicate HoldsRollout(p: Plan, reserved: seq<Option<Device>>, gpus: seq<Option<Device>>, rollout: seq<nat>) {
    && reserved <= gpus
    && (p.rollout != [] ==>
          && AsksEach(gpus, rollout, p.rollout)
          && forall g :: g in gpus ==> g in reserved || (g.Some? && g.value in p.rollout))
    && (p.rollout == [] ==>
          && CpuOnly(gpus, rollout, p.engines)
          && forall i: nat :: |reserved| <= i < |gpus| ==> gpus[i] == None && i in rollout)
  }

  /** The bundles after the reward's. */
  ghost predicate HoldsReward(p: Plan, before: seq<Option<Device>>, gpus: seq<Option<Device>>, reward: seq<nat>) {
    && before <= gpus && AsksEach(gpus, reward, p.reward)
    && (forall g :: g in gpus ==> g in before || (g.Some? && g.value in p.reward))
    && forall i: nat :: |before| <= i < |gpus| ==> gpus[i].Some?
  }

  lemma AsksAmong(gpus: seq<Option<Device>>, indices: seq<nat>, devices: seq<Device>)
    requires AsksEach(gpus, indices, devices)
    ensures forall d :: d in devices ==> Some(d) in gpus
  {
    forall d | d in devices ensures Some(d) in gpus {
      var k := IndexOf(devices, d);
      assert Asks(gpus, indices[k], devices[k]);
    }
  }

  lemma AllTouched(p: Plan, reserved: seq<Option<Device>>, before: seq<Option<Device>>, l: Layout)
    requires HoldsReserved(p, reserved) && HoldsRollout(p, reserved, before, l.rollout)
    requires HoldsReward(p, before, l.gpus, l.reward)
    ensures forall i :: 0 <= i < |l.gpus| && l.gpus[i].Some? ==> Touched(p, l.gpus[i].value)
    ensures forall d :: Touched(p, d) ==> Some(d) in l.gpus
  {
    AsksAmong(l.gpus, l.reward, p.reward);
    if p.rollout != [] {
      AsksAmong(before, l.rollout, p.rollout);
    }
    hide Reserves, AsksEach, CpuOnly;
    forall g | g in reserved || g in before ensures g in l.gpus {
      if g in reserved {
        assert before[IndexOf(reserved, g)] == g;
      }
      assert l.gpus[IndexOf(before, g)] == g;
    }
    forall i | 0 <= i < |l.gpus| && l.gpus[i].Some? ensures Touched(p, l.gpus[i].value) {
      var g := l.gpus[i];
      assert g in l.gpus;
      if g in before && p.rollout == [] {
        var k := IndexOf(before, g);
        assert k < |reserved| && reserved[k] == g;
      }
    }
  }

  lemma LayoutIsGood(p: Plan, reserved: seq<Option<Device>>, before: seq<Option<Device>>, l: Layout)
    requires Coalesced(l.gpus) && HoldsReserved(p, reserved) && HoldsRollout(p, reserved, before, l.rollout)
    requires HoldsReward(p, before, l.gpus, l.reward)
    ensures GoodLayout(p, l)
  {
    AllTouched(p, reserved, before, l);
    assert reserved <= l.gpus;
    ReservedFirst(p, l, reserved);
    hide Touched, Reserves, TrainerFirst;
    assert forall i: nat :: i < |before| ==> l.gpus[i] == before[i];
    forall i: nat | i < |reserved| ensures l.gpus[i].Some? {
      assert reserved[i] in reserved;
    }
    forall i: nat | i < |l.gpus| && l.gpus[i] == None ensures p.rollout == [] && i in l.rollout {
      assert i < |before| && before[i] in before;
    }
  }

  /** `BundleLayout.from_resources`: the trainer's reservation first, then rollout, then reward. */
  method FromResources(p: Plan) returns (l: Layout)
    ensures GoodLayout(p, l)
  {
    ReservationIff(p);
    hide Reserves, GoodLayout, Meet, Plan.RequiresTrainerReservation;
    var builder := new LayoutBuilder();
    if p.RequiresTrainerReservation() {
      var indices := builder.GpuBundles(p.trainer);
      AsksAmong(builder.gpus, indices, p.trainer);
    }
    ghost var reserved := builder.gpus;
    assert HoldsReserved(p, reserved);
    hide HoldsReserved;
    var rollout;
    if p.rollout != [] {
      rollout := builder.GpuBundles(p.rollout);
    } else {
      rollout := builder.CpuBundles(p.engines);
    }
    ghost var before := builder.gpus;
    assert HoldsRollout(p, reserved, before, rollout);
    hide HoldsRollout;
    var reward := [];
    if p.reward != [] {
      reward := builder.GpuBundles(p.reward);
    }
    l := Layout(builder.gpus, rollout, reward);
    assert HoldsReward(p, before, l.gpus, reward);
    hide HoldsReward;
    LayoutIsGood(p, reserved, before, l);
  }

  // ---- Assignment -------------------------------------------------------------------------

  datatype Roles = Roles(rollout: seq<nat>, reward: seq<nat>)

  /** The bundles that ask for a GPU are the ones probed. */
  ghost predicate Probes(l: Layout, probed: map<nat, Device>) {
    forall i: nat :: i in probed <==> i < |l.gpus| && l.gpus[i].Some?
  }

  predicate Injective(probed: map<nat, Device>) {
    forall i, j :: i in probed && j in probed && probed[i] == probed[j] ==> i == j
  }

  predicate Covers(probed: map<nat, Device>, devices: seq<Device>) {
    forall d :: d in devices ==> d in probed.Values
  }

  /** Bundle `indices[k]` really holds device `devices[k]`. */
  predicate Holds(probed: map<nat, Device>, indices: seq<nat>, devices: seq<Device>) {
    |indices| == |devices| && forall k :: 0 <= k < |devices| ==>
        indices[k] in probed && probed[indices[k]] == devices[k]
  }

  /** `_match_gpu_bundles` for a GPU role. */
  method MatchGpuBundles(devices: seq<Device>, gpuToBundle: map<Device, nat>) returns (matched: Option<seq<nat>>)
    ensures matched.Some? <==> forall d :: d in devices ==> d in gpuToBundle
    ensures matched.Some? ==> |matched.value| == |devices|
    ensures matched.Some? ==> forall k :: 0 <= k < |devices| ==>
              devices[k] in gpuToBundle && matched.value[k] == gpuToBundle[devices[k]]
  {
    var bundles := [];
    for k := 0 to |devices|
      invariant |bundles| == k
      invariant forall j :: 0 <= j < k ==> devices[j] in gpuToBundle && bundles[j] == gpuToBundle[devices[j]]
    {
      if devices[k] !in gpuToBundle {
        var missing := devices[k];
        assert missing in devices && missing !in gpuToBundle;
        return None;
      }
      bundles := bundles + [gpuToBundle[devices[k]]];
    }
    return Some(bundles);
  }

  /** Invert the probe; two bundles on one GPU are an error. */
  method InvertProbe(probed: map<nat, Device>) returns (gpuToBundle: Option<map<Device, nat>>)
    ensures gpuToBundle.Some? <==> Injective(probed)
    ensures gpuToBundle.Some? ==> forall d :: d in gpuToBundle.value <==> d in probed.Values
    ensures gpuToBundle.Some? ==> forall d :: d in gpuToBundle.value ==>
              gpuToBundle.value[d] in probed && probed[gpuToBundle.value[d]] == d
  {
    var inverse: map<Device, nat>, todo := map[], probed.Keys;
    while todo != {}
      invariant todo <= probed.Keys
      invariant forall d :: d in inverse ==> inverse[d] in probed.Keys - todo && probed[inverse[d]] == d
      invariant forall i :: i in probed.Keys - todo ==> probed[i] in inverse && inverse[probed[i]] == i
      decreases |todo|
    {
      var i :| i in todo;
      if probed[i] in inverse {
        var other := inverse[probed[i]];
        assert other in probed && probed[other] == probed[i] && other != i;
        return None;
      }
      inverse := inverse[probed[i] := i];
      todo := todo - {i};
    }
    return Some(inverse);
  }

  /** `assign_roles`: across nodes by position; on one node by the GPU each bundle really holds. */
  method AssignRoles(p: Plan, l: Layout, probed: map<nat, Device>) returns (roles: Option<Roles>)
    requires GoodLayout(p, l)
    ensures p.crossNode ==> roles == Some(Roles(l.rollout, l.reward))
    ensures !p.crossNode ==>
              (roles.Some? <==> Injective(probed) && Covers(probed, p.rollout) && Covers(probed, p.reward))
    ensures !p.crossNode && roles.Some? ==> RolesMatch(p, l, probed, roles.value)
  {
    if p.crossNode {
      return Some(Roles(l.rollout, l.reward));
    }
    var inverse := InvertProbe(probed);
    if inverse.None? {
      return None;
    }
    var rollout, reward := Some(l.rollout), Some(l.reward);
    if p.rollout != [] {
      rollout := MatchGpuBundles(p.rollout, inverse.value);
    }
    if rollout.None? {
      return None;
    }
    if p.reward != [] {
      reward := MatchGpuBundles(p.reward, inverse.value);
    }
    if reward.None? {
      return None;
    }
    return Some(Roles(rollout.value, reward.value));
  }

  /** GPU roles hold their devices; a CPU-only role keeps its planned bundles. */
  ghost predicate RolesMatch(p: Plan, l: Layout, probed: map<nat, Device>, roles: Roles) {
    && (if p.rollout != [] then Holds(probed, roles.rollout, p.rollout) else roles.rollout == l.rollout)
    && (if p.reward != [] then Holds(probed, roles.reward, p.reward) else roles.reward == l.reward)
  }

  // ---- CPU reservations -------------------------------------------------------------------

  const MICRO_CPUS := 1   // 0.001 CPU, in thousandths

  datatype Bundle = Bundle(cpu: nat, gpu: bool)

  /** The bundles `_bundle_requirements` gives the worker's CPUs. */
  predicate WithWorkerCpu(p: Plan, l: Layout, i: nat) {
    i in l.rollout || (i < |l.gpus| && l.gpus[i].Some? && p.rollout != [] && !p.crossNode)
  }

  /** What each bundle reserves, with CPU quantities in thousandths. */
  function Reserved(p: Plan, l: Layout, workerCpu: nat): seq<Bundle> {
    seq(|l.gpus|, i requires 0 <= i < |l.gpus| =>
          Bundle(if WithWorkerCpu(p, l, i) then workerCpu else MICRO_CPUS, l.gpus[i].Some?))
  }

  /** `_bundle_requirements`. */
  method BundleRequirements(p: Plan, l: Layout, workerCpu: nat) returns (requirements: seq<Bundle>)
    ensures requirements == Reserved(p, l, workerCpu)
  {
    requirements := [];
    for i := 0 to |l.gpus|
      invariant |requirements| == i && forall j :: 0 <= j < i ==> requirements[j] == Reserved(p, l, workerCpu)[j]
    {
      var mayRollOut := i in l.rollout || (l.gpus[i].Some? && p.rollout != [] && !p.crossNode);
      var cpu := if mayRollOut then workerCpu else MICRO_CPUS;
      requirements := requirements + [Bundle(cpu, l.gpus[i].Some?)];
    }
  }

  // ---- Correct for every permutation ------------------------------------------------------

  /** How roles come out of a probe: across nodes by position, on one node by a match that accepts
      any probe of the GPU bundles on which no two hold the same GPU. */
  ghost predicate Assigns(p: Plan, l: Layout, probed: map<nat, Device>, roles: Roles) {
    if p.crossNode then roles == Roles(l.rollout, l.reward)
    else Probes(l, probed) && Injective(probed) && RolesMatch(p, l, probed, roles)
  }

  /** No bundle goes to a role twice, and there are as many rollout bundles as engines, on GPUs or not. */
  lemma RolesAreDistinct(p: Plan, l: Layout, probed: map<nat, Device>, roles: Roles)
    requires GoodPlan(p) && GoodLayout(p, l) && Assigns(p, l, probed, roles)
    ensures |roles.rollout| == p.engines && NoDup(roles.rollout) && NoDup(roles.reward)
  {
  }

  /** What a bundle handed to a role holds. */
  lemma HandedBundles(p: Plan, l: Layout, probed: map<nat, Device>, roles: Roles)
    requires GoodLayout(p, l) && Probes(l, probed) && RolesMatch(p, l, probed, roles)
    ensures forall i :: i in roles.rollout ==>
              if p.rollout != [] then i in probed && probed[i] in p.rollout else i !in probed
    ensures forall i :: i in roles.reward ==> i in probed && probed[i] in p.reward
  {
    forall i | i in roles.rollout
      ensures if p.rollout != [] then i in probed && probed[i] in p.rollout else i !in probed
    {
      var a := IndexOf(roles.rollout, i);
      assert p.rollout != [] ==> probed[i] == p.rollout[a];
    }
    forall i | i in roles.reward ensures i in probed && probed[i] in p.reward {
      var b := IndexOf(roles.reward, i);
      assert probed[i] == p.reward[b];
    }
  }

  /** Two roles share a bundle exactly when they share a device. */
  lemma SharedBundleIffSharedDevice(p: Plan, l: Layout, probed: map<nat, Device>, roles: Roles)
    requires GoodLayout(p, l) && Probes(l, probed) && Injective(probed) && RolesMatch(p, l, probed, roles)
    ensures (exists i :: i in roles.rollout && i in roles.reward) <==> Meet(p.rollout, p.reward)
  {
    HandedBundles(p, l, probed, roles);
    if i :| i in roles.rollout && i in roles.reward {
      assert probed[i] in p.rollout && probed[i] in p.reward;
    }
    if d :| d in p.rollout && d in p.reward {
      hide GoodLayout;
      var a, b := IndexOf(p.rollout, d), IndexOf(p.reward, d);
      assert roles.rollout[a] == roles.reward[b];
      assert roles.rollout[a] in roles.rollout && roles.reward[b] in roles.reward;
    }
  }

  /** A bundle that really holds a GPU only the trainer uses is handed to nobody, wherever Ray put it. */
  lemma TrainerOnlyBundleKept(p: Plan, l: Layout, probed: map<nat, Device>, roles: Roles, i: nat)
    requires GoodLayout(p, l) && Probes(l, probed) && RolesMatch(p, l, probed, roles)
    requires i in probed && probed[i] in p.trainer && probed[i] !in p.rollout && probed[i] !in p.reward
    ensures i !in roles.rollout && i !in roles.reward
  {
    HandedBundles(p, l, probed, roles);
  }

  /** Whatever the probe, every bundle handed to the rollout reserved the worker's CPUs, and every
      bundle handed to a GPU role reserved a GPU. */
  lemma HandedBundlesReserve(p: Plan, l: Layout, probed: map<nat, Device>, roles: Roles, workerCpu: nat, i: nat)
    requires GoodPlan(p) && GoodLayout(p, l) && Assigns(p, l, probed, roles)
    ensures var requirements := Reserved(p, l, workerCpu);
            && (i in roles.rollout ==>
                  i < |l.gpus| && requirements[i].cpu == workerCpu && (p.rollout != [] ==> requirements[i].gpu))
            && (i in roles.reward ==> i < |l.gpus| && requirements[i].gpu)
  {
    if i in roles.rollout {
      var a := IndexOf(roles.rollout, i);
    }
    if i in roles.reward {
      var b := IndexOf(roles.reward, i);
    }
  }

  /** The probe on which every bundle holds the GPU it asked for, but bundles `i` and `j` changed places. */
  function Swapped(l: Layout, i: nat, j: nat): map<nat, Device>
    requires i < |l.gpus| && j < |l.gpus| && l.gpus[i].Some? && l.gpus[j].Some?
  {
    map k: nat | k < |l.gpus| && l.gpus[k].Some? ::
      if k == i then l.gpus[j].value else if k == j then l.gpus[i].value else l.gpus[k].value
  }

  /** Where the GPU that bundle `k` asked for ended up. */
  function SwapIndex(i: nat, j: nat, k: nat): nat { if k == i then j else if k == j then i else k }

  lemma SwappedInjective(l: Layout, i: nat, j: nat)
    requires Coalesced(l.gpus) && i < |l.gpus| && j < |l.gpus| && l.gpus[i].Some? && l.gpus[j].Some?
    ensures Injective(Swapped(l, i, j))
  {
    var probed := Swapped(l, i, j);
    forall x, y | x in probed && y in probed && probed[x] == probed[y] ensures x == y {
      var x', y' := SwapIndex(i, j, x), SwapIndex(i, j, y);
      assert l.gpus[x'] == Some(probed[x]) && l.gpus[y'] == Some(probed[y]);
      assert x' == y';
    }
  }

  lemma SwappedPermutes(l: Layout, i: nat, j: nat)
    requires i < |l.gpus| && j < |l.gpus| && l.gpus[i].Some? && l.gpus[j].Some?
    ensures var probed := Swapped(l, i, j); Probes(l, probed) && forall d :: d in probed.Values <==> Some(d) in l.gpus
  {
    var probed := Swapped(l, i, j);
    forall d | Some(d) in l.gpus ensures d in probed.Values {
      var at := SwapIndex(i, j, IndexOf(l.gpus, Some(d)));
      assert at in probed && probed[at] == d;
    }
    forall d | d in probed.Values ensures Some(d) in l.gpus {
      var k :| k in probed && probed[k] == d;
      assert l.gpus[SwapIndex(i, j, k)] == Some(d);
    }
  }

  ghost function Bearer(probed: map<nat, Device>, d: Device): (i: nat)
    requires d in probed.Values
    ensures i in probed && probed[i] == d
  {
    var i :| i in probed && probed[i] == d;
    i
  }

  /** A covering probe has roles. */
  lemma SomeRoles(p: Plan, l: Layout, probed: map<nat, Device>) returns (roles: Roles)
    requires Covers(probed, p.rollout) && Covers(probed, p.reward)
    ensures RolesMatch(p, l, probed, roles)
  {
    assert forall k :: 0 <= k < |p.rollout| ==> p.rollout[k] in p.rollout;
    assert forall k :: 0 <= k < |p.reward| ==> p.reward[k] in p.reward;
    var rollout := seq(|p.rollout|, k requires 0 <= k < |p.rollout| => Bearer(probed, p.rollout[k]));
    var reward := seq(|p.reward|, k requires 0 <= k < |p.reward| => Bearer(probed, p.reward[k]));
    roles := Roles(if p.rollout == [] then l.rollout else rollout, if p.reward == [] then l.reward else reward);
  }

  /** The worker's CPUs go exactly to the bundles that some placement hands to the rollout: reserving
      less could strand an engine, reserving more would be waste. */
  lemma WorkerCpuIff(p: Plan, l: Layout, i: nat)
    requires GoodPlan(p) && GoodLayout(p, l)
    ensures WithWorkerCpu(p, l, i) <==> exists probed, roles :: Assigns(p, l, probed, roles) && i in roles.rollout
  {
    if probed, roles :| Assigns(p, l, probed, roles) && i in roles.rollout {
      HandedBundlesReserve(p, l, probed, roles, 2 * MICRO_CPUS, i);
    }
    if WithWorkerCpu(p, l, i) {
      var probed, roles := SomewhereRollsOut(p, l, i);
    }
  }

  lemma SomewhereRollsOut(p: Plan, l: Layout, i: nat) returns (probed: map<nat, Device>, roles: Roles)
    requires GoodPlan(p) && GoodLayout(p, l) && WithWorkerCpu(p, l, i)
    ensures Assigns(p, l, probed, roles) && i in roles.rollout
  {
    if p.crossNode {
      probed, roles := map[], Roles(l.rollout, l.reward);
    } else if p.rollout == [] {
      probed := map k: nat | k < |l.gpus| && l.gpus[k].Some? :: l.gpus[k].value;
      CoversAsked(p, l, probed);
      roles := SomeRoles(p, l, probed);
    } else {
      assert Asks(l.gpus, l.rollout[0], p.rollout[0]);
      if i in l.rollout {
        var a := IndexOf(l.rollout, i);
        assert Asks(l.gpus, l.rollout[a], p.rollout[a]);
      }
      probed := Swapped(l, i, l.rollout[0]);
      SwappedInjective(l, i, l.rollout[0]);
      SwappedPermutes(l, i, l.rollout[0]);
      PermutationsAssign(p, l, probed);
      roles := SomeRoles(p, l, probed);
      assert roles.rollout[0] in roles.rollout && probed[roles.rollout[0]] == p.rollout[0] == probed[i];
    }
  }

  lemma CoversAsked(p: Plan, l: Layout, probed: map<nat, Device>)
    requires GoodPlan(p) && GoodLayout(p, l)
    requires probed == map k: nat | k < |l.gpus| && l.gpus[k].Some? :: l.gpus[k].value
    ensures Probes(l, probed) && Injective(probed) && Covers(probed, p.rollout) && Covers(probed, p.reward)
  {
    forall d | d in p.rollout || d in p.reward ensures d in probed.Values {
      assert Touched(p, d);
      var k := IndexOf(l.gpus, Some(d));
      assert k in probed && probed[k] == d;
    }
  }

  /** A probe that only permutes the requested GPUs always yields an assignment. */
  lemma PermutationsAssign(p: Plan, l: Layout, probed: map<nat, Device>)
    requires GoodPlan(p) && GoodLayout(p, l) && Probes(l, probed)
    requires forall d :: d in probed.Values <==> Some(d) in l.gpus
    ensures Covers(probed, p.rollout) && Covers(probed, p.reward)
  {
    forall d | d in p.rollout || d in p.reward ensures d in probed.Values {
      assert Touched(p, d);
    }
  }

  /** Across nodes the positional roles never share a bundle. */
  lemma CrossNodeRolesDisjoint(p: Plan, l: Layout)
    requires GoodPlan(p) && GoodLayout(p, l) && p.crossNode
    ensures forall i :: i in l.rollout ==> i !in l.reward
  {
    forall i | i in l.reward ensures i < |l.gpus| && l.gpus[i].Some? && l.gpus[i].value in p.reward {
      var b := IndexOf(l.reward, i);
      assert Asks(l.gpus, l.reward[b], p.reward[b]);
    }
    forall i | i in l.rollout ensures i < |l.gpus| && (l.gpus[i].Some? ==> l.gpus[i].value in p.rollout) {
      var a := IndexOf(l.rollout, i);
      assert p.rollout != [] ==> Asks(l.gpus, l.rollout[a], p.rollout[a]);
    }
  }

  // ---- From a request to a placement ------------------------------------------------------

  datatype Placed = Placed(plan: Plan, layout: Layout, requirements: seq<Bundle>, roles: Roles)

  /** Every promise of a placement on the GPUs that were probed. */
  ghost predicate GoodPlacement(placed: Placed, probed: map<nat, Device>, workerCpu: nat) {
    var p, l, roles := placed.plan, placed.layout, placed.roles;
    && |roles.rollout| == p.engines && NoDup(roles.rollout) && NoDup(roles.reward)
    && (forall i :: i in roles.rollout ==> i < |placed.requirements| && placed.requirements[i].cpu == workerCpu)
    && (forall i :: i in roles.reward ==> i < |placed.requirements| && placed.requirements[i].gpu)
    && (p.crossNode ==> forall i :: i in roles.rollout ==> i !in roles.reward)
    && (!p.crossNode ==>
          && (p.rollout != [] ==> Holds(probed, roles.rollout, p.rollout))
          && Holds(probed, roles.reward, p.reward)
          && ((exists i :: i in roles.rollout && i in roles.reward) <==> Meet(p.rollout, p.reward))
          && forall i :: i in probed && probed[i] in p.trainer && probed[i] !in p.rollout && probed[i] !in p.reward ==>
               i !in roles.rollout && i !in roles.reward)
  }

  lemma PlacementIsGood(p: Plan, l: Layout, probed: map<nat, Device>, roles: Roles, workerCpu: nat)
    requires GoodPlan(p) && GoodLayout(p, l) && Assigns(p, l, probed, roles)
    ensures GoodPlacement(Placed(p, l, Reserved(p, l, workerCpu), roles), probed, workerCpu)
  {
    RolesAreDistinct(p, l, probed, roles);
    forall i | i in roles.rollout || i in roles.reward
      ensures i in roles.rollout ==> i < |l.gpus| && Reserved(p, l, workerCpu)[i].cpu == workerCpu
      ensures i in roles.reward ==> i < |l.gpus| && Reserved(p, l, workerCpu)[i].gpu
    {
      HandedBundlesReserve(p, l, probed, roles, workerCpu, i);
    }
    if p.crossNode {
      CrossNodeRolesDisjoint(p, l);
    } else {
      SharedBundleIffSharedDevice(p, l, probed, roles);
      forall i | i in probed && probed[i] in p.trainer && probed[i] !in p.rollout && probed[i] !in p.reward
        ensures i !in roles.rollout && i !in roles.reward
      {
        TrainerOnlyBundleKept(p, l, probed, roles, i);
      }
    }
  }

  /** No two bundles hold one GPU, and the roles' GPUs are all there. */
  predicate Assignable(p: Plan, probed: map<nat, Device>) {
    Injective(probed) && Covers(probed, p.rollout) && Covers(probed, p.reward)
  }

  /** A whole placement: resolve the request, lay out bundles, reserve them, and assign the roles by what
      `probe` answers for that layout, whichever GPU each bundle got. It fails exactly when the request
      does not resolve or, on one node, the roles cannot be assigned to what was probed. */
  method Place(c: Config, auto: seq<Device>, workerCpu: nat, probe: Layout -> map<nat, Device>)
    returns (placed: Option<Placed>, layout: Layout)
    requires GoodIds(auto)
    ensures Resolve(c, auto).Some? ==> GoodLayout(Resolve(c, auto).value, layout)
    ensures placed.Some? <==>
              Resolve(c, auto).Some? && (c.crossNode || Assignable(Resolve(c, auto).value, probe(layout)))
    ensures placed.Some? ==> Resolve(c, auto) == Some(placed.value.plan) && placed.value.layout == layout
    ensures placed.Some? ==> Served(c, auto, placed.value.plan)
    ensures placed.Some? && (c.crossNode || Probes(layout, probe(layout))) ==>
              GoodPlacement(placed.value, probe(layout), workerCpu)
  {
    var plan := Resolve(c, auto);
    layout := Layout([], [], []);
    if plan.None? {
      return None, layout;
    }
    var p := plan.value;
    ResolvedPlanIsGood(c, auto);
    ResolvesIff(c, auto, p);
    hide GoodPlan, GoodLayout, Resolve, Served;
    var l := FromResources(p);
    var requirements := BundleRequirements(p, l, workerCpu);
    layout := l;
    var roles := AssignRoles(p, l, probe(l));
    if roles.None? {
      return None, layout;
    }
    placed := Some(Placed(p, l, requirements, roles.value));
    if p.crossNode || Probes(l, probe(l)) {
      assert Assigns(p, l, probe(l), roles.value);
      PlacementIsGood(p, l, probe(l), roles.value, workerCpu);
    }
  }

  // ---- Ownership of the placement group ---------------------------------------------------

  /** `GlobalRayPlacementOwner.create` and `shutdown`. `reserved` are the groups alive in the
      cluster: the owner holds the handle of every one of them, whatever fails. */
  class PlacementOwner {
    const totalBundles: nat
    var group: Option<nat>
    var ready: bool
    ghost var reserved: set<nat>

    constructor (totalBundles: nat)
      ensures this.totalBundles == totalBundles && Valid() && !ready && group == None
    {
      this.totalBundles := totalBundles;
      group, ready, reserved := None, false, {};
    }

    ghost predicate Valid()
      reads this
    {
      && reserved == (if group.Some? then {group.value} else {})
      && (ready && totalBundles > 0 ==> group.Some?)
    }

    method Remove(faulty: bool, g: nat) returns (ok: bool)
      modifies `reserved
      ensures reserved == if ok then old(reserved) - {g} else old(reserved)
      ensures !faulty ==> ok
    {
      ok := External(faulty);
      if ok {
        reserved := reserved - {g};
      }
    }

    method Create(faulty: bool) returns (ok: bool)
      requires Valid()
      modifies this
      ensures Valid() && (ok ==> ready)
      ensures !ok ==> !ready && (group == None || old(group) == None || group == old(group))
      ensures old(!ready && group.Some?) ==> !ok && group == old(group)
      ensures !faulty && old(ready || group == None) ==> ok
    {
      if ready {
        return true;
      }
      if group.Some? {
        return false;
      }
      if totalBundles == 0 {
        ready := true;
        return true;
      }
      ok := External(faulty);
      if !ok {
        return false;
      }
      var g: nat := *;
      group := Some(g);
      reserved := reserved + {g};
      ok := External(faulty);   // ready, probe and role assignment
      if !ok {
        var removed := Remove(faulty, g);
        if removed {
          group := None;
        }
        return false;
      }
      ready := true;
    }

    method Shutdown(faulty: bool) returns (ok: bool)
      requires Valid()
      modifies this
      ensures Valid() && (ok <==> reserved == {})
      ensures !ok ==> group == old(group) && ready == old(ready)
      ensures !faulty ==> ok
    {
      if group == None {
        return true;
      }
      ok := Remove(faulty, group.value);
      if ok {
        group, ready := None, false;
      }
    }
  }
}

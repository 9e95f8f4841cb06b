/** What the trainer parks and how its session does it (`TrainingStateParking` and the moving branch of
    `ParkingSession` in vrl/models/parking.py), on top of the device-move ledger. */
module TrainingParking {
  import opened Environment
  import opened Sequences
  import opened ParkingLedger

  /** A parked root with its restore device. */
  type Root = (Module, Device)

  // ---- What the ledger holds after a number of roots ------------------------------------------

  predicate HasId(roots: seq<Root>, id: nat) { exists i :: 0 <= i < |roots| && roots[i].0.id == id }

  /** Where a root is restored by default: the device its first tensor is on when it is parked. */
  function FirstDevice(m: Module, store: Store, fallback: Device): Device {
    if m.tensors != [] && m.tensors[0] in store then store[m.tensors[0]].device else fallback
  }

  /** The store with all tensors of these roots moved to the CPU. */
  ghost function Emptied(start: Store, roots: seq<Root>): Store {
    map t | t in start :: if InModules(roots, t) then start[t].(device := Cpu) else start[t]
  }

  /** The roots the ledger holds after parking these modules in order; a module parked again is skipped. */
  ghost function Held(start: Store, modules: seq<Module>, fallback: Device): seq<Root> {
    if modules == [] then []
    else
      var m, rest := modules[|modules| - 1], Held(start, modules[..|modules| - 1], fallback);
      if HasId(rest, m.id) then rest else rest + [(m, FirstDevice(m, Emptied(start, rest), fallback))]
  }

  /** Where one root's restore sends a tensor, read off the start: to the device its parameter or buffer
      had when the root was parked, the CPU if an earlier root had already moved it there. */
  ghost function HomeIn(start: Store, earlier: seq<Root>, root: Root, t: TensorId): Device {
    if !root.0.torchModule || t !in root.0.owner || root.0.owner[t] !in start then root.1
    else if InModules(earlier, root.0.owner[t]) then Cpu
    else start[root.0.owner[t]].device
  }

  ghost function LastHome(start: Store, roots: seq<Root>, t: TensorId): Device {
    if roots == [] then Cpu
    else
      var rest, root := roots[..|roots| - 1], roots[|roots| - 1];
      if t in root.0.tensors then HomeIn(start, rest, root, t) else LastHome(start, rest, t)
  }

  /** The condition on the start: the last root that owns a tensor sends it home. */
  ghost predicate ComesBack(start: Store, roots: seq<Root>) {
    forall t :: t in start && InModules(roots, t) ==> LastHome(start, roots, t) == start[t].device
  }

  /** Every root sends each of its tensors home. */
  ghost predicate Tidy(start: Store, roots: seq<Root>) {
    forall j, t :: 0 <= j < |roots| && t in roots[j].0.tensors && t in start ==>
      HomeIn(start, roots[..j], roots[j], t) == start[t].device
  }

  /** What the ledger recorded, root by root. */
  ghost predicate Recorded(start: Store, roots: seq<Root>, recorded: map<nat, map<TensorId, Device>>) {
    forall j :: 0 <= j < |roots| ==>
      && Sound(roots[j].0, start)
      && RecordedFor(recorded, roots[j].0) ==
           if roots[j].0.torchModule then DevicesOf(roots[j].0, Emptied(start, roots[..j])) else map[]
  }

  lemma TargetIsHome(start: Store, earlier: seq<Root>, root: Root, recorded: map<TensorId, Device>, t: TensorId)
    requires Sound(root.0, start) && t in root.0.tensors
    requires recorded == if root.0.torchModule then DevicesOf(root.0, Emptied(start, earlier)) else map[]
    ensures Target(root.0, root.1, recorded, t) == HomeIn(start, earlier, root, t)
  {
  }

  lemma {:induction false} LastTargetIsHome(start: Store, roots: seq<Root>, recorded: map<nat, map<TensorId, Device>>,
      t: TensorId)
    requires Recorded(start, roots, recorded)
    ensures LastTarget(roots, recorded, t) == LastHome(start, roots, t)
  {
    if roots != [] {
      var last := |roots| - 1;
      var rest, root := roots[..last], roots[last];
      assert forall j :: 0 <= j < last ==> rest[..j] == roots[..j];
      LastTargetIsHome(start, rest, recorded, t);
      if t in root.0.tensors {
        TargetIsHome(start, rest, root, RecordedFor(recorded, root.0), t);
      }
    }
  }

  /** With nothing listed beside the roots, the ledger brings everything back exactly under that
      condition on the start. */
  lemma BackIff(start: Store, roots: seq<Root>, recorded: map<nat, map<TensorId, Device>>)
    requires Recorded(start, roots, recorded)
    ensures Back(start, roots, [], recorded) <==> ComesBack(start, roots)
  {
    forall t ensures LastTarget(roots, recorded, t) == LastHome(start, roots, t) {
      LastTargetIsHome(start, roots, recorded, t);
    }
    assert forall t :: !Listed([], t);
  }

  // ---- One more root ------------------------------------------------------------------------

  lemma EmptiedMore(start: Store, roots: seq<Root>, root: Root, store: Store)
    requires OnlyMoved(Emptied(start, roots), store, Elements(root.0.tensors))
    requires forall t :: t in root.0.tensors && t in store ==> store[t].device == Cpu
    ensures store == Emptied(start, roots + [root])
  {
    forall t | t in start ensures store[t] == Emptied(start, roots + [root])[t] {
      InMore(roots, root, t);
    }
  }

  lemma RecordedMore(start: Store, roots: seq<Root>, root: Root, recorded: map<nat, map<TensorId, Device>>)
    requires Recorded(start, roots, recorded) && !HasId(roots, root.0.id) && root.0.id !in recorded
    requires Sound(root.0, start)
    ensures Sound(root.0, Emptied(start, roots))
    ensures Recorded(start, roots + [root], Recording(recorded, root.0, Emptied(start, roots)))
  {
    var roots', recorded' := roots + [root], Recording(recorded, root.0, Emptied(start, roots));
    assert forall j :: 0 <= j <= |roots| ==> roots'[..j] == roots[..j];
    forall j | 0 <= j < |roots| ensures RecordedFor(recorded', roots[j].0) == RecordedFor(recorded, roots[j].0) {
      assert roots[j].0.id != root.0.id;
    }
  }

  lemma HeldMore(start: Store, modules: seq<Module>, i: nat, fallback: Device)
    requires i < |modules|
    ensures var rest := Held(start, modules[..i], fallback);
            Held(start, modules[..i + 1], fallback) ==
              if HasId(rest, modules[i].id) then rest
              else rest + [(modules[i], FirstDevice(modules[i], Emptied(start, rest), fallback))]
  {
    assert modules[..i + 1][..i] == modules[..i];
  }

  /** These entries are what parking the modules in order leaves. */
  ghost predicate Holds(
    start: Store, modules: seq<Module>, fallback: Device, held: seq<Root>, recorded: map<nat, map<TensorId, Device>>,
        seen: set<nat>)
  {
    && held == Held(start, modules, fallback) && Recorded(start, held, recorded)
    && recorded.Keys <= seen && forall id :: id in seen <==> HasId(held, id)
  }

  lemma IdsMore(held: seq<Root>, root: Root)
    ensures forall id :: HasId(held + [root], id) <==> HasId(held, id) || id == root.0.id
  {
    assert (held + [root])[|held|] == root;
    forall id | HasId(held, id) ensures HasId(held + [root], id) {
      var i :| 0 <= i < |held| && held[i].0.id == id;
      assert (held + [root])[i].0.id == id;
    }
  }

  lemma HoldsMore(
    start: Store, modules: seq<Module>, i: nat, fallback: Device, held: seq<Root>,
    recorded: map<nat, map<TensorId, Device>>, seen: set<nat>)
    requires i < |modules| && Holds(start, modules[..i], fallback, held, recorded, seen) && Sound(modules[i], start)
    ensures var m := modules[i];
            var device := FirstDevice(m, Emptied(start, held), fallback);
            && Sound(m, Emptied(start, held))
            && (m.id in seen ==> Holds(start, modules[..i + 1], fallback, held, recorded, seen))
            && (m.id !in seen ==>
                  Holds(start, modules[..i + 1], fallback, held + [(m, device)],
                        Recording(recorded, m, Emptied(start, held)), seen + {m.id}))
  {
    var m := modules[i];
    HeldMore(start, modules, i, fallback);
    if m.id !in seen {
      var device := FirstDevice(m, Emptied(start, held), fallback);
      RecordedMore(start, held, (m, device), recorded);
      IdsMore(held, (m, device));
    }
  }

  lemma StillOut(before: Store, after: Store, seen: set<TensorId>, tensors: seq<TensorId>)
    requires OnlyMoved(before, after, Elements(tensors)) && forall t :: t in tensors ==>
              t in after && after[t].device == Cpu
    requires forall t :: t in seen ==> t in before && before[t].device == Cpu
    ensures forall t :: t in seen + Elements(tensors) ==> t in after && after[t].device == Cpu
  {
  }

  // ---- The trainer's ledger -----------------------------------------------------------------

  /** `TrainingStateParking`: the roots (the model and the reference model, those there are) and the extra
      state of optimizer, EMA and scaler. */
  class TrainingStateParking {
    const ledger: ModelParking
    const roots: seq<Module>
    const fallback: Device
    const optimizer: Tree
    const ema: Tree
    const scaler: Tree
    const emaHome: Device   // recorded when the object is built
    var emaDevice: Device

    constructor (ledger: ModelParking, roots: seq<Module>, fallback: Device, optimizer: Tree, ema: Tree, scaler: Tree,
        emaDevice: Device)
      ensures this.ledger == ledger && this.roots == roots && this.fallback == fallback
      ensures this.optimizer == optimizer && this.ema == ema && this.scaler == scaler
      ensures emaHome == this.emaDevice == emaDevice
    {
      this.ledger, this.roots, this.fallback := ledger, roots, fallback;
      this.optimizer, this.ema, this.scaler := optimizer, ema, scaler;
      emaHome, this.emaDevice := emaDevice, emaDevice;
    }

    /** The live state is in memory. */
    ghost predicate Live()
      reads this, ledger, ledger.memory
    {
      LiveIn(ledger.memory.store)
    }

    ghost predicate LiveIn(store: Store) {
      && (forall m :: m in roots ==> Sound(m, store))
      && Leaves(optimizer) + Leaves(ema) + Leaves(scaler) <= store.Keys
    }

    lemma StaysLive(start: Store)
      requires LiveIn(start) && SameData(start, ledger.memory.store)
      ensures Live()
    {
    }

    /** No move counted since then was drawn to fail. */
    ghost predicate NoFault(since: nat)
      reads ledger.memory
    {
      Quiet(ledger.memory.faults, since, ledger.memory.clock)
    }

    /** The ledger holds the first `k` roots as they were recorded. */
    ghost predicate Holding(start: Store, k: nat)
      reads this, ledger
    {
      && k <= |roots| && ledger.start == start
      && Holds(start, roots[..k], fallback, ledger.modules, ledger.moduleTensorDevices, ledger.seenModules)
    }

    /** All of the first `k` roots are on the CPU and nothing else has moved. */
    ghost predicate RootsOut(start: Store, k: nat)
      reads this, ledger, ledger.memory
    {
      Holding(start, k) && ledger.tensors == [] && ledger.memory.store == Emptied(start, ledger.modules) && SeenOut()
    }

    /** Every tensor the ledger has seen is on the CPU. */
    ghost predicate SeenOut()
      reads this, ledger, ledger.memory
    {
      forall t :: t in ledger.seenTensors ==> t in ledger.memory.store && ledger.memory.store[t].device == Cpu
    }

    /** The root half of `park_training_state`. Whatever fails, the ledger holds the roots reached. */
    method ParkRoots() returns (ok: bool, ghost k: nat)
      requires ledger.Valid() && ledger.Empty() && Live()
      modifies ledger, ledger.memory
      ensures ledger.Valid() && ledger.tensors == [] && Holding(old(ledger.memory.store), k)
      ensures ok ==> k == |roots| && RootsOut(old(ledger.memory.store), k)
      ensures old(ledger.memory.clock) <= ledger.memory.clock && (ok <==> NoFault(old(ledger.memory.clock)))
    {
      ghost var start := ledger.memory.store;
      ledger.EmptyStarts();
      NothingHeld(start);
      hide Holds, Emptied;
      k, ok := 0, true;
      for i := 0 to |roots|
        invariant ledger.Valid() && k == i && RootsOut(start, i) && (forall m :: m in roots ==> Sound(m, start))
        invariant old(ledger.memory.clock) <= ledger.memory.clock && NoFault(old(ledger.memory.clock))
      {
        ok := ParkRoot(start, i);
        k := i + 1;
        if !ok { return; }
      }
    }

    lemma NothingHeld(start: Store)
      requires ledger.Empty() && ledger.start == start == ledger.memory.store
      ensures RootsOut(start, 0)
    {
      assert roots[..0] == [];
      assert Emptied(start, []) == start;
    }

    method ParkRoot(ghost start: Store, i: nat) returns (ok: bool)
      requires ledger.Valid() && i < |roots| && RootsOut(start, i) && Sound(roots[i], start)
      modifies ledger, ledger.memory
      ensures ledger.Valid() && ledger.tensors == [] && Holding(start, i + 1)
      ensures ok ==> RootsOut(start, i + 1)
      ensures old(ledger.memory.clock) <= ledger.memory.clock && (ok <==> NoFault(old(ledger.memory.clock)))
    {
      var m := roots[i];
      ghost var held, recorded, seen := ledger.modules, ledger.moduleTensorDevices, ledger.seenModules;
      HoldsMore(start, roots, i, fallback, held, recorded, seen);
      var device := if m.tensors == [] then fallback else ledger.memory.store[m.tensors[0]].device;
      assert device == FirstDevice(m, Emptied(start, held), fallback);
      hide Holds, Emptied, RestStill, TensorsOk, ModulesOk, DevicesOf;
      ghost var before, parked := ledger.memory.store, ledger.seenTensors;
      ok := ledger.Park(m, device);
      if ok && m.id !in seen {
        EmptiedMore(start, held, (m, device), ledger.memory.store);
        StillOut(before, ledger.memory.store, parked, m.tensors);
      }
    }

    /** One piece of extra state. */
    method ParkMore(value: Tree) returns (ok: bool)
      requires ledger.Valid() && SeenOut() && Leaves(value) <= ledger.memory.store.Keys
      modifies ledger, ledger.memory
      ensures ledger.Valid() && ledger.memory.store.Keys == old(ledger.memory.store.Keys)
      ensures ledger.SameLedger(old(ledger.start), old(ledger.modules), old(ledger.moduleTensorDevices),
                old(ledger.GoesBack()))
      ensures ok ==> SeenOut() && old(ledger.seenTensors) + Leaves(value) <= ledger.seenTensors
      ensures old(ledger.memory.clock) <= ledger.memory.clock && (ok <==> NoFault(old(ledger.memory.clock)))
    {
      hide ModelParking.Valid, ModelParking.GoesBack;
      ok := ledger.ParkTensors(value);
    }

    /** The state is off the card. */
    ghost predicate Out()
      reads this, ledger, ledger.memory
    {
      forall t :: InModules(ledger.modules, t) || t in Leaves(optimizer) + Leaves(ema) + Leaves(scaler) ==>
        t in ledger.memory.store && ledger.memory.store[t].device == Cpu
    }

    /** `park_training_state`. `k` roots were reached; what a complete restore would bring back can be read
        off the state before the call. */
    method Park() returns (ok: bool, ghost k: nat)
      requires ledger.Valid() && ledger.Empty() && Live()
      modifies `emaDevice, ledger, ledger.memory
      ensures ledger.Valid() && ledger.start == old(ledger.memory.store) && k <= |roots|
      ensures ledger.modules == Held(old(ledger.memory.store), roots[..k], fallback)
      ensures ledger.GoesBack() <==> ComesBack(old(ledger.memory.store), ledger.modules)
      ensures ok ==> k == |roots| && Out() && emaDevice == Cpu
      ensures old(ledger.memory.clock) <= ledger.memory.clock && (ok <==> NoFault(old(ledger.memory.clock)))
    {
      ok, k := ParkRoots();
      BackIff(ledger.start, ledger.modules, ledger.moduleTensorDevices);
      ModulesSeen();
      assert ok ==> SeenOut();
      hide ModelParking.Valid, ModelParking.GoesBack, Holds, Held, ComesBack, Emptied, RootsOut, Live;
      if ok {
        ok := ParkExtras();
      }
    }

    lemma DataKept()
      requires ledger.Valid()
      ensures SameData(ledger.start, ledger.memory.store)
    {
    }

    /** The extra state, after the roots. */
    method ParkExtras() returns (ok: bool)
      requires ledger.Valid() && SeenOut() && forall t :: InModules(ledger.modules, t) ==> t in ledger.seenTensors
      requires Leaves(optimizer) + Leaves(ema) + Leaves(scaler) <= ledger.memory.store.Keys
      modifies `emaDevice, ledger, ledger.memory
      ensures ledger.Valid()
      ensures ledger.SameLedger(old(ledger.start), old(ledger.modules), old(ledger.moduleTensorDevices),
                old(ledger.GoesBack()))
      ensures ok ==> Out() && emaDevice == Cpu
      ensures old(ledger.memory.clock) <= ledger.memory.clock && (ok <==> NoFault(old(ledger.memory.clock)))
    {
      hide ModelParking.Valid, ModelParking.GoesBack;
      ok := ParkMore(optimizer);
      if !ok { return; }
      ok := ParkMore(ema);
      if !ok { return; }
      emaDevice := Cpu;
      ok := ParkMore(scaler);
    }

    lemma ModulesSeen()
      requires ledger.Valid()
      ensures forall t :: InModules(ledger.modules, t) ==> t in ledger.seenTensors
    {
    }

    /** `restore`: the ledger, then the EMA's own device. */
    method Restore() returns (ok: bool)
      requires ledger.Valid()
      modifies `emaDevice, ledger, ledger.memory
      ensures ledger.Valid() && SameData(old(ledger.start), ledger.memory.store)
      ensures ok ==> ledger.Empty() && emaDevice == emaHome
      ensures ok ==> (ledger.memory.store == old(ledger.start) <==> old(ledger.GoesBack()))
      ensures !ok ==> unchanged(ledger) && emaDevice == old(emaDevice)
      ensures old(ledger.memory.clock) <= ledger.memory.clock && (ok <==> NoFault(old(ledger.memory.clock)))
    {
      ok := ledger.Restore();
      if ok {
        emaDevice := emaHome;
      }
    }
  }

  // ---- When everything comes back -----------------------------------------------------------

  lemma {:induction false} HeldPrefix(start: Store, modules: seq<Module>, k: nat, fallback: Device)
    requires k <= |modules|
    ensures Held(start, modules[..k], fallback) <= Held(start, modules, fallback)
  {
    if k == |modules| {
      assert modules[..k] == modules;
    } else {
      var last := |modules| - 1;
      assert modules[..last][..k] == modules[..k];
      HeldPrefix(start, modules[..last], k, fallback);
    }
  }

  lemma {:induction false} TidyComesBack(start: Store, roots: seq<Root>)
    requires Tidy(start, roots)
    ensures ComesBack(start, roots)
  {
    if roots != [] {
      var last := |roots| - 1;
      TidyPrefix(start, roots, last);
      TidyComesBack(start, roots[..last]);
      forall t | t in start && InModules(roots, t) ensures LastHome(start, roots, t) == start[t].device {
        InMore(roots[..last], roots[last], t);
        assert roots[..last] + [roots[last]] == roots;
      }
    }
  }

  lemma TidyPrefix(start: Store, roots: seq<Root>, n: nat)
    requires Tidy(start, roots) && n <= |roots|
    ensures Tidy(start, roots[..n])
  {
    assert forall j :: 0 <= j < n ==> roots[..n][..j] == roots[..j] && roots[..n][j] == roots[j];
  }

  lemma PartComesBack(start: Store, modules: seq<Module>, k: nat, fallback: Device)
    requires k <= |modules| && Tidy(start, Held(start, modules, fallback))
    ensures ComesBack(start, Held(start, modules[..k], fallback))
  {
    var held, all := Held(start, modules[..k], fallback), Held(start, modules, fallback);
    HeldPrefix(start, modules, k, fallback);
    TidyPrefix(start, all, |held|);
    assert all[..|held|] == held;
    TidyComesBack(start, held);
  }

  /** Gradients sit with their parameters; what is no `nn.Module` sits on its restore device. */
  predicate OwnDevices(start: Store, root: Root)
    requires Sound(root.0, start)
  {
    forall t :: t in root.0.tensors ==>
      start[t].device == if root.0.torchModule then start[root.0.owner[t]].device else root.1
  }

  /** Roots that share no tensor, keep gradients with their parameters and, unless they are
      `nn.Module`s, sit wholly on one device, are tidy. */
  lemma ApartIsTidy(start: Store, roots: seq<Root>)
    requires forall j :: 0 <= j < |roots| ==> Sound(roots[j].0, start)
    requires forall i, j, t :: 0 <= i < j < |roots| && t in roots[i].0.tensors ==> t !in roots[j].0.tensors
    requires forall j :: 0 <= j < |roots| ==> OwnDevices(start, roots[j])
    ensures Tidy(start, roots)
  {
    forall j, t | 0 <= j < |roots| && t in roots[j].0.tensors
      ensures HomeIn(start, roots[..j], roots[j], t) == start[t].device
    {
      var p := roots[j].0.owner[t];
      assert p in roots[j].0.tensors;
      assert !InModules(roots[..j], p);
    }
  }

  /** Two `nn.Module`s whose gradients sit with their parameters come back exactly when every tensor that
      the second shares with the first, with its gradient, started on the CPU: its device is recorded
      after the first park has already moved it. */
  lemma SharedRootsIff(start: Store, a: Root, b: Root)
    requires Sound(a.0, start) && Sound(b.0, start) && a.0.torchModule && b.0.torchModule
    requires forall t :: t in a.0.tensors ==> start[t].device == start[a.0.owner[t]].device
    requires forall t :: t in b.0.tensors ==> start[t].device == start[b.0.owner[t]].device
    ensures ComesBack(start, [a, b]) <==>
              forall t :: t in b.0.tensors && b.0.owner[t] in a.0.tensors ==> start[t].device == Cpu
  {
    var roots := [a, b];
    assert roots[..1] == [a] && roots[..1][..0] == [];
    forall t ensures InModules([a], t) <==> t in a.0.tensors {
      InMore([], a, t);
    }
    forall t | t in start
      ensures LastHome(start, roots, t) ==
                if t in b.0.tensors then (if b.0.owner[t] in a.0.tensors then Cpu else start[t].device)
                else if t in a.0.tensors then start[t].device else Cpu
    {
      LastOfTwo(start, a, b, t);
    }
    forall t | t in b.0.tensors ensures InModules(roots, t) {
      InMore([a], b, t);
      assert [a] + [b] == roots;
    }
    forall t | InModules(roots, t) ensures t in a.0.tensors || t in b.0.tensors {
      InMore([a], b, t);
      assert [a] + [b] == roots;
    }
  }

  lemma LastOfTwo(start: Store, a: Root, b: Root, t: TensorId)
    ensures LastHome(start, [a, b], t) ==
              if t in b.0.tensors then HomeIn(start, [a], b, t)
              else if t in a.0.tensors then HomeIn(start, [], a, t) else Cpu
  {
    assert [a, b][..1] == [a] && [a][..0] == [];
    assert LastHome(start, [a], t) == if t in a.0.tensors then HomeIn(start, [], a, t) else LastHome(start, [], t);
  }

  const SHARED := 0

  /** One weight on a GPU, shared by two roots: parking and restoring both leaves it on the CPU. */
  lemma SharedWeightStays()
    ensures var start: Store := map[SHARED := Cell(Cuda(0), 7)];
            var a := Module(0, true, [SHARED], map[SHARED := SHARED]);
            var held := Held(start, [a, a.(id := 1)], Cpu);
            && |held| == 2 && !ComesBack(start, held) && LastHome(start, held, SHARED) == Cpu
  {
    var start: Store := map[SHARED := Cell(Cuda(0), 7)];
    var a := Module(0, true, [SHARED], map[SHARED := SHARED]);
    var b := a.(id := 1);
    var one := Held(start, [a], Cpu);
    assert [a][..0] == [] && [a, b][..1] == [a];
    assert Held(start, [], Cpu) == [] && !HasId([], 0);
    assert FirstDevice(a, Emptied(start, []), Cpu) == Cuda(0);
    assert one == [] + [(a, Cuda(0))] == [(a, Cuda(0))];
    var held := Held(start, [a, b], Cpu);
    assert !HasId(one, 1) && |held| == 2 && held[..1] == one && held[1].0 == b;
    InMore([], (a, Cuda(0)), SHARED);
    assert [] + [(a, Cuda(0))] == one;
    InMore(one, held[1], SHARED);
    assert one + [held[1]] == held;
  }

  // ---- The session --------------------------------------------------------------------------

  /** How parking by moving ends: `Broken` is the typed failure of a move whose rollback failed too. */
  datatype ParkResult = Parked | RolledBack | Broken

  /** `ParkingSession` with the trainer's ledger as its mechanism. */
  class MovingSession {
    const state: TrainingStateParking
    var parked: bool

    constructor (state: TrainingStateParking)
      ensures this.state == state && !parked
    {
      this.state, parked := state, false;
    }

    ghost function Now(): Store
      reads state, state.ledger, state.ledger.memory
    {
      state.ledger.memory.store
    }

    /** How many moves memory has counted. */
    ghost function Count(): nat
      reads state, state.ledger, state.ledger.memory
    {
      state.ledger.memory.clock
    }

    /** A move counted between the two was drawn to fail. */
    ghost predicate FaultIn(since: nat, until: nat)
      reads state, state.ledger, state.ledger.memory
    {
      !Quiet(state.ledger.memory.faults, since, until)
    }

    /** Ready for park and restore; a session whose rollback failed is not. */
    ghost predicate Usable()
      reads this, state, state.ledger, state.ledger.memory
    {
      state.ledger.Valid() && (!parked ==> state.ledger.Empty() && state.Live() && state.emaDevice == state.emaHome)
    }

    /** Whatever a complete restore would bring back of the roots reached. */
    ghost function Reached(start: Store, k: nat): seq<Root>
      requires k <= |state.roots|
    {
      Held(start, state.roots[..k], state.fallback)
    }

    ghost function All(start: Store): seq<Root> { Held(start, state.roots, state.fallback) }

    /** Everything is off the card; a complete restore brings it all back exactly when the last root that
        owns a tensor sends it home. */
    ghost predicate MovedOut(start: Store)
      reads state, state.ledger, state.ledger.memory
    {
      && state.Out() && state.ledger.Valid() && state.ledger.start == start && SameData(start, Now())
      && (state.ledger.GoesBack() <==> ComesBack(start, All(start)))
    }

    /** What a failed move left of the state that was there before. */
    ghost predicate CutShort(start: Store, k: nat)
      reads state, state.ledger, state.ledger.memory
    {
      && state.ledger.Valid() && state.ledger.start == start && k <= |state.roots|
      && state.LiveIn(start) && state.ledger.modules == Reached(start, k)
      && (state.ledger.GoesBack() <==> ComesBack(start, state.ledger.modules))
    }

    /** `park`; idempotent. A move that fails anywhere is undone through the ledger. */
    method Park() returns (result: ParkResult)
      requires Usable()
      modifies this, state`emaDevice, state.ledger, state.ledger.memory
      ensures result.Parked? <==> parked
      ensures old(parked) ==> parked && state.ledger.Valid() && Now() == old(Now())
      ensures !old(parked) ==> SameData(old(Now()), Now()) && (parked ==> MovedOut(old(Now())))
      ensures result.RolledBack? ==> Usable() && (Tidy(old(Now()), All(old(Now()))) ==> Now() == old(Now()))
      ensures Count() >= old(Count()) && (old(parked) ==> Count() == old(Count()))
      ensures result.Parked? <==> state.NoFault(old(Count()))
      ensures result.RolledBack? ==>
                exists m: nat :: old(Count()) <= m <= Count() && FaultIn(old(Count()), m) && state.NoFault(m)
      ensures result.Broken? ==>
                exists m: nat :: old(Count()) <= m <= Count() && FaultIn(old(Count()), m) && !state.NoFault(m)
    {
      if parked {
        return Parked;
      }
      hide MovedOut, Tidy, Sound, Held, ModelParking.Valid;
      result := MoveOrRollBack();
    }

    method MoveOrRollBack() returns (result: ParkResult)
      requires Usable() && !parked
      modifies this, state`emaDevice, state.ledger, state.ledger.memory
      ensures (result.Parked? <==> parked) && SameData(old(Now()), Now())
      ensures parked ==> MovedOut(old(Now()))
      ensures result.RolledBack? ==> Usable() && (Tidy(old(Now()), All(old(Now()))) ==> Now() == old(Now()))
      ensures Count() >= old(Count()) && (result.Parked? <==> state.NoFault(old(Count())))
      ensures result.RolledBack? ==>
                exists m: nat :: old(Count()) <= m <= Count() && FaultIn(old(Count()), m) && state.NoFault(m)
      ensures result.Broken? ==>
                exists m: nat :: old(Count()) <= m <= Count() && FaultIn(old(Count()), m) && !state.NoFault(m)
    {
      hide MovedOut, CutShort, Usable, Sound, Held, Tidy, ModelParking.Valid, SameData;
      ghost var start := Now();
      ghost var k;
      var ok;
      ok, k := Move();
      if ok {
        DataMoved(start);
        parked := true;
        return Parked;
      }
      assert FaultIn(old(Count()), Count());
      ok := RollBack(start, k);
      result := if ok then RolledBack else Broken;
    }

    lemma DataMoved(start: Store)
      requires MovedOut(start)
      ensures SameData(start, Now())
    {
    }

    /** The owner's move. */
    method Move() returns (ok: bool, ghost k: nat)
      requires Usable() && !parked
      modifies state`emaDevice, state.ledger, state.ledger.memory
      ensures if ok then MovedOut(old(Now())) else CutShort(old(Now()), k)
      ensures Count() >= old(Count()) && (ok <==> state.NoFault(old(Count())))
    {
      hide Sound, Emptied, Recorded;
      assert state.LiveIn(Now());
      hide ModelParking.Valid, ModelParking.GoesBack, ComesBack, Held, TrainingStateParking.Out,
          TrainingStateParking.LiveIn, SameData;
      ok, k := state.Park();
      state.DataKept();
      assert state.roots[..|state.roots|] == state.roots;
    }

    /** The rollback of a failed move. */
    method RollBack(ghost start: Store, ghost k: nat) returns (ok: bool)
      requires !parked && CutShort(start, k)
      modifies state`emaDevice, state.ledger, state.ledger.memory
      ensures state.ledger.Valid() && SameData(start, Now())
      ensures ok ==> Usable()
      ensures ok && Tidy(start, All(start)) ==> Now() == start
      ensures Count() >= old(Count()) && (ok <==> state.NoFault(old(Count())))
    {
      hide ModelParking.Valid, ModelParking.GoesBack, ComesBack, Held, Tidy;
      if Tidy(start, All(start)) {
        PartComesBack(start, state.roots, k, state.fallback);
      }
      ok := state.Restore();
      state.StaysLive(start);
    }

    /** `restore`. A failure leaves the session parked, and it can be tried again. */
    method Restore() returns (ok: bool)
      requires Usable()
      modifies this, state`emaDevice, state.ledger, state.ledger.memory
      ensures state.ledger.Valid()
      ensures !old(parked) ==> ok && !parked && Now() == old(Now())
      ensures old(parked) ==> (ok <==> !parked) && SameData(old(state.ledger.start), Now())
      ensures old(parked) && ok ==>
                && state.ledger.Empty() && state.emaDevice == state.emaHome
                && (Now() == old(state.ledger.start) <==> old(state.ledger.GoesBack()))
      ensures old(parked) && !ok ==>
                state.ledger.start == old(state.ledger.start)
                    && (state.ledger.GoesBack() <==> old(state.ledger.GoesBack()))
      ensures Count() >= old(Count()) && (ok <==> state.NoFault(old(Count())))
    {
      ok := true;
      if parked {
        ok := state.Restore();
        parked := !ok;
      }
    }

    /** Park, then restore until it works or `attempts` are used up: everything is back exactly when the
        last root that owns a tensor sends it home. */
    method RoundTrip(attempts: nat) returns (back: bool)
      requires Usable() && !parked
      modifies this, state`emaDevice, state.ledger, state.ledger.memory
      ensures SameData(old(Now()), Now())
      ensures back ==>
                && !parked && state.ledger.Empty() && state.emaDevice == state.emaHome
                && (Now() == old(Now()) <==>
                      ComesBack(old(Now()), All(old(Now()))))
      ensures Count() >= old(Count()) && (attempts > 0 && state.NoFault(old(Count())) ==> back)
    {
      ghost var start := Now();
      var result := Park();
      if result != Parked {
        return false;
      }
      assert parked && MovedOut(start);
      hide ModelParking.Valid, ModelParking.GoesBack, ComesBack, Held, TrainingStateParking.Out;
      back := false;
      for i := 0 to attempts
        invariant !back ==> parked && Usable() && state.ledger.start == start
        invariant !back ==> (state.ledger.GoesBack() <==> ComesBack(start, All(start)))
        invariant SameData(start, Now())
        invariant back ==> !parked && state.ledger.Empty() && state.emaDevice == state.emaHome
        invariant back ==> (Now() == start <==> ComesBack(start, All(start)))
        invariant Count() >= old(Count()) && (i > 0 && state.NoFault(old(Count())) ==> back)
      {
        if !back {
          back := Restore();
        }
      }
    }
  }
}

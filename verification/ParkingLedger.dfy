/** The device-move ledger `ModelParking` (vrl/models/parking.py): moves that can fail one by one,
    and a restore that has to undo any part of them. Tensors are ids into a memory of cells. */
module ParkingLedger {
  import opened Environment
  import opened Sequences

  type TensorId = nat
  datatype Device = Cpu | Cuda(index: nat)
  datatype Cell = Cell(device: Device, data: int)
  type Store = map<TensorId, Cell>

  /** A parked root: its parameters, gradients and buffers in `module_tensors` order, aliases
      merged as `named_parameters` and `named_buffers` do. `owner` maps a parameter or buffer to
      itself and a gradient to its parameter. `torchModule` is the `nn.Module` test. */
  datatype Module = Module(id: nat, torchModule: bool, tensors: seq<TensorId>, owner: map<TensorId, TensorId>)

  predicate Sound(m: Module, store: Store) {
    && NoDup(m.tensors)
    && (forall t :: t in m.tensors ==> t in store && t in m.owner && m.owner[t] in m.tensors)
    && (forall t :: t in m.tensors ==> m.owner[m.owner[t]] == m.owner[t])
  }

  /** Where a restore sends a tensor: the device recorded for it or, for a gradient, for its
      parameter; the root's device when none is recorded. */
  function Target(m: Module, device: Device, recorded: map<TensorId, Device>, t: TensorId): Device {
    if t in m.owner then RecordedOr(recorded, m.owner[t], device) else device
  }

  function RecordedOr(recorded: map<TensorId, Device>, t: TensorId, device: Device): Device {
    if t in recorded then recorded[t] else device
  }

  ghost predicate SameData(a: Store, b: Store) {
    a.Keys == b.Keys && forall t :: t in a ==> a[t].data == b[t].data
  }

  ghost predicate OnlyMoved(before: Store, after: Store, moved: set<TensorId>) {
    SameData(before, after) && forall t :: t in before && t !in moved ==> after[t] == before[t]
  }

  /** Some of `moved` went to the CPU, and nothing else changed. */
  ghost predicate ToCpu(before: Store, after: Store, moved: set<TensorId>) {
    && after.Keys == before.Keys
    && forall t :: t in before ==> after[t] == before[t] || (t in moved && after[t] == before[t].(device := Cpu))
  }

  /** GPU and host memory. A move that is drawn to fail changes nothing. */
  class Memory {
    var store: Store
    var clock: nat
    const faults: set<nat>

    constructor (store: Store, faults: set<nat>)
      ensures this.store == store && this.faults == faults && clock == 0
    {
      this.store, clock := store, 0;
      this.faults := faults;
    }

    /** `_move_tensor`: nothing to do when the tensor is already there. */
    method Move(t: TensorId, d: Device) returns (ok: bool)
      requires t in store
      modifies this
      ensures OnlyMoved(old(store), store, {t})
      ensures store[t].device == if ok then d else old(store)[t].device
      ensures clock == old(clock) + if old(store)[t].device == d then 0 else 1
      ensures ok <==> Quiet(faults, old(clock), clock)
    {
      if store[t].device == d {
        return true;
      }
      ok := clock !in faults;
      clock := clock + 1;
      if ok {
        store := store[t := store[t].(device := d)];
      }
    }
  }

  class ModelParking {
    const memory: Memory
    var modules: seq<(Module, Device)>
    var tensors: seq<(TensorId, Device)>
    var seenModules: set<nat>
    var seenTensors: set<TensorId>
    var moduleTensorDevices: map<nat, map<TensorId, Device>>
    ghost var start: Store   // the memory when the ledger was last empty

    constructor (memory: Memory)
      ensures this.memory == memory && Valid() && start == memory.store && Empty()
    {
      this.memory := memory;
      modules, tensors, seenModules, seenTensors, moduleTensorDevices := [], [], {}, {}, map[];
      start := memory.store;
    }

    predicate Empty()
      reads this
    {
      modules == [] && tensors == [] && seenModules == {} && seenTensors == {} && moduleTensorDevices == map[]
    }

    ghost predicate Valid()
      reads this, memory
    {
      && SameData(start, memory.store)
      && TensorsOk(start, tensors, seenTensors)
      && ModulesOk(start, modules, seenModules, seenTensors) && moduleTensorDevices.Keys <= seenModules
      && RestStill(start, memory.store, modules, tensors)
    }

    /** A complete restore would bring every tensor back. */
    ghost predicate GoesBack()
      reads this
    {
      Back(start, modules, tensors, moduleTensorDevices)
    }

    /** `park`: record every named tensor's device, then move the module to the CPU. Whatever part
        of the move fails, the ledger holds it. */
    method Park(m: Module, restoreDevice: Device) returns (ok: bool)
      requires Valid() && Sound(m, memory.store)
      modifies this, memory
      ensures Valid() && start == old(start) && tensors == old(tensors)
      ensures OnlyMoved(old(memory.store), memory.store, Elements(m.tensors))
      ensures m.id in old(seenModules) ==> ok && unchanged(this) && memory.store == old(memory.store)
      ensures m.id !in old(seenModules) ==>
                && modules == old(modules) + [(m, restoreDevice)]
                && moduleTensorDevices == Recording(old(moduleTensorDevices), m, old(memory.store))
                && seenModules == old(seenModules) + {m.id}
                && seenTensors == old(seenTensors) + Elements(m.tensors)
                && (ok ==> forall t :: t in m.tensors ==> memory.store[t].device == Cpu)
      ensures old(memory.clock) <= memory.clock && (ok <==> Quiet(memory.faults, old(memory.clock), memory.clock))
    {
      ok := true;
      if m.id !in seenModules {
        ok := ParkNew(m, restoreDevice);
      }
    }

    method ParkNew(m: Module, restoreDevice: Device) returns (ok: bool)
      requires Valid() && Sound(m, memory.store) && m.id !in seenModules
      modifies this, memory
      ensures Valid() && start == old(start) && tensors == old(tensors)
      ensures OnlyMoved(old(memory.store), memory.store, Elements(m.tensors))
      ensures modules == old(modules) + [(m, restoreDevice)] && seenModules == old(seenModules) + {m.id}
      ensures seenTensors == old(seenTensors) + Elements(m.tensors)
      ensures moduleTensorDevices == Recording(old(moduleTensorDevices), m, old(memory.store))
      ensures ok ==> forall t :: t in m.tensors ==> memory.store[t].device == Cpu
      ensures old(memory.clock) <= memory.clock && (ok <==> Quiet(memory.faults, old(memory.clock), memory.clock))
    {
      ParkModuleOk(start, memory.store, modules, tensors, seenModules, seenTensors, m, restoreDevice);
      hide ModulesOk, RestStill, TensorsOk;
      seenModules := seenModules + {m.id};
      modules := modules + [(m, restoreDevice)];
      moduleTensorDevices := Recording(moduleTensorDevices, m, memory.store);
      seenTensors := seenTensors + set t | t in m.tensors;
      ok := MoveModule(m, Cpu, map[]);
    }

    /** The tensor branch of `park_tensors`: record and move a new tensor that is off the CPU. */
    method ParkTensor(t: TensorId) returns (ok: bool)
      requires Valid() && t in memory.store
      modifies this, memory
      ensures Valid() && SameLedger(old(start), old(modules), old(moduleTensorDevices), old(GoesBack()))
      ensures seenTensors == old(seenTensors) + {t}
      ensures ToCpu(old(memory.store), memory.store, {t} - old(seenTensors))
      ensures ok && t !in old(seenTensors) ==> memory.store[t].device == Cpu
      ensures old(memory.clock) <= memory.clock && (ok <==> Quiet(memory.faults, old(memory.clock), memory.clock))
    {
      ok := true;
      if t !in seenTensors {
        ok := ParkNewTensor(t);
      }
    }

    method ParkNewTensor(t: TensorId) returns (ok: bool)
      requires Valid() && t in memory.store && t !in seenTensors
      modifies this, memory
      ensures Valid() && SameLedger(old(start), old(modules), old(moduleTensorDevices), old(GoesBack()))
      ensures seenTensors == old(seenTensors) + {t} && ToCpu(old(memory.store), memory.store, {t})
      ensures ok ==> memory.store[t].device == Cpu
      ensures old(memory.clock) <= memory.clock && (ok <==> Quiet(memory.faults, old(memory.clock), memory.clock))
    {
      var away := RecordNew(t);
      hide Back, TensorsOk, ModulesOk;
      ok := true;
      if away {
        ok := memory.Move(t, Cpu);
      }
    }

    /** Record a new tensor with its device when it is off the CPU. */
    method RecordNew(t: TensorId) returns (away: bool)
      requires Valid() && t in memory.store && t !in seenTensors
      modifies this
      ensures Valid() && SameLedger(old(start), old(modules), old(moduleTensorDevices), old(GoesBack()))
      ensures seenTensors == old(seenTensors) + {t}
      ensures away <==> memory.store[t].device != Cpu
      ensures away ==> Listed(tensors, t)
    {
      hide ModulesOk, RestStill, TensorsOk, Back, SameData, Listed;
      RecordOk(start, memory.store, modules, tensors, seenModules, seenTensors, moduleTensorDevices, t);
      seenTensors := seenTensors + {t};
      var device := memory.store[t].device;
      away := device != Cpu;
      if away {
        tensors := tensors + [(t, device)];
      }
    }

    /** `park_tensors`: every new tensor of a value goes to the CPU, and nothing else moves. */
    method ParkTensors(value: Tree) returns (ok: bool)
      requires Valid() && forall t :: t in Leaves(value) ==> t in memory.store
      modifies this, memory
      ensures Valid() && SameLedger(old(start), old(modules), old(moduleTensorDevices), old(GoesBack()))
      ensures ParkedLeaves(old(memory.store), memory.store, old(seenTensors), seenTensors, Leaves(value), ok)
      ensures old(memory.clock) <= memory.clock && (ok <==> Quiet(memory.faults, old(memory.clock), memory.clock))
      decreases value, 1
    {
      match value {
        case Other =>
          ok := true;
        case Leaf(t) =>
          ok := ParkTensor(t);
        case Node(_) =>
          ok := ParkChildren(value);
      }
    }

    method ParkChildren(value: Tree) returns (ok: bool)
      requires value.Node? && Valid() && forall t :: t in Leaves(value) ==> t in memory.store
      modifies this, memory
      ensures Valid() && SameLedger(old(start), old(modules), old(moduleTensorDevices), old(GoesBack()))
      ensures ParkedLeaves(old(memory.store), memory.store, old(seenTensors), seenTensors, Leaves(value), ok)
      ensures old(memory.clock) <= memory.clock && (ok <==> Quiet(memory.faults, old(memory.clock), memory.clock))
      decreases value, 0
    {
      var children := value.children;
      ParkedNone(memory.store, seenTensors);
      hide Valid, GoesBack, ParkedLeaves, Leaves, LeavesOf, Quiet;
      ok := true;
      for i := 0 to |children|
        invariant Valid() && SameLedger(old(start), old(modules), old(moduleTensorDevices), old(GoesBack()))
        invariant memory.store.Keys == old(memory.store.Keys)
        invariant ParkedLeaves(old(memory.store), memory.store, old(seenTensors), seenTensors, LeavesOf(children[..i]),
                  true)
        invariant old(memory.clock) <= memory.clock && Quiet(memory.faults, old(memory.clock), memory.clock)
      {
        ghost var store, seen, clock := memory.store, seenTensors, memory.clock;
        LeavesMore(children, i);
        LeavesBelow(value, i);
        ok := ParkTensors(children[i]);
        QuietMore(memory.faults, old(memory.clock), clock, memory.clock);
        ParkedMore(old(memory.store), store, memory.store, old(seenTensors), seen, seenTensors,
                   LeavesOf(children[..i]), Leaves(children[i]), ok);
        if !ok {
          ParkedWithin(old(memory.store), memory.store, old(seenTensors), seenTensors, LeavesOf(children[..i + 1]),
              Leaves(value));
          return;
        }
      }
      assert children[..|children|] == children;
      LeavesBelow(value, |children|);
    }

    /** The roots and what they recorded are untouched. */
    ghost predicate SameLedger(
      start: Store, modules: seq<(Module, Device)>, recorded: map<nat, map<TensorId, Device>>, goesBack: bool)
      reads this
    {
      this.start == start && this.modules == modules && moduleTensorDevices == recorded && (GoesBack() <==> goesBack)
    }

    /** `restore`: try every recorded move; forget the ledger only if all of them worked. A tensor several
        roots own ends up where the last of them was told to put it. */
    method Restore() returns (ok: bool)
      requires Valid()
      modifies this, memory
      ensures Valid() && SameData(old(start), memory.store)
      ensures ok ==> Empty() && start == memory.store
      ensures ok ==> forall t :: t in old(start) ==>
                memory.store[t] == old(start)[t].(device := old(Home(start, modules, tensors, moduleTensorDevices, t)))
      ensures ok ==> (memory.store == old(start) <==> old(GoesBack()))
      ensures !ok ==> unchanged(this)
      ensures old(memory.clock) <= memory.clock && (ok <==> Quiet(memory.faults, old(memory.clock), memory.clock))
    {
      ok := RestoreAll();
      if ok {
        hide Valid, Back, Home;
        Discard();
      }
    }

    /** Both loops of `restore`. */
    method RestoreAll() returns (ok: bool)
      requires Valid()
      modifies memory
      ensures Valid()
      ensures ok ==> forall t :: t in start ==>
                memory.store[t] == start[t].(device := Home(start, modules, tensors, moduleTensorDevices, t))
      ensures ok ==> (memory.store == start <==> GoesBack())
      ensures old(memory.clock) <= memory.clock && (ok <==> Quiet(memory.faults, old(memory.clock), memory.clock))
    {
      var modulesBack := RestoreModules();
      ghost var placed := memory.store;
      assert modulesBack ==> modules[..|modules|] == modules;
      var tensorsBack := RestoreTensors();
      ok := modulesBack && tensorsBack;
      if ok {
        hide LastTarget, Home, Back;
        AllHome(start, placed, memory.store, modules, tensors, seenTensors, moduleTensorDevices);
        BackIffHome(start, memory.store, modules, tensors, moduleTensorDevices);
      }
    }

    ghost predicate PlacedUpTo(k: nat)
      requires k <= |modules|
      reads this, memory
    {
      forall t :: t in memory.store && InModules(modules[..k], t) ==>
        memory.store[t].device == LastTarget(modules[..k], moduleTensorDevices, t)
    }

    /** The first loop of `restore`: a failed module does not keep the others from being tried. */
    method RestoreModules() returns (ok: bool)
      requires Valid()
      modifies memory
      ensures Valid()
      ensures ok ==> PlacedUpTo(|modules|)
      ensures old(memory.clock) <= memory.clock && (ok <==> Quiet(memory.faults, old(memory.clock), memory.clock))
    {
      ok := true;
      for i := 0 to |modules|
        invariant Valid() && (ok ==> PlacedUpTo(i))
        invariant old(memory.clock) <= memory.clock && (ok <==> Quiet(memory.faults, old(memory.clock), memory.clock))
      {
        ghost var before := memory.store;
        var moved := RestoreModule(i);
        OneMorePlaced(before, memory.store, modules, moduleTensorDevices, i);
        hide ModulesOk, RestStill, TensorsOk, LastTarget;
        ok := ok && moved;
      }
    }

    /** The second loop, over the extra tensors in reverse. */
    method RestoreTensors() returns (ok: bool)
      requires Valid()
      modifies memory
      ensures Valid()
      ensures forall t :: t in start && !Listed(tensors, t) ==> memory.store[t] == old(memory.store)[t]
      ensures ok ==> forall j :: 0 <= j < |tensors| ==> memory.store[tensors[j].0].device == tensors[j].1
      ensures old(memory.clock) <= memory.clock && (ok <==> Quiet(memory.faults, old(memory.clock), memory.clock))
    {
      ok := true;
      var k := |tensors|;
      while k > 0
        invariant 0 <= k <= |tensors| && SameData(start, memory.store)
        invariant forall t :: t in start && !Listed(tensors, t) ==> memory.store[t] == old(memory.store)[t]
        invariant ok ==> forall j :: k <= j < |tensors| ==> memory.store[tensors[j].0].device == tensors[j].1
        invariant old(memory.clock) <= memory.clock && (ok <==> Quiet(memory.faults, old(memory.clock), memory.clock))
      {
        k := k - 1;
        var moved := memory.Move(tensors[k].0, tensors[k].1);
        ok := ok && moved;
      }
    }

    method RestoreModule(i: nat) returns (ok: bool)
      requires Valid() && i < |modules|
      modifies memory
      ensures Valid()
      ensures OnlyMoved(old(memory.store), memory.store, Elements(modules[i].0.tensors))
      ensures ok ==> forall t :: t in modules[i].0.tensors ==> Placed(t, modules[i])
      ensures old(memory.clock) <= memory.clock && (ok <==> Quiet(memory.faults, old(memory.clock), memory.clock))
    {
      var m, device := modules[i].0, modules[i].1;
      ghost var before := memory.store;
      ok := MoveModule(m, device, RecordedFor(moduleTensorDevices, m));
      StillResting(start, before, memory.store, modules, tensors, i);
    }

    lemma EmptyStarts()
      requires Valid() && Empty()
      ensures start == memory.store
    {
      assert forall t :: t in start ==> !Listed(tensors, t) && !InModules(modules, t);
    }

    ghost predicate Placed(t: TensorId, entry: (Module, Device))
      reads this, memory
    {
      t in memory.store
          && memory.store[t].device == Target(entry.0, entry.1, RecordedFor(moduleTensorDevices, entry.0), t)
    }

    /** `discard`: forget everything. */
    method Discard()
      modifies this
      ensures Empty() && Valid() && start == memory.store
    {
      modules, tensors, seenModules, seenTensors, moduleTensorDevices := [], [], {}, {}, map[];
      start := memory.store;
    }

    /** Move every tensor of the module, to `device` when all targets say so and otherwise each to
        its own target. Stops at the first failure. */
    method MoveModule(m: Module, device: Device, targets: map<TensorId, Device>) returns (ok: bool)
      requires Sound(m, memory.store)
      modifies memory
      ensures OnlyMoved(old(memory.store), memory.store, Elements(m.tensors))
      ensures ok ==> forall t :: t in m.tensors ==> memory.store[t].device == Target(m, device, targets, t)
      ensures old(memory.clock) <= memory.clock && (ok <==> Quiet(memory.faults, old(memory.clock), memory.clock))
    {
      var uniform := forall t :: t in targets ==> targets[t] == device;
      for i := 0 to |m.tensors|
        invariant OnlyMoved(old(memory.store), memory.store, Elements(m.tensors))
        invariant forall j :: 0 <= j < i ==>
                  memory.store[m.tensors[j]].device == Target(m, device, targets, m.tensors[j])
        invariant old(memory.clock) <= memory.clock && Quiet(memory.faults, old(memory.clock), memory.clock)
      {
        var t := m.tensors[i];
        assert t in m.tensors;
        ok := memory.Move(t, if uniform then device else Target(m, device, targets, t));
        if !ok { return; }
      }
      ok := true;
    }
  }

  /** Extra state: a tensor, a container, or anything else. */
  datatype Tree = Leaf(tensor: TensorId) | Node(children: seq<Tree>) | Other

  function Leaves(value: Tree): set<TensorId> {
    match value
    case Leaf(t) => {t}
    case Node(children) => LeavesOf(children)
    case Other => {}
  }

  function LeavesOf(children: seq<Tree>): set<TensorId> {
    set i, t | 0 <= i < |children| && t in Leaves(children[i]) :: t
  }

  lemma LeavesMore(children: seq<Tree>, i: nat)
    requires i < |children|
    ensures LeavesOf(children[..i + 1]) == LeavesOf(children[..i]) + Leaves(children[i])
    ensures LeavesOf(children[..i + 1]) <= LeavesOf(children)
  {
    assert children[..i + 1] == children[..i] + [children[i]];
    forall t | t in Leaves(children[i]) ensures t in LeavesOf(children[..i + 1]) {
      assert t in Leaves(children[..i + 1][i]);
    }
    forall t | t in LeavesOf(children[..i]) ensures t in LeavesOf(children[..i + 1]) {
      var j :| 0 <= j < i && t in Leaves(children[..i][j]);
      assert t in Leaves(children[..i + 1][j]);
    }
  }

  lemma LeavesBelow(value: Tree, i: nat)
    requires value.Node? && i <= |value.children|
    ensures Leaves(value) == LeavesOf(value.children)
    ensures i < |value.children| ==>
              Leaves(value.children[i]) <= Leaves(value) && LeavesOf(value.children[..i + 1]) <= Leaves(value)
  {
    if i < |value.children| {
      forall t | t in LeavesOf(value.children[..i + 1]) ensures t in Leaves(value) {
        var j :| 0 <= j < i + 1 && t in Leaves(value.children[..i + 1][j]);
        assert t in Leaves(value.children[j]);
      }
    }
  }

  /** Part of `leaves` was seen for the first time; such tensors alone moved, and only to the CPU.
      When the walk got through, all of `leaves` are seen and the new ones are on the CPU. */
  ghost predicate ParkedLeaves(
    before: Store, after: Store, seenBefore: set<TensorId>, seen: set<TensorId>, leaves: set<TensorId>, through: bool)
  {
    && seenBefore <= seen <= seenBefore + leaves
    && ToCpu(before, after, leaves - seenBefore)
    && (through ==> leaves <= seen && forall t :: t in seen && t !in seenBefore ==>
          t in after && after[t].device == Cpu)
  }

  lemma ParkedMore(
    before: Store, middle: Store, after: Store, seenBefore: set<TensorId>, seenMiddle: set<TensorId>,
        seen: set<TensorId>,
    leaves: set<TensorId>, more: set<TensorId>, through: bool)
    requires ParkedLeaves(before, middle, seenBefore, seenMiddle, leaves, true)
    requires ParkedLeaves(middle, after, seenMiddle, seen, more, through)
    ensures ParkedLeaves(before, after, seenBefore, seen, leaves + more, through) && after.Keys == before.Keys
  {
  }

  lemma ParkedNone(store: Store, seen: set<TensorId>)
    ensures ParkedLeaves(store, store, seen, seen, LeavesOf([]), true)
  {
  }

  lemma ParkedWithin(
    before: Store, after: Store, seenBefore: set<TensorId>, seen: set<TensorId>, leaves: set<TensorId>,
        all: set<TensorId>)
    requires ParkedLeaves(before, after, seenBefore, seen, leaves, false) && leaves <= all
    ensures ParkedLeaves(before, after, seenBefore, seen, all, false)
  {
  }

  // ---- The ledger's invariant, as facts about its parts -----------------------------------

  ghost predicate Listed(tensors: seq<(TensorId, Device)>, t: TensorId) {
    exists i :: 0 <= i < |tensors| && tensors[i].0 == t
  }

  ghost predicate InModules(modules: seq<(Module, Device)>, t: TensorId) {
    exists i :: 0 <= i < |modules| && t in modules[i].0.tensors
  }

  /** A listed tensor is listed with the device it started on. */
  ghost predicate TensorsOk(start: Store, tensors: seq<(TensorId, Device)>, seen: set<TensorId>) {
    forall i :: 0 <= i < |tensors| ==>
      tensors[i].0 in start && tensors[i].0 in seen && tensors[i].1 == start[tensors[i].0].device
  }

  /** Each root is parked once; roots may share tensors. */
  ghost predicate ModulesOk(start: Store, modules: seq<(Module, Device)>, seenModules: set<nat>, seen: set<TensorId>) {
    && (forall i :: 0 <= i < |modules| ==> modules[i].0.id in seenModules && Sound(modules[i].0, start))
    && (forall i, t :: 0 <= i < |modules| && t in modules[i].0.tensors ==> t in seen)
    && (forall i, j :: 0 <= i < j < |modules| ==> modules[i].0.id != modules[j].0.id)
  }

  function RecordedFor(recorded: map<nat, map<TensorId, Device>>, m: Module): map<TensorId, Device> {
    if m.id in recorded then recorded[m.id] else map[]
  }

  /** What the ledger does not hold has not moved. */
  ghost predicate RestStill(
    start: Store, store: Store, modules: seq<(Module, Device)>, tensors: seq<(TensorId, Device)>)
  {
    forall t :: t in start && t in store && !Listed(tensors, t) && !InModules(modules, t) ==> store[t] == start[t]
  }

  /** The devices of the named tensors, as recorded before the move. */
  function DevicesOf(m: Module, store: Store): map<TensorId, Device>
    requires Sound(m, store)
  {
    map t | t in m.tensors && m.owner[t] == t :: store[t].device
  }

  /** Devices are recorded for an `nn.Module` only. */
  function Recording(recorded: map<nat, map<TensorId, Device>>, m: Module, store: Store)
    : map<nat, map<TensorId, Device>>
    requires Sound(m, store)
  {
    if m.torchModule then recorded[m.id := DevicesOf(m, store)] else recorded
  }

  // ---- Where a complete restore puts a tensor -----------------------------------------------

  /** The last root that owns a tensor has the last word. */
  function LastTarget(modules: seq<(Module, Device)>, recorded: map<nat, map<TensorId, Device>>, t: TensorId): Device {
    if modules == [] then Cpu
    else
      var (m, device) := modules[|modules| - 1];
      if t in m.tensors then Target(m, device, RecordedFor(recorded, m), t)
      else LastTarget(modules[..|modules| - 1], recorded, t)
  }

  ghost function Home(
    start: Store, modules: seq<(Module, Device)>, tensors: seq<(TensorId, Device)>,
    recorded: map<nat, map<TensorId, Device>>,
    t: TensorId): Device
    requires t in start
  {
    if !Listed(tensors, t) && InModules(modules, t) then LastTarget(modules, recorded, t) else start[t].device
  }

  ghost predicate Back(
    start: Store, modules: seq<(Module, Device)>, tensors: seq<(TensorId, Device)>,
    recorded: map<nat, map<TensorId, Device>>)
  {
    forall t :: t in start ==> Home(start, modules, tensors, recorded, t) == start[t].device
  }

  // ---- What the operations keep -----------------------------------------------------------

  lemma InMore(modules: seq<(Module, Device)>, entry: (Module, Device), t: TensorId)
    ensures InModules(modules + [entry], t) <==> InModules(modules, t) || t in entry.0.tensors
  {
    var modules' := modules + [entry];
    assert modules'[|modules|] == entry;
    if InModules(modules, t) {
      var i :| 0 <= i < |modules| && t in modules[i].0.tensors;
      assert modules'[i] == modules[i];
    }
  }

  lemma ParkModuleOk(
    start: Store, store: Store, modules: seq<(Module, Device)>, tensors: seq<(TensorId, Device)>, seenModules: set<nat>,
    seen: set<TensorId>, m: Module, restoreDevice: Device)
    requires SameData(start, store) && Sound(m, store) && m.id !in seenModules
    requires TensorsOk(start, tensors, seen) && ModulesOk(start, modules, seenModules, seen)
    requires RestStill(start, store, modules, tensors)
    ensures var modules' := modules + [(m, restoreDevice)];
            var seen' := seen + set t | t in m.tensors;
            && TensorsOk(start, tensors, seen') && ModulesOk(start, modules', seenModules + {m.id}, seen')
            && forall store' :: OnlyMoved(store, store', Elements(m.tensors)) ==>
                  RestStill(start, store', modules', tensors)
  {
    var modules' := modules + [(m, restoreDevice)];
    forall t ensures InModules(modules', t) <==> InModules(modules, t) || t in m.tensors {
      InMore(modules, (m, restoreDevice), t);
    }
  }

  /** A tensor nobody has seen is in no module. */
  lemma SeenIsHeld(
    start: Store, modules: seq<(Module, Device)>, tensors: seq<(TensorId, Device)>, seenModules: set<nat>,
    seen: set<TensorId>, t: TensorId)
    requires ModulesOk(start, modules, seenModules, seen) && TensorsOk(start, tensors, seen) && t !in seen
    ensures !InModules(modules, t) && !Listed(tensors, t)
    ensures ModulesOk(start, modules, seenModules, seen + {t}) && TensorsOk(start, tensors, seen + {t})
  {
  }

  lemma ListedMore(tensors: seq<(TensorId, Device)>, t: TensorId, device: Device, x: TensorId)
    ensures Listed(tensors + [(t, device)], x) <==> Listed(tensors, x) || x == t
  {
    var tensors' := tensors + [(t, device)];
    assert tensors'[|tensors|] == (t, device);
    if Listed(tensors, x) {
      var i :| 0 <= i < |tensors| && tensors[i].0 == x;
      assert tensors'[i].0 == x;
    }
  }

  lemma ListMore(
    start: Store, store: Store, modules: seq<(Module, Device)>, tensors: seq<(TensorId, Device)>, seen: set<TensorId>,
    t: TensorId, device: Device)
    requires SameData(start, store) && t in store && t in seen && store[t] == start[t] && device == start[t].device
    requires TensorsOk(start, tensors, seen) && RestStill(start, store, modules, tensors)
    ensures var tensors' := tensors + [(t, device)];
            && TensorsOk(start, tensors', seen)
            && forall store' :: OnlyMoved(store, store', {t}) ==> RestStill(start, store', modules, tensors')
  {
    forall x ensures Listed(tensors + [(t, device)], x) <==> Listed(tensors, x) || x == t {
      ListedMore(tensors, t, device, x);
    }
  }

  /** Listing a tensor that no module owns does not change what comes back. */
  lemma StillBack(
    start: Store, modules: seq<(Module, Device)>, tensors: seq<(TensorId, Device)>,
    recorded: map<nat, map<TensorId, Device>>,
    t: TensorId, device: Device)
    requires !InModules(modules, t)
    ensures Back(start, modules, tensors + [(t, device)], recorded) <==> Back(start, modules, tensors, recorded)
  {
    forall x | x in start
      ensures Home(start, modules, tensors + [(t, device)], recorded, x) == Home(start, modules, tensors, recorded, x)
    {
      ListedMore(tensors, t, device, x);
    }
  }

  lemma RecordOk(
    start: Store, store: Store, modules: seq<(Module, Device)>, tensors: seq<(TensorId, Device)>, seenModules: set<nat>,
    seen: set<TensorId>, recorded: map<nat, map<TensorId, Device>>, t: TensorId)
    requires SameData(start, store) && t in store && t !in seen
    requires TensorsOk(start, tensors, seen) && ModulesOk(start, modules, seenModules, seen)
    requires RestStill(start, store, modules, tensors)
    ensures var tensors' := tensors + [(t, store[t].device)];
            && TensorsOk(start, tensors', seen + {t}) && ModulesOk(start, modules, seenModules, seen + {t})
            && TensorsOk(start, tensors, seen + {t}) && RestStill(start, store, modules, tensors')
            && (Back(start, modules, tensors', recorded) <==> Back(start, modules, tensors, recorded))
            && Listed(tensors', t)
  {
    var device := store[t].device;
    SeenIsHeld(start, modules, tensors, seenModules, seen, t);
    assert store[t] == start[t];
    hide ModulesOk, Back;
    ListMore(start, store, modules, tensors, seen + {t}, t, device);
    StillBack(start, modules, tensors, recorded, t, device);
    ListedMore(tensors, t, device, t);
    assert OnlyMoved(store, store, {t});
  }

  lemma StillResting(
    start: Store, before: Store, after: Store, modules: seq<(Module, Device)>, tensors: seq<(TensorId, Device)>, i: nat)
    requires i < |modules| && OnlyMoved(before, after, Elements(modules[i].0.tensors))
    requires RestStill(start, before, modules, tensors)
    ensures RestStill(start, after, modules, tensors)
  {
  }

  /** One more root restored: its tensors are where it sends them, the others where they were. */
  lemma OneMorePlaced(
    before: Store, after: Store, modules: seq<(Module, Device)>, recorded: map<nat, map<TensorId, Device>>, i: nat)
    requires i < |modules| && OnlyMoved(before, after, Elements(modules[i].0.tensors))
    ensures (forall t :: t in modules[i].0.tensors && t in after ==>
               after[t].device == Target(modules[i].0, modules[i].1, RecordedFor(recorded, modules[i].0), t))
            && (forall t :: t in before && InModules(modules[..i], t) ==>
                  before[t].device == LastTarget(modules[..i], recorded, t)) ==>
              forall t :: t in after && InModules(modules[..i + 1], t) ==>
                after[t].device == LastTarget(modules[..i + 1], recorded, t)
  {
    assert modules[..i + 1] == modules[..i] + [modules[i]];
    assert modules[..i + 1][..i] == modules[..i];
    forall t ensures InModules(modules[..i + 1], t) <==> InModules(modules[..i], t) || t in modules[i].0.tensors {
      InMore(modules[..i], modules[i], t);
    }
  }

  /** With every recorded move done, every cell is where the ledger says. */
  lemma AllHome(
    start: Store, placed: Store, store: Store, modules: seq<(Module, Device)>, tensors: seq<(TensorId, Device)>,
    seen: set<TensorId>, recorded: map<nat, map<TensorId, Device>>)
    requires SameData(start, placed) && SameData(start, store)
    requires TensorsOk(start, tensors, seen) && RestStill(start, store, modules, tensors)
    requires forall t :: t in placed && InModules(modules, t) ==> placed[t].device == LastTarget(modules, recorded, t)
    requires forall t :: t in start && !Listed(tensors, t) ==> store[t] == placed[t]
    requires forall j :: 0 <= j < |tensors| && tensors[j].0 in store ==> store[tensors[j].0].device == tensors[j].1
    ensures forall t :: t in start ==> store[t] == start[t].(device := Home(start, modules, tensors, recorded, t))
  {
    forall t | t in start ensures store[t].device == Home(start, modules, tensors, recorded, t) {
      if Listed(tensors, t) {
        var j :| 0 <= j < |tensors| && tensors[j].0 == t;
      }
    }
  }

  lemma BackIffHome(
    start: Store, store: Store, modules: seq<(Module, Device)>, tensors: seq<(TensorId, Device)>,
    recorded: map<nat, map<TensorId, Device>>)
    requires SameData(start, store)
    requires forall t :: t in start ==> store[t] == start[t].(device := Home(start, modules, tensors, recorded, t))
    ensures store == start <==> Back(start, modules, tensors, recorded)
  {
  }
}

/** FP32 master weights under low-precision parameters (vrl/trainers/optimizer.py), as a refinement
    of the wrapped optimizer. Numbers are opaque; `widen` and `round` convert between the two
    precisions, and rounding a widened value gives it back. */
module MasterOptimizer {
  import opened Sequences

  type Wide = int
  type Low = int
  type Moments = int

  /** The wrapped optimizer's step: deterministic, and one value out per value in. */
  type Update = (Moments, seq<Wide>, seq<Option<Wide>>) -> (Moments, seq<Wide>)

  datatype Gradient = Gradient(value: Low, sparse: bool, local: bool)

  /** A parameter that is its own master, or a low-precision source with an FP32 master. */
  datatype Param =
    | Shared(master: Wide, masterGrad: Option<Wide>)
    | Split(low: Low, lowGrad: Option<Gradient>, master: Wide, masterGrad: Option<Wide>)

  datatype State = State(params: seq<Param>, moments: Moments, prepared: bool)

  /** What is fixed for one optimizer: the wrapped step, the conversions, the wrapped type's name, the
      shape of each master, and which moments the wrapped `load_state_dict` takes. */
  datatype Backend = Backend(
    update: Update,
    widen: Low -> Wide,
    round: Wide -> Low,
    optimizerType: string,
    shape: nat -> nat,
    takes: Moments -> bool)

  ghost predicate Sound(b: Backend) {
    && (forall x :: b.round(b.widen(x)) == x)
    && forall m, v, g :: |v| == |g| ==> |b.update(m, v, g).1| == |v|
  }

  function MasterOf(p: Param): Wide { p.master }
  function GradOf(p: Param): Option<Wide> { p.masterGrad }

  function Masters(params: seq<Param>): seq<Wide> { Image((p: Param) => MasterOf(p), params) }
  function Grads(params: seq<Param>): seq<Option<Wide>> { Image((p: Param) => GradOf(p), params) }

  // ---- The operations on one parameter ----------------------------------------------------

  predicate Rejected(p: Param) {
    p.Split? && p.lowGrad.Some? && (p.lowGrad.value.sparse || !p.lowGrad.value.local)
  }

  function PrepareParam(b: Backend, p: Param): Param {
    match p
    case Shared(_, _) => p
    case Split(_, None, _, _) => p.(masterGrad := None)
    case Split(_, Some(g), _, _) => p.(masterGrad := Some(b.widen(g.value)), lowGrad := None)
  }

  function PublishParam(b: Backend, p: Param, master: Wide): Param {
    match p
    case Shared(_, grad) => Shared(master, grad)
    case Split(_, _, _, _) => p.(master := master, low := b.round(master))
  }

  function ClearParam(p: Param, toNone: bool): Param {
    var p' := p.(masterGrad := if toNone || p.masterGrad.None? then None else Some(0));
    match p'
    case Shared(_, _) => p'
    case Split(_, lowGrad, _, _) =>
      p'.(lowGrad := if toNone || lowGrad.None? then None else Some(lowGrad.value.(value := 0)))
  }

  // ---- The operations on the optimizer ------------------------------------------------------

  predicate PrepareRaises(s: State) {
    s.prepared || exists p :: p in s.params && Rejected(p)
  }

  function Prepare(b: Backend, s: State): State {
    if PrepareRaises(s) then s
    else State(Image((p: Param) => PrepareParam(b, p), s.params), s.moments, true)
  }

  function PublishAll(b: Backend, params: seq<Param>, masters: seq<Wide>): seq<Param>
    requires |params| == |masters|
  {
    seq(|params|, i requires 0 <= i < |params| => PublishParam(b, params[i], masters[i]))
  }

  function Stepped(b: Backend, s: State): State
    requires |b.update(s.moments, Masters(s.params), Grads(s.params)).1| == |s.params|
  {
    if !s.prepared then s
    else
      var (moments, masters) := b.update(s.moments, Masters(s.params), Grads(s.params));
      State(PublishAll(b, s.params, masters), moments, false)
  }

  function Clear(s: State, toNone: bool): State {
    State(Image((p: Param) => ClearParam(p, toNone), s.params), s.moments, false)
  }

  /** An entry of a saved parameter list. */
  datatype Entry = NoTensor | Tensor(value: Wide, fp32: bool, shape: nat)

  /** The `fp32_master_weights` part of a snapshot; `parameters` is `None` when it is no list. */
  datatype MasterState = MasterState(
    keys: set<string>,
    version: int,
    optimizerType: string,
    parameters: Option<seq<Entry>>)

  /** What `state_dict` saves: the moments, and the masters the sources cannot hold. The masters are
      copied, as a caller must do with the live tensors the code returns. A snapshot to be loaded may
      lack the masters, or hold anything. */
  datatype Snapshot = Snapshot(moments: Moments, masters: Option<MasterState>)

  const MASTER_KEYS := {"version", "optimizer_type", "parameters"}

  function SavedMaster(b: Backend, i: nat, p: Param): Entry {
    if p.Shared? then NoTensor else Tensor(p.master, true, b.shape(i))
  }

  function SavedMasters(b: Backend, params: seq<Param>): seq<Entry> {
    seq(|params|, i requires 0 <= i < |params| => SavedMaster(b, i, params[i]))
  }

  function Save(b: Backend, s: State): Snapshot {
    Snapshot(s.moments, Some(MasterState(MASTER_KEYS, 1, b.optimizerType, Some(SavedMasters(b, s.params)))))
  }

  predicate EntryFits(b: Backend, i: nat, p: Param, entry: Entry) {
    match entry
    case NoTensor => p.Shared?
    case Tensor(_, fp32, shape) => p.Split? && fp32 && shape == b.shape(i)
  }

  /** `_validate_master_state`. */
  predicate Fits(b: Backend, s: State, saved: Snapshot) {
    && saved.masters.Some?
    && var m := saved.masters.value;
    && m.keys == MASTER_KEYS && m.version == 1 && m.optimizerType == b.optimizerType
    && m.parameters.Some? && |m.parameters.value| == |s.params|
    && forall i :: 0 <= i < |s.params| ==> EntryFits(b, i, s.params[i], m.parameters.value[i])
  }

  function Loaded(b: Backend, p: Param, entry: Entry): Param {
    PublishParam(b, p, if entry.NoTensor? then p.master else entry.value)
  }

  /** A load changes nothing when the masters do not fit, or when the wrapped optimizer, asked next,
      refuses the moments. */
  predicate Loads(b: Backend, s: State, saved: Snapshot) {
    Fits(b, s, saved) && b.takes(saved.moments)
  }

  function Load(b: Backend, s: State, saved: Snapshot): State {
    if !Loads(b, s, saved) then s
    else
      State(seq(|s.params|,
          i requires 0 <= i < |s.params| => Loaded(b, s.params[i], saved.masters.value.parameters.value[i])),
            saved.moments, false)
  }

  /** Every source shows its rounded master. */
  ghost predicate Published(b: Backend, s: State) {
    forall i :: 0 <= i < |s.params| && s.params[i].Split? ==> s.params[i].low == b.round(s.params[i].master)
  }

  /** Masters start as widened sources. */
  ghost predicate Fresh(b: Backend, s: State) {
    !s.prepared && forall i :: 0 <= i < |s.params| && s.params[i].Split? ==>
        s.params[i].master == b.widen(s.params[i].low)
  }

  // ---- Call sequences -------------------------------------------------------------------------

  /** What happens to an optimizer. `Backward` leaves gradients: low-precision ones on the sources,
      FP32 ones on shared parameters. `Adjust` is unscaling or clipping between prepare and step. */
  datatype Event =
    | Backward(low: seq<Option<Gradient>>, wide: seq<Option<Wide>>)
    | DoPrepare
    | Adjust(f: Wide -> Wide)
    | DoStep
    | DoClear(toNone: bool)

  function BackwardParam(p: Param, low: Option<Gradient>, wide: Option<Wide>): Param {
    match p
    case Shared(master, _) => Shared(master, wide)
    case Split(_, _, _, _) => p.(lowGrad := low)
  }

  function AdjustParam(p: Param, f: Wide -> Wide): Param {
    p.(masterGrad := if p.masterGrad.None? then None else Some(f(p.masterGrad.value)))
  }

  function Apply(b: Backend, s: State, e: Event): State
    requires |b.update(s.moments, Masters(s.params), Grads(s.params)).1| == |s.params|
  {
    match e
    case Backward(low, wide) =>
      if |low| == |wide| == |s.params| then
        s.(params := seq(|s.params|, i requires 0 <= i < |s.params| => BackwardParam(s.params[i], low[i], wide[i])))
      else s
    case DoPrepare => Prepare(b, s)
    case Adjust(f) => if s.prepared then s.(params := Image((p: Param) => AdjustParam(p, f), s.params)) else s
    case DoStep => Stepped(b, s)
    case DoClear(toNone) => Clear(s, toNone)
  }

  lemma SoundUpdate(b: Backend, s: State)
    requires Sound(b)
    ensures |b.update(s.moments, Masters(s.params), Grads(s.params)).1| == |s.params|
  {
  }

  ghost function Run(b: Backend, s: State, events: seq<Event>): State
    requires Sound(b)
    decreases |events|
  {
    SoundUpdate(b, s);
    if events == [] then s else Run(b, Apply(b, s, events[0]), events[1..])
  }

  // ---- The gradients alone --------------------------------------------------------------------

  /** The gradient side of a parameter, without any weight. */
  datatype GradParam = GradParam(shared: bool, low: Option<Gradient>, wide: Option<Wide>)

  datatype GradState = GradState(params: seq<GradParam>, prepared: bool)

  function GradParamOf(p: Param): GradParam {
    GradParam(p.Shared?, if p.Split? then p.lowGrad else None, p.masterGrad)
  }

  function GradStateOf(s: State): GradState {
    GradState(Image((p: Param) => GradParamOf(p), s.params), s.prepared)
  }

  predicate GradRejected(p: GradParam) {
    !p.shared && p.low.Some? && (p.low.value.sparse || !p.low.value.local)
  }

  function GradPrepare(b: Backend, p: GradParam): GradParam {
    if p.shared then p
    else if p.low.None? then p.(wide := None)
    else p.(wide := Some(b.widen(p.low.value.value)), low := None)
  }

  function GradClear(p: GradParam, toNone: bool): GradParam {
    p.(wide := if toNone || p.wide.None? then None else Some(0),
       low := if p.shared then p.low else if toNone || p.low.None? then None else Some(p.low.value.(value := 0)))
  }

  function GradApply(b: Backend, g: GradState, e: Event): GradState {
    match e
    case Backward(low, wide) =>
      if |low| == |wide| == |g.params| then
        g.(params := seq(|g.params|, i requires 0 <= i < |g.params| =>
                           if g.params[i].shared then g.params[i].(wide := wide[i]) else g.params[i].(low := low[i])))
      else g
    case DoPrepare =>
      if g.prepared || exists p :: p in g.params && GradRejected(p) then g
      else GradState(Image((p: GradParam) => GradPrepare(b, p), g.params), true)
    case Adjust(f) =>
      if g.prepared then
        g.(params :=
            Image((p: GradParam) => p.(wide := if p.wide.None? then None else Some(f(p.wide.value))), g.params))
      else g
    case DoStep => g.(prepared := false)
    case DoClear(toNone) => GradState(Image((p: GradParam) => GradClear(p, toNone), g.params), false)
  }

  function WideOf(g: GradState): seq<Option<Wide>> { Image((p: GradParam) => p.wide, g.params) }

  /** The gradient lists the wrapped optimizer steps on: the widened source gradients as last
      prepared, adjusted, and the shared ones as they are. Weights play no part. */
  ghost function Feeds(b: Backend, g: GradState, events: seq<Event>): seq<seq<Option<Wide>>>
    decreases |events|
  {
    if events == [] then []
    else
      (if events[0].DoStep? && g.prepared then [WideOf(g)] else []) + Feeds(b, GradApply(b, g, events[0]), events[1..])
  }

  /** The bare optimizer stepped on one gradient list after another. */
  ghost function Bare(b: Backend, moments: Moments, values: seq<Wide>, feeds: seq<seq<Option<Wide>>>)
    : (Moments, seq<Wide>)
    decreases |feeds|
  {
    if feeds == [] then (moments, values)
    else
      var (moments', values') := b.update(moments, values, feeds[0]);
      Bare(b, moments', values', feeds[1..])
  }

  lemma GradsFollow(b: Backend, s: State, e: Event)
    requires Sound(b)
    ensures |b.update(s.moments, Masters(s.params), Grads(s.params)).1| == |s.params|
    ensures GradStateOf(Apply(b, s, e)) == GradApply(b, GradStateOf(s), e)
    ensures WideOf(GradStateOf(s)) == Grads(s.params)
  {
    SoundUpdate(b, s);
    var g := GradStateOf(s);
    RejectionShows(s);
    assert GradStateOf(Apply(b, s, e)).params == GradApply(b, g, e).params;
  }

  /** Whether `prepare_gradients` rejects can be seen on the gradients alone. */
  lemma RejectionShows(s: State)
    ensures (exists p :: p in s.params && Rejected(p)) <==> (exists p :: p in GradStateOf(s).params && GradRejected(p))
  {
    var g := GradStateOf(s);
    if p :| p in s.params && Rejected(p) {
      var i := IndexOf(s.params, p);
      assert g.params[i] in g.params;
    }
    if p :| p in g.params && GradRejected(p) {
      var i := IndexOf(g.params, p);
      assert s.params[i] in s.params;
    }
  }

  lemma MastersFollow(b: Backend, s: State, e: Event)
    requires Sound(b)
    ensures |b.update(s.moments, Masters(s.params), Grads(s.params)).1| == |s.params|
    ensures var s' := Apply(b, s, e);
            (s'.moments, Masters(s'.params)) ==
              if e.DoStep? && s.prepared then b.update(s.moments, Masters(s.params), Grads(s.params))
              else (s.moments, Masters(s.params))
  {
    SoundUpdate(b, s);
    var s' := Apply(b, s, e);
    if e.DoStep? && s.prepared {
      assert Masters(s'.params) == b.update(s.moments, Masters(s.params), Grads(s.params)).1;
    } else {
      assert Masters(s'.params) == Masters(s.params);
    }
  }

  /** Refinement: over any call sequence the masters and moments follow exactly the trajectory of
      the wrapped optimizer stepped on the widened gradients. */
  lemma {:induction false} MastersFollowBare(b: Backend, s: State, events: seq<Event>)
    requires Sound(b)
    ensures var s' := Run(b, s, events);
            (s'.moments, Masters(s'.params)) == Bare(b, s.moments, Masters(s.params), Feeds(b, GradStateOf(s), events))
    decreases |events|
  {
    if events != [] {
      GradsFollow(b, s, events[0]);
      MastersFollow(b, s, events[0]);
      var s' := Apply(b, s, events[0]);
      MastersFollowBare(b, s', events[1..]);
      var rest := Feeds(b, GradStateOf(s'), events[1..]);
      if events[0].DoStep? && s.prepared {
        assert ([WideOf(GradStateOf(s))] + rest)[1..] == rest;
      } else {
        assert [] + rest == rest;
      }
    }
  }

  // ---- Publication, rejection, reload ---------------------------------------------------------

  lemma FreshIsPublished(b: Backend, s: State)
    requires Sound(b) && Fresh(b, s)
    ensures Published(b, s)
  {
  }

  /** Whatever is called, every source shows its rounded master, and stays the source it was. */
  lemma {:induction false} AlwaysPublished(b: Backend, s: State, events: seq<Event>)
    requires Sound(b) && Published(b, s)
    ensures Published(b, Run(b, s, events)) && |Run(b, s, events).params| == |s.params|
    ensures forall i :: 0 <= i < |s.params| ==> (Run(b, s, events).params[i].Shared? <==> s.params[i].Shared?)
    decreases |events|
  {
    if events != [] {
      SoundUpdate(b, s);
      AlwaysPublished(b, Apply(b, s, events[0]), events[1..]);
    }
  }

  /** A rejected or repeated `prepare_gradients` changes no gradient; an accepted one moves every
      source gradient, widened, to its master. */
  lemma PrepareAllOrNothing(b: Backend, s: State)
    ensures PrepareRaises(s) ==> Prepare(b, s) == s
    ensures !PrepareRaises(s) ==>
              && Prepare(b, s).prepared && |Prepare(b, s).params| == |s.params|
              && forall i :: 0 <= i < |s.params| ==>
                   if s.params[i].Shared? then Prepare(b, s).params[i] == s.params[i]
                   else Prepare(b, s).params[i] ==
                          s.params[i].(lowGrad := None,
                                       masterGrad := if s.params[i].lowGrad.None? then None
                                                     else Some(b.widen(s.params[i].lowGrad.value.value)))
  {
  }

  /** The parts a snapshot does not hold agree: shared weights, which the model's own checkpoint
      carries, and pending gradients. */
  ghost predicate SameRest(s: State, t: State) {
    && |s.params| == |t.params|
    && forall i :: 0 <= i < |s.params| ==>
         match (s.params[i], t.params[i])
         case (Shared(m, g), Shared(m', g')) => m == m' && g == g'
         case (Split(_, lg, _, mg), Split(_, lg', _, mg')) => lg == lg' && mg == mg'
         case _ => false
  }

  lemma OwnSnapshotFits(b: Backend, s: State, t: State)
    ensures Fits(b, t, Save(b, s)) <==>
              |s.params| == |t.params| && forall i :: 0 <= i < |s.params| ==>
                  (s.params[i].Shared? <==> t.params[i].Shared?)
  {
    if Fits(b, t, Save(b, s)) {
      forall i | 0 <= i < |s.params| ensures s.params[i].Shared? <==> t.params[i].Shared? {
        assert EntryFits(b, i, t.params[i], SavedMasters(b, s.params)[i]);
      }
    }
  }

  /** Loading what an optimizer saved, when the wrapped optimizer takes its moments, gives the optimizer
      back exactly when it was saved between steps, its sources showed their masters, and what a snapshot
      does not hold is the same; otherwise nothing changes. */
  lemma LoadRestores(b: Backend, s: State, t: State)
    ensures b.takes(s.moments) ==> (Load(b, t, Save(b, s)) == s <==> Published(b, s) && !s.prepared && SameRest(s, t))
    ensures !b.takes(s.moments) ==> Load(b, t, Save(b, s)) == t
  {
    OwnSnapshotFits(b, s, t);
    var loaded := Load(b, t, Save(b, s));
    hide Fits;
    if Loads(b, t, Save(b, s)) {
      forall i | 0 <= i < |s.params|
        ensures loaded.params[i] == Loaded(b, t.params[i], SavedMaster(b, i, s.params[i]))
      {
      }
      if Published(b, s) && !s.prepared && SameRest(s, t) {
        assert loaded.params == s.params;
      }
    }
  }

  /** So it has the same future, whatever is called next. */
  lemma SameFuture(b: Backend, s: State, t: State, events: seq<Event>)
    requires Sound(b) && Published(b, s) && !s.prepared && SameRest(s, t) && b.takes(s.moments)
    ensures Run(b, Load(b, t, Save(b, s)), events) == Run(b, s, events)
  {
    LoadRestores(b, s, t);
  }

  // ---- The optimizer object -------------------------------------------------------------------

  /** How a load ends: done, masters that do not fit, or moments the wrapped optimizer refuses. */
  datatype LoadOutcome = Restored | BadMasters | BadMoments

  class FP32MasterWeightOptimizer {
    const backend: Backend
    var params: seq<Param>
    var moments: Moments
    var prepared: bool

    constructor (backend: Backend, sources: seq<Param>, moments: Moments)
      requires sources != [] && Sound(backend)
      ensures this.backend == backend && Fresh(backend, View()) && Published(backend, View()) && |params| == |sources|
      ensures View().moments == moments && forall i :: 0 <= i < |sources| ==> params[i].Shared? == sources[i].Shared?
    {
      this.backend := backend;
      this.moments, prepared := moments, false;
      params := seq(|sources|, i requires 0 <= i < |sources| => Master(backend, sources[i]));
      new;
      FreshIsPublished(backend, View());
    }

    function View(): State
      reads this
    {
      State(params, moments, prepared)
    }

    /** `prepare_gradients`: validate every binding before moving any gradient. */
    method PrepareGradients() returns (ok: bool)
      modifies `params, `prepared
      ensures View() == Prepare(backend, old(View())) && (ok <==> !PrepareRaises(old(View())))
      ensures !ok ==> View() == old(View())
    {
      if prepared {
        return false;
      }
      for i := 0 to |params|
        invariant forall j :: 0 <= j < i ==> !Rejected(params[j])
        invariant View() == old(View())
      {
        if Rejected(params[i]) {
          assert params[i] in params;
          return false;
        }
      }
      ghost var before := params;
      for i := 0 to |params|
        invariant |params| == |before| && moments == old(moments) && prepared == old(prepared)
        invariant forall j :: 0 <= j < |params| ==>
                  params[j] == if j < i then PrepareParam(backend, before[j]) else before[j]
      {
        params := params[i := PrepareParam(backend, params[i])];
      }
      prepared := true;
      assert params == Image((p: Param) => PrepareParam(backend, p), before);
      return true;
    }

    /** `_copy_masters_to_sources` after the wrapped step wrote `masters`. */
    method Publish(masters: seq<Wide>)
      requires |masters| == |params|
      modifies `params
      ensures params == PublishAll(backend, old(params), masters)
    {
      ghost var before := params;
      for i := 0 to |params|
        invariant |params| == |before|
        invariant forall j :: 0 <= j < |params| ==>
                  params[j] == if j < i then PublishParam(backend, before[j], masters[j]) else before[j]
      {
        params := params[i := PublishParam(backend, params[i], masters[i])];
      }
    }

    /** `step`; only prepared gradients are stepped on. */
    method Step() returns (ok: bool)
      requires Sound(backend)
      modifies this
      ensures |backend.update(old(moments), Masters(old(params)), Grads(old(params))).1| == |old(params)|
      ensures View() == Stepped(backend, old(View())) && (ok <==> old(prepared))
    {
      SoundUpdate(backend, View());
      if !prepared {
        return false;
      }
      var result := backend.update(moments, Masters(params), Grads(params));
      moments := result.0;
      Publish(result.1);
      prepared := false;
      return true;
    }

    method ZeroGrad(toNone: bool)
      modifies `params, `prepared
      ensures View() == Clear(old(View()), toNone)
    {
      ghost var before := params;
      for i := 0 to |params|
        invariant |params| == |before| && moments == old(moments)
        invariant forall j :: 0 <= j < |params| ==>
                  params[j] == if j < i then ClearParam(before[j], toNone) else before[j]
      {
        params := params[i := ClearParam(params[i], toNone)];
      }
      prepared := false;
      assert params == Image((p: Param) => ClearParam(p, toNone), before);
    }

    /** `state_dict`: the moments, and every master that its source cannot hold. */
    method StateDict() returns (saved: Snapshot)
      ensures saved == Save(backend, View())
    {
      var masters: seq<Entry> := [];
      for i := 0 to |params|
        invariant masters == SavedMasters(backend, params)[..i]
      {
        masters := masters + [if params[i].Shared? then NoTensor else Tensor(params[i].master, true, backend.shape(i))];
      }
      assert masters == SavedMasters(backend, params);
      saved := Snapshot(moments, Some(MasterState(MASTER_KEYS, 1, backend.optimizerType, Some(masters))));
    }

    /** `_validate_master_state`: check by check, the first failure raises. */
    method ValidateMasterState(saved: Snapshot) returns (masters: Option<seq<Entry>>)
      ensures masters.Some? <==> Fits(backend, View(), saved)
      ensures masters.Some? ==> masters == saved.masters.value.parameters
    {
      if saved.masters.None? {
        return None;
      }
      var state := saved.masters.value;
      if state.keys != MASTER_KEYS || state.version != 1 || state.optimizerType != backend.optimizerType {
        return None;
      }
      if state.parameters.None? || |state.parameters.value| != |params| {
        return None;
      }
      for i := 0 to |params|
        invariant forall j :: 0 <= j < i ==> EntryFits(backend, j, params[j], state.parameters.value[j])
      {
        var entry := state.parameters.value[i];
        if params[i].Shared? {
          if entry != NoTensor {
            return None;
          }
        } else if entry.NoTensor? || !entry.fp32 || entry.shape != backend.shape(i) {
          return None;
        }
      }
      return state.parameters;
    }

    /** `load_state_dict`: the masters are checked, then the wrapped optimizer loads the moments, and only
        then do the masters change. Either refusal changes nothing. */
    method LoadStateDict(saved: Snapshot) returns (outcome: LoadOutcome)
      modifies this
      ensures View() == Load(backend, old(View()), saved)
      ensures outcome.BadMasters? <==> !Fits(backend, old(View()), saved)
      ensures outcome.BadMoments? <==> Fits(backend, old(View()), saved) && !backend.takes(saved.moments)
      ensures !outcome.Restored? ==> View() == old(View())
    {
      var masters := ValidateMasterState(saved);
      if masters.None? {
        return BadMasters;
      }
      if !backend.takes(saved.moments) {
        return BadMoments;
      }
      moments := saved.moments;
      ghost var before := params;
      for i := 0 to |params|
        invariant |params| == |before| && moments == saved.moments && |masters.value| == |params|
        invariant forall j :: 0 <= j < |params| ==>
                    params[j] == if j < i then Loaded(backend, before[j], masters.value[j]) else before[j]
      {
        params := params[i := Loaded(backend, params[i], masters.value[i])];
      }
      prepared := false;
      assert params == Load(backend, old(View()), saved).params;
      return Restored;
    }
  }

  /** A source with the master the constructor gives it. */
  function Master(b: Backend, p: Param): Param {
    match p
    case Shared(_, _) => p
    case Split(low, lowGrad, _, _) => Split(low, lowGrad, b.widen(low), None)
  }
}

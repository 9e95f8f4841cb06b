/** Retained policy versions (`TrainableStateSlots`, vrl/models/weight_utils.py) as a bounded view
    of everything ever installed. */
module PolicySlots {
  import opened Sequences

  type Payload = int

  /** The `k` largest versions of a history, with their payloads. */
  ghost predicate Window(k: nat, history: map<nat, Payload>, slots: map<nat, Payload>) {
    && (forall v :: v in slots ==> v in history && slots[v] == history[v])
    && |slots| == (if |history| < k then |history| else k)
    && forall u, v :: u in history && u !in slots && v in slots ==> u < v
  }

  /** The window is determined by the history. */
  lemma WindowUnique(k: nat, history: map<nat, Payload>, a: map<nat, Payload>, b: map<nat, Payload>)
    requires Window(k, history, a) && Window(k, history, b)
    ensures a == b
  {
    if v :| v in a && v !in b {
      Crossed(history, a, b, v);
    }
    if v :| v in b && v !in a {
      Crossed(history, b, a, v);
    }
    assert a.Keys == b.Keys;
  }

  lemma Crossed(history: map<nat, Payload>, a: map<nat, Payload>, b: map<nat, Payload>, v: nat)
    requires v in a && v !in b && |a| == |b| && a.Keys <= history.Keys && b.Keys <= history.Keys
    ensures exists u :: u in b && u !in a
  {
    if b.Keys <= a.Keys {
      assert b.Keys <= a.Keys - {v};
      Smaller(b.Keys, a.Keys - {v});
    }
  }

  lemma Smaller(a: set<nat>, b: set<nat>)
    requires a <= b
    ensures |a| <= |b|
  {
    assert a + (b - a) == b;
  }

  method Least(versions: set<nat>) returns (least: nat)
    requires versions != {}
    ensures least in versions && forall v :: v in versions ==> least <= v
  {
    least :| least in versions;
    var todo := versions - {least};
    while todo != {}
      invariant todo <= versions && least in versions && forall v :: v in versions && v !in todo ==> least <= v
      decreases |todo|
    {
      var v :| v in todo;
      least := if v < least then v else least;
      todo := todo - {v};
    }
  }

  method Greatest(versions: set<nat>) returns (greatest: nat)
    requires versions != {}
    ensures greatest in versions && forall v :: v in versions ==> v <= greatest
  {
    greatest :| greatest in versions;
    var todo := versions - {greatest};
    while todo != {}
      invariant todo <= versions && greatest in versions && forall v :: v in versions && v !in todo ==> v <= greatest
      decreases |todo|
    {
      var v :| v in todo;
      greatest := if greatest < v then v else greatest;
      todo := todo - {v};
    }
  }

  ghost predicate IsNewest(history: map<nat, Payload>, newest: nat) {
    newest in history && forall v :: v in history ==> v <= newest
  }

  /** What a version resolves to when nothing is ever evicted: `None` repeats the newest payload,
      and does nothing before the first install. */
  ghost predicate Resolves(history: map<nat, Payload>, version: nat, state: Option<Payload>, after: map<nat, Payload>) {
    match state
    case Some(payload) => after == history[version := payload]
    case None =>
      if history == map[] then after == history
      else
        exists newest :: IsNewest(history, newest) && after == history[version := history[newest]]
  }

  class TrainableStateSlots {
    const maxRetained: nat
    var slots: map<nat, Payload>
    ghost var history: map<nat, Payload>

    constructor (maxRetained: nat)
      requires maxRetained >= 1   // checked by `require_int`
      ensures Valid() && this.maxRetained == maxRetained && history == map[]
    {
      this.maxRetained := maxRetained;
      slots, history := map[], map[];
    }

    ghost predicate Valid()
      reads this
    {
      maxRetained >= 1 && Window(maxRetained, history, slots)
    }

    /** Versions may arrive in any order and more than once. */
    method Install(version: nat, state: Option<Payload>)
      requires Valid()
      modifies this
      ensures Valid() && Resolves(old(history), version, state, history)
    {
      var payload: Payload;
      match state {
        case Some(given) => payload := given;
        case None =>
          EmptyTogether(maxRetained, history, slots);
          if slots == map[] {
            return;
          }
          var newest := Greatest(slots.Keys);
          payload := slots[newest];
          assert forall v :: v in history ==> v <= newest;
      }
      ghost var before := slots;
      slots := slots[version := payload];
      history := history[version := payload];
      InstallOverfull(maxRetained, old(history), before, version, payload);
      Evict();
    }

    /** `_evict`: drop the oldest versions until the window fits. */
    method Evict()
      requires maxRetained >= 1 && Overfull(maxRetained, history, slots)
      modifies `slots
      ensures Valid()
    {
      while |slots| > maxRetained
        invariant Overfull(maxRetained, history, slots)
        decreases |slots|
      {
        assert slots.Keys != {};
        var oldest := Least(slots.Keys);
        EvictOldest(maxRetained, history, slots, oldest);
        slots := slots - {oldest};
      }
      FittingIsWindow(maxRetained, history, slots);
    }

    /** A version is found exactly while fewer than `maxRetained` larger ones were ever installed. */
    method Has(version: nat) returns (found: bool)
      requires Valid()
      ensures found <==> version in history && |LargerThan(history, version)| < maxRetained
    {
      found := version in slots;
      FoundIffRecent(maxRetained, history, slots, version);
    }

    /** A found version answers with what the unbounded history holds for it. */
    method Get(version: nat) returns (payload: Option<Payload>)
      requires Valid()
      ensures payload ==
                if version in history && |LargerThan(history, version)| < maxRetained then Some(history[version])
                else None
    {
      FoundIffRecent(maxRetained, history, slots, version);
      payload := if version in slots then Some(slots[version]) else None;
    }
  }

  ghost function LargerThan(history: map<nat, Payload>, version: nat): set<nat> {
    set v | v in history && v > version
  }

  predicate IsLowest(slots: map<nat, Payload>, v: nat) {
    forall u :: u in slots ==> v <= u
  }

  /** The window, with at most one version too many at its low end. */
  ghost predicate Overfull(k: nat, history: map<nat, Payload>, slots: map<nat, Payload>) {
    && (forall v :: v in slots ==> v in history && slots[v] == history[v])
    && |slots| >= (if |history| < k then |history| else k)
    && forall u, v :: u in history && u !in slots && v in slots ==> u < v || (|slots| > k && IsLowest(slots, v))
  }

  lemma InstallOverfull(k: nat, history: map<nat, Payload>, slots: map<nat, Payload>, version: nat, payload: Payload)
    requires Window(k, history, slots)
    ensures Overfull(k, history[version := payload], slots[version := payload])
  {
    InstallSize(k, history, slots, version, payload);
    var slots', history' := slots[version := payload], history[version := payload];
    forall u, v | u in history' && u !in slots' && v in slots' ensures u < v || (|slots'| > k && IsLowest(slots', v)) {
      assert u != version && u in history && u !in slots;
      if v !in slots {
        assert v == version;
        NoneBelow(history, slots, u);
      }
    }
  }

  lemma InstallSize(k: nat, history: map<nat, Payload>, slots: map<nat, Payload>, version: nat, payload: Payload)
    requires Window(k, history, slots)
    ensures |slots[version := payload]| == |slots| + if version in slots then 0 else 1
    ensures |history[version := payload]| == |history| + if version in history then 0 else 1
  {
    assert slots[version := payload].Keys == slots.Keys + {version};
    assert history[version := payload].Keys == history.Keys + {version};
  }

  /** A version outside the window shows that the window is full. */
  lemma NoneBelow(history: map<nat, Payload>, slots: map<nat, Payload>, u: nat)
    requires slots.Keys <= history.Keys && u in history && u !in slots
    ensures |slots| < |history|
  {
    assert slots.Keys <= history.Keys - {u};
    Smaller(slots.Keys, history.Keys - {u});
  }

  lemma EvictOldest(k: nat, history: map<nat, Payload>, slots: map<nat, Payload>, oldest: nat)
    requires Overfull(k, history, slots) && |slots| > k && oldest in slots && IsLowest(slots, oldest)
    ensures Overfull(k, history, slots - {oldest}) && |slots - {oldest}| == |slots| - 1
  {
    assert (slots - {oldest}).Keys == slots.Keys - {oldest};
  }

  lemma FittingIsWindow(k: nat, history: map<nat, Payload>, slots: map<nat, Payload>)
    requires Overfull(k, history, slots) && |slots| <= k
    ensures Window(k, history, slots)
  {
    assert slots.Keys <= history.Keys;
    Smaller(slots.Keys, history.Keys);
  }

  lemma FoundIffRecent(k: nat, history: map<nat, Payload>, slots: map<nat, Payload>, version: nat)
    requires k >= 1 && Window(k, history, slots)
    ensures version in slots <==> version in history && |LargerThan(history, version)| < k
  {
    assert slots.Keys <= history.Keys;
    if version in slots {
      Smaller(LargerThan(history, version), slots.Keys - {version});
    } else if version in history {
      NoneBelow(history, slots, version);
      Smaller(slots.Keys, LargerThan(history, version));
    }
  }

  lemma EmptyTogether(k: nat, history: map<nat, Payload>, slots: map<nat, Payload>)
    requires k >= 1 && Window(k, history, slots)
    ensures slots == map[] <==> history == map[]
  {
    assert slots == map[] <==> |slots| == 0;
    assert history == map[] <==> |history| == 0;
  }
}

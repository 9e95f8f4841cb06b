/** The world outside the modelled code. */
module Environment {

  /** One external operation: an allocator call, a factory, a cluster request. It can fail only in a
      call during which failures are admitted. */
  method External(faulty: bool) returns (ok: bool)
    ensures !faulty ==> ok
  {
    ok := *;
    ok := ok || !faulty;
  }

  /** None of the operations numbered from `since` until before `until` is drawn to fail. */
  ghost predicate Quiet(faults: set<nat>, since: nat, until: nat) {
    forall n :: since <= n < until ==> n !in faults
  }

  lemma QuietMore(faults: set<nat>, since: nat, middle: nat, until: nat)
    requires since <= middle <= until
    ensures Quiet(faults, since, until) <==> Quiet(faults, since, middle) && Quiet(faults, middle, until)
  {
  }
}

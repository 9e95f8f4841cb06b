/** Group-relative advantages over exact reals (vrl/algorithms/advantages.py): rewards standardized
    within each prompt group and clamped, with a denominator that may span all ranks. Rounding is
    not modelled, and `sqrt` is any function that computes square roots. */
module Advantages {
  import opened Sequences

  ghost predicate IsSqrt(sqrt: real -> real) {
    forall x: real :: x >= 0.0 ==> sqrt(x) >= 0.0 && Times(sqrt(x), sqrt(x)) == x
  }

  /** Products and quotients by name, so that proofs can treat them as single terms. */
  function Times(a: real, b: real): real { a * b }

  function Over(a: real, n: nat): real
    requires n > 0
  {
    a / n as real
  }

  // ---- Statistics -------------------------------------------------------------------------

  function Sum(s: seq<real>): real {
    if s == [] then 0.0 else s[0] + Sum(s[1..])
  }

  function SumSq(s: seq<real>): real {
    if s == [] then 0.0 else Times(s[0], s[0]) + SumSq(s[1..])
  }

  /** The values minus `m`. */
  function Shifted(s: seq<real>, m: real): (d: seq<real>)
    ensures |d| == |s| && forall i :: 0 <= i < |s| ==> d[i] == s[i] - m
  {
    seq(|s|, i requires 0 <= i < |s| => s[i] - m)
  }

  function Mean(s: seq<real>): real
    requires s != []
  {
    Over(Sum(s), |s|)
  }

  /** Population variance (`torch.var_mean` with `correction=0`). */
  function Variance(s: seq<real>): real
    requires s != []
  {
    Over(SumSq(Shifted(s, Mean(s))), |s|)
  }

  lemma {:induction false} ShiftedSum(s: seq<real>, m: real)
    ensures Sum(Shifted(s, m)) == Sum(s) - Times(|s| as real, m)
  {
    if s != [] {
      assert Shifted(s, m)[1..] == Shifted(s[1..], m);
      ShiftedSum(s[1..], m);
      assert Times(|s| as real, m) == Times((|s| - 1) as real, m) + m;
    }
  }

  lemma {:induction false} ShiftedSumSq(s: seq<real>, m: real)
    ensures SumSq(Shifted(s, m)) == SumSq(s) - 2.0 * Times(m, Sum(s)) + Times(|s| as real, Times(m, m))
  {
    if s != [] {
      assert Shifted(s, m)[1..] == Shifted(s[1..], m);
      ShiftedSumSq(s[1..], m);
      ExpandSquare(s[0], m, Sum(s[1..]), (|s| - 1) as real);
      hide Times;
    }
  }

  lemma ExpandSquare(x: real, m: real, rest: real, n: real)
    ensures Times(x - m, x - m) - 2.0 * Times(m, rest) + Times(n, Times(m, m))
         == Times(x, x) - 2.0 * Times(m, x + rest) + Times(n + 1.0, Times(m, m))
  {
  }

  lemma {:induction false} SumSqNonNegative(s: seq<real>)
    ensures SumSq(s) >= 0.0
  {
    if s != [] {
      SumSqNonNegative(s[1..]);
      SquareNonNegative(s[0]);
      hide Times;
    }
  }

  lemma SquareNonNegative(x: real)
    ensures Times(x, x) >= 0.0
  {
  }

  lemma OverTimes(a: real, n: nat)
    requires n > 0
    ensures Times(n as real, Over(a, n)) == a
    ensures a >= 0.0 ==> Over(a, n) >= 0.0
  {
  }

  lemma MeanTimes(s: seq<real>)
    requires s != []
    ensures Sum(s) == Times(|s| as real, Mean(s))
  {
    OverTimes(Sum(s), |s|);
  }

  /** Centred values sum to zero. */
  lemma CentredSum(s: seq<real>)
    requires s != []
    ensures Sum(Shifted(s, Mean(s))) == 0.0
  {
    ShiftedSum(s, Mean(s));
    MeanTimes(s);
    hide *;
  }

  /** The variance is the mean square minus the squared mean, and it is never negative. */
  lemma VarianceByMoments(s: seq<real>)
    requires s != []
    ensures Variance(s) == Over(SumSq(s), |s|) - Times(Mean(s), Mean(s))
    ensures Variance(s) >= 0.0
  {
    hide Times, Over, Sum, SumSq, Mean, Shifted;
    var m, total := Mean(s), SumSq(Shifted(s, Mean(s)));
    ShiftedSumSq(s, m);
    MeanTimes(s);
    MomentAlgebra(total, SumSq(s), Sum(s), |s|, m);
    SumSqNonNegative(Shifted(s, m));
    OverTimes(total, |s|);
  }

  lemma MomentAlgebra(total: real, q: real, sum: real, n: nat, m: real)
    requires n > 0 && sum == Times(n as real, m)
    requires total == q - 2.0 * Times(m, sum) + Times(n as real, Times(m, m))
    ensures Over(total, n) == Over(q, n) - Times(m, m)
  {
    assert Times(m, sum) == Times(n as real, Times(m, m));
    assert total == q - Times(n as real, Times(m, m));
    hide Times;
    OverMinus(q, Times(m, m), n);
  }

  lemma OverMinus(q: real, x: real, n: nat)
    requires n > 0
    ensures Over(q - Times(n as real, x), n) == Over(q, n) - x
  {
  }

  // ---- How far one value can stray ----------------------------------------------------------

  /** The square of a sum is at most the count times the sum of squares. */
  lemma CauchySum(d: seq<real>)
    ensures Times(Sum(d), Sum(d)) <= Times(|d| as real, SumSq(d))
  {
    if d != [] {
      VarianceByMoments(d);
      MeanTimes(d);
      hide Times, Over, SumSq, Mean, Variance, Sum;
      CauchyAlgebra(SumSq(d), |d|, Mean(d), Sum(d));
    }
  }

  lemma CauchyAlgebra(q: real, n: nat, m: real, sum: real)
    requires n > 0 && Over(q, n) - Times(m, m) >= 0.0 && sum == Times(n as real, m)
    ensures Times(sum, sum) <= Times(n as real, q)
  {
    OverTimes(q, n);
    var gap := Over(q, n) - Times(m, m);
    assert Times(n as real, gap) >= 0.0 && Times(n as real, Times(n as real, gap)) >= 0.0;
    assert Times(n as real, gap) == q - Times(n as real, Times(m, m)) by {
      Distribute(n as real, Over(q, n), Times(m, m));
    }
    hide Over;
    CauchyStep(n as real, q, m, sum);
  }

  lemma Distribute(n: real, a: real, b: real)
    ensures Times(n, a - b) == Times(n, a) - Times(n, b)
  {
  }

  lemma CauchyStep(n: real, q: real, m: real, sum: real)
    requires sum == Times(n, m) && Times(n, q - Times(n, Times(m, m))) >= 0.0
    ensures Times(sum, sum) <= Times(n, q)
  {
    Distribute(n, q, Times(n, Times(m, m)));
    assert Times(sum, sum) == Times(n, Times(n, Times(m, m)));
  }

  lemma {:induction false} SumAppend(a: seq<real>, b: seq<real>)
    ensures Sum(a + b) == Sum(a) + Sum(b) && SumSq(a + b) == SumSq(a) + SumSq(b)
  {
    hide Times;
    if a == [] {
      assert a + b == b;
    } else {
      SumAppend(a[1..], b);
      assert (a + b)[1..] == a[1..] + b;
    }
  }

  /** Taking one value out of a list. */
  lemma SumWithout(d: seq<real>, i: nat)
    requires i < |d|
    ensures Sum(d[..i] + d[i + 1..]) == Sum(d) - d[i]
    ensures SumSq(d[..i] + d[i + 1..]) == SumSq(d) - Times(d[i], d[i])
  {
    hide Times;
    var before, tail, after := d[..i], d[i..], d[i + 1..];
    assert d == before + tail && tail[0] == d[i] && tail[1..] == after;
    SumAppend(before, tail);
    SumAppend(before, after);
  }

  /** One value of `n` lies at most `n - 1` variances, squared, from the mean. */
  lemma DeviationBound(s: seq<real>, i: nat)
    requires i < |s|
    ensures Times(s[i] - Mean(s), s[i] - Mean(s)) <= Times((|s| - 1) as real, Variance(s))
  {
    hide Times, Over, Sum, SumSq, Mean;
    var d := Shifted(s, Mean(s));
    CentredSum(s);
    SumWithout(d, i);
    CauchySum(d[..i] + d[i + 1..]);
    BoundAlgebra(d[i], SumSq(d), |s|);
  }

  lemma BoundAlgebra(x: real, q: real, n: nat)
    requires n > 0 && Times(0.0 - x, 0.0 - x) <= Times((n - 1) as real, q - Times(x, x))
    ensures Times(x, x) <= Times((n - 1) as real, Over(q, n))
  {
    OverTimes(q, n);
    var v, r := Over(q, n), n as real;
    assert Times(r, Times(x, x)) <= Times(r - 1.0, q) by {
      assert Times(0.0 - x, 0.0 - x) == Times(x, x);
      Distribute(r - 1.0, q, Times(x, x));
    }
    hide Over;
    Cancel(r, Times(x, x), Times(r - 1.0, v));
    assert Times(r - 1.0, q) == Times(r, Times(r - 1.0, v));
  }

  lemma Cancel(n: real, a: real, b: real)
    requires n > 0.0
    ensures Times(n, a) <= Times(n, b) ==> a <= b
  {
  }

  // ---- Standardization within groups --------------------------------------------------------

  /** The values of one group, in order. */
  function GroupOf<T>(values: seq<T>, ids: seq<int>, gid: int): seq<T>
    requires |values| == |ids|
  {
    if values == [] then []
    else (if ids[0] == gid then [values[0]] else []) + GroupOf(values[1..], ids[1..], gid)
  }

  /** The denominator's standard deviation: the shared one, or the group's own. */
  function GroupStd(group: seq<real>, shared: Option<real>, sqrt: real -> real): real
    requires group != []
  {
    match shared
    case Some(std) => std
    case None => sqrt(Variance(group))
  }

  /** A number, or what a tensor holds after a division by zero. */
  datatype Advantage = Finite(value: real) | Infinite(positive: bool) | NaN

  function Divide(x: real, denom: real): Advantage {
    if denom != 0.0 then Finite(x / denom) else if x == 0.0 then NaN else Infinite(x > 0.0)
  }

  /** One standardized reward; a group of one has no signal. Nothing checks the epsilon. */
  function Standardized(x: real, group: seq<real>, eps: real, shared: Option<real>, sqrt: real -> real): Advantage {
    if |group| <= 1 then Finite(0.0) else Divide(x - Mean(group), GroupStd(group, shared, sqrt) + eps)
  }

  function ClampReal(x: real, bound: real): real {
    var low := if x < 0.0 - bound then 0.0 - bound else x;
    if low > bound then bound else low
  }

  /** `torch.clamp` to `[-bound, bound]`; NaN stays NaN, and a negative bound replaces every number. */
  function Clamp(a: Advantage, bound: real): Advantage {
    match a
    case Finite(x) => Finite(ClampReal(x, bound))
    case Infinite(positive) => Finite(if positive || bound < 0.0 then bound else 0.0 - bound)
    case NaN => NaN
  }

  lemma {:induction false} InGroup(values: seq<real>, ids: seq<int>, i: nat)
    requires |values| == |ids| && i < |ids|
    ensures values[i] in GroupOf(values, ids, ids[i])
  {
    if i > 0 {
      InGroup(values[1..], ids[1..], i - 1);
    }
  }

  lemma {:induction false} TwoInGroup(values: seq<real>, ids: seq<int>, i: nat, j: nat)
    requires |values| == |ids| && i < j < |ids| && ids[i] == ids[j]
    ensures |GroupOf(values, ids, ids[i])| > 1
  {
    if i > 0 {
      TwoInGroup(values[1..], ids[1..], i - 1, j - 1);
    } else {
      InGroup(values[1..], ids[1..], j - 1);
    }
  }

  predicate OneGroup(ids: seq<int>, i: int, j: int) {
    0 <= i < |ids| && 0 <= j < |ids| && ids[i] == ids[j]
  }

  /** What the deviations of a reward's group are divided by. */
  function Denom(rewards: seq<real>, ids: seq<int>, i: nat, eps: real, shared: Option<real>, sqrt: real -> real): real
    requires |rewards| == |ids| && i < |ids|
  {
    InGroup(rewards, ids, i);
    GroupStd(GroupOf(rewards, ids, ids[i]), shared, sqrt) + eps
  }

  /** Advantages of one group are as far apart, in units of its denominator, as the rewards. */
  ghost predicate Spaced(
    rewards: seq<real>, ids: seq<int>, advantages: seq<Advantage>, eps: real, shared: Option<real>, sqrt: real -> real)
    requires |rewards| == |ids| == |advantages|
  {
    forall i, j | OneGroup(ids, i, j) :: Denom(rewards, ids, i, eps, shared, sqrt) != 0.0 ==>
      && advantages[i].Finite? && advantages[j].Finite?
      && Times(advantages[i].value - advantages[j].value, Denom(rewards, ids, i, eps, shared, sqrt)) ==
           rewards[i] - rewards[j]
  }

  /** With a positive denominator a larger reward of a group has a larger advantage. */
  ghost predicate Ordered(
    rewards: seq<real>, ids: seq<int>, advantages: seq<Advantage>, eps: real, shared: Option<real>, sqrt: real -> real)
    requires |rewards| == |ids| == |advantages|
  {
    forall i, j | OneGroup(ids, i, j) && rewards[i] > rewards[j] ::
      Denom(rewards, ids, i, eps, shared, sqrt) > 0.0 ==>
        advantages[i].Finite? && advantages[j].Finite? && advantages[i].value > advantages[j].value
  }

  lemma PairApart(rewards: seq<real>, ids: seq<int>, i: nat, j: nat, eps: real, shared: Option<real>,
      sqrt: real -> real)
    requires |rewards| == |ids| && OneGroup(ids, i, j)
    requires Denom(rewards, ids, i, eps, shared, sqrt) != 0.0
    ensures var group := GroupOf(rewards, ids, ids[i]);
            var a := Standardized(rewards[i], group, eps, shared, sqrt);
            var b := Standardized(rewards[j], group, eps, shared, sqrt);
            && a.Finite? && b.Finite?
            && Times(a.value - b.value, Denom(rewards, ids, i, eps, shared, sqrt)) == rewards[i] - rewards[j]
  {
    InGroup(rewards, ids, i);
    if i != j {
      TwoInGroup(rewards, ids, if i < j then i else j, if i < j then j else i);
    }
    DeviationsApart(rewards[i], rewards[j], GroupOf(rewards, ids, ids[i]), eps, shared, sqrt);
    hide GroupStd, Times, GroupOf, Standardized;
  }

  lemma DeviationsApart(x: real, y: real, group: seq<real>, eps: real, shared: Option<real>, sqrt: real -> real)
    requires group != [] && (|group| > 1 || x == y) && GroupStd(group, shared, sqrt) + eps != 0.0
    ensures var a, b := Standardized(x, group, eps, shared, sqrt), Standardized(y, group, eps, shared, sqrt);
            && a.Finite? && b.Finite?
            && Times(a.value - b.value, GroupStd(group, shared, sqrt) + eps) == x - y
  {
    hide GroupStd, Mean, Times;
    var denom := GroupStd(group, shared, sqrt) + eps;
    QuotientsApart(x - Mean(group), y - Mean(group), denom);
    ZeroTimes(denom);
  }

  lemma ZeroTimes(denom: real)
    ensures Times(0.0, denom) == 0.0
  {
  }

  lemma StandardizedSpaced(
    rewards: seq<real>, ids: seq<int>, advantages: seq<Advantage>, eps: real, shared: Option<real>, sqrt: real -> real)
    requires |rewards| == |ids| == |advantages|
    requires forall i :: 0 <= i < |rewards| ==>
               advantages[i] == Standardized(rewards[i], GroupOf(rewards, ids, ids[i]), eps, shared, sqrt)
    ensures Spaced(rewards, ids, advantages, eps, shared, sqrt) && Ordered(rewards, ids, advantages, eps, shared, sqrt)
  {
    hide Denom, Standardized, GroupOf, Times;
    forall i, j | OneGroup(ids, i, j) && Denom(rewards, ids, i, eps, shared, sqrt) != 0.0
      ensures && advantages[i].Finite? && advantages[j].Finite?
              && Times(advantages[i].value - advantages[j].value, Denom(rewards, ids, i, eps, shared, sqrt)) ==
                   rewards[i] - rewards[j]
    {
      PairApart(rewards, ids, i, j, eps, shared, sqrt);
    }
    SpacedOrdered(rewards, ids, advantages, eps, shared, sqrt);
  }

  lemma SpacedOrdered(
    rewards: seq<real>, ids: seq<int>, advantages: seq<Advantage>, eps: real, shared: Option<real>, sqrt: real -> real)
    requires |rewards| == |ids| == |advantages| && Spaced(rewards, ids, advantages, eps, shared, sqrt)
    ensures Ordered(rewards, ids, advantages, eps, shared, sqrt)
  {
    hide Denom, Times;
    forall i, j | OneGroup(ids, i, j) && rewards[i] > rewards[j] && Denom(rewards, ids, i, eps, shared, sqrt) > 0.0
      ensures advantages[i].Finite? && advantages[j].Finite? && advantages[i].value > advantages[j].value
    {
      SameSign(advantages[i].value - advantages[j].value, Denom(rewards, ids, i, eps, shared, sqrt));
    }
  }

  lemma QuotientsApart(a: real, b: real, denom: real)
    requires denom != 0.0
    ensures Times(a / denom - b / denom, denom) == a - b
  {
  }

  lemma SameSign(x: real, denom: real)
    requires denom > 0.0
    ensures Times(x, denom) > 0.0 <==> x > 0.0
    ensures Times(x, denom) < 0.0 <==> x < 0.0
  {
  }

  /** `torch.unique`, in order of first appearance. */
  method UniqueIds(ids: seq<int>) returns (unique: seq<int>)
    ensures NoDup(unique) && forall g :: g in unique <==> g in ids
  {
    unique := [];
    for i := 0 to |ids|
      invariant NoDup(unique) && forall g :: g in unique <==> g in ids[..i]
    {
      assert ids[..i + 1] == ids[..i] + [ids[i]];
      if ids[i] !in unique {
        unique := unique + [ids[i]];
      }
    }
    assert ids[..|ids|] == ids;
  }

  /** `rewards[group_ids == gid]`. */
  method Masked(rewards: seq<real>, ids: seq<int>, gid: int) returns (group: seq<real>)
    requires |rewards| == |ids|
    ensures group == GroupOf(rewards, ids, gid)
  {
    group := [];
    for i := 0 to |ids|
      invariant group + GroupOf(rewards[i..], ids[i..], gid) == GroupOf(rewards, ids, gid)
    {
      assert rewards[i..][0] == rewards[i] && rewards[i..][1..] == rewards[i + 1..] && ids[i..][1..] == ids[i + 1..];
      if ids[i] == gid {
        group := group + [rewards[i]];
      }
    }
  }

  /** `_standardize_group_rewards`: zero everywhere, then filled group by group through the mask. */
  method StandardizeGroupRewards(
    rewards: seq<real>, ids: seq<int>, eps: real, shared: Option<real>, sqrt: real -> real)
    returns (advantages: array<Advantage>)
    requires |rewards| == |ids|
    ensures fresh(advantages) && advantages.Length == |rewards|
    ensures forall i :: 0 <= i < |rewards| ==>
              advantages[i] == Standardized(rewards[i], GroupOf(rewards, ids, ids[i]), eps, shared, sqrt)
    ensures Spaced(rewards, ids, advantages[..], eps, shared, sqrt)
    ensures Ordered(rewards, ids, advantages[..], eps, shared, sqrt)
  {
    advantages := new Advantage[|rewards|](_ => Finite(0.0));
    var gids := UniqueIds(ids);
    for k := 0 to |gids|
      invariant forall i :: 0 <= i < |rewards| && ids[i] in gids[..k] ==>
                  advantages[i] == Standardized(rewards[i], GroupOf(rewards, ids, ids[i]), eps, shared, sqrt)
    {
      assert gids[..k + 1] == gids[..k] + [gids[k]];
      FillGroup(advantages, rewards, ids, gids[k], eps, shared, sqrt);
    }
    assert gids[..|gids|] == gids;
    StandardizedSpaced(rewards, ids, advantages[..], eps, shared, sqrt);
  }

  method FillGroup(
    advantages: array<Advantage>, rewards: seq<real>, ids: seq<int>, gid: int, eps: real, shared: Option<real>,
    sqrt: real -> real)
    requires |rewards| == |ids| == advantages.Length
    modifies advantages
    ensures forall i :: 0 <= i < |rewards| ==>
              advantages[i] ==
                if ids[i] == gid then Standardized(rewards[i], GroupOf(rewards, ids, gid), eps, shared, sqrt)
                               else old(advantages[i])
  {
    var group := Masked(rewards, ids, gid);
    for i := 0 to |rewards|
      invariant forall j :: 0 <= j < |rewards| ==>
                  advantages[j] == if j < i && ids[j] == gid then Standardized(rewards[j], group, eps, shared, sqrt)
                                   else old(advantages[j])
    {
      if ids[i] == gid {
        advantages[i] := Standardized(rewards[i], group, eps, shared, sqrt);
      }
    }
  }

  // ---- What the advantages satisfy ------------------------------------------------------------

  /** Masking commutes with anything computed value by value. */
  lemma {:induction false} GroupPointwise<T>(values: seq<real>, results: seq<T>, ids: seq<int>, gid: int, f: real -> T)
    requires |values| == |results| == |ids|
    requires forall i :: 0 <= i < |ids| && ids[i] == gid ==> results[i] == f(values[i])
    ensures var group := GroupOf(values, ids, gid); GroupOf(results, ids, gid) == Image(f, group)
  {
    if values != [] {
      GroupPointwise(values[1..], results[1..], ids[1..], gid, f);
    }
  }

  lemma {:induction false} ScaledSum(s: seq<real>, m: real, d: real, z: seq<real>)
    requires d != 0.0 && |z| == |s| && forall i :: 0 <= i < |s| ==> z[i] == (s[i] - m) / d
    ensures Times(d, Sum(z)) == Sum(Shifted(s, m))
  {
    if s != [] {
      assert Shifted(s, m)[1..] == Shifted(s[1..], m);
      ScaledSum(s[1..], m, d, z[1..]);
      ScaleStep(s[0] - m, d, Sum(z[1..]));
    }
  }

  lemma ScaleStep(x: real, d: real, rest: real)
    requires d != 0.0
    ensures Times(d, x / d + rest) == x + Times(d, rest)
  {
  }

  lemma {:induction false} ZeroSum(z: seq<real>)
    requires forall i :: 0 <= i < |z| ==> z[i] == 0.0
    ensures Sum(z) == 0.0
  {
    if z != [] {
      ZeroSum(z[1..]);
    }
  }

  /** The group's division is one by something other than zero, or there is none. */
  predicate Divisible(group: seq<real>, eps: real, shared: Option<real>, sqrt: real -> real) {
    |group| <= 1 || GroupStd(group, shared, sqrt) + eps != 0.0
  }

  function ValueOf(a: Advantage): real { if a.Finite? then a.value else 0.0 }

  /** The unclamped advantages of every group are numbers exactly when its denominator is not zero, and
      then they sum to zero, whichever denominator is used. */
  lemma GroupSumsToZero(
    rewards: seq<real>, ids: seq<int>, advantages: seq<Advantage>, gid: int, eps: real, shared: Option<real>,
    sqrt: real -> real)
    requires |rewards| == |ids| == |advantages|
    requires forall i :: 0 <= i < |rewards| ==>
               advantages[i] == Standardized(rewards[i], GroupOf(rewards, ids, ids[i]), eps, shared, sqrt)
    ensures var group, mine := GroupOf(rewards, ids, gid), GroupOf(advantages, ids, gid);
            && ((forall a :: a in mine ==> a.Finite?) <==> Divisible(group, eps, shared, sqrt))
            && (Divisible(group, eps, shared, sqrt) ==> Sum(Image((a: Advantage) => ValueOf(a), mine)) == 0.0)
  {
    var group := GroupOf(rewards, ids, gid);
    var f := (x: real) => Standardized(x, group, eps, shared, sqrt);
    GroupPointwise(rewards, advantages, ids, gid, f);
    OneGroupSumsToZero(group, Image(f, group), eps, shared, sqrt);
  }

  lemma OneGroupSumsToZero(group: seq<real>, z: seq<Advantage>, eps: real, shared: Option<real>, sqrt: real -> real)
    requires |z| == |group|
    requires forall i :: 0 <= i < |group| ==> z[i] == Standardized(group[i], group, eps, shared, sqrt)
    ensures (forall a :: a in z ==> a.Finite?) <==> Divisible(group, eps, shared, sqrt)
    ensures Divisible(group, eps, shared, sqrt) ==> Sum(Image((a: Advantage) => ValueOf(a), z)) == 0.0
  {
    var values := Image((a: Advantage) => ValueOf(a), z);
    if |group| <= 1 {
      ZeroSum(values);
    } else if Divisible(group, eps, shared, sqrt) {
      var denom := GroupStd(group, shared, sqrt) + eps;
      hide GroupStd, Mean, Sum, Times;
      CentredSum(group);
      ScaledSum(group, Mean(group), denom, values);
      OnlyZero(denom, Sum(values));
    } else {
      assert z[0] in z;
    }
  }

  lemma {:induction false} ScaledSumSq(s: seq<real>, m: real, d: real, z: seq<real>)
    requires d != 0.0 && |z| == |s| && forall i :: 0 <= i < |s| ==> z[i] == (s[i] - m) / d
    ensures Times(Times(d, d), SumSq(z)) == SumSq(Shifted(s, m))
  {
    if s == [] {
      TimesZero(Times(d, d));
    } else {
      assert Shifted(s, m)[1..] == Shifted(s[1..], m);
      ScaledSumSq(s[1..], m, d, z[1..]);
      QuotientSquare(s[0] - m, d);
      hide Times;
      Spread(Times(d, d), Times(z[0], z[0]), SumSq(z[1..]));
    }
  }

  lemma Spread(n: real, a: real, b: real)
    ensures Times(n, a + b) == Times(n, a) + Times(n, b)
  {
  }

  /** How far the unclamped advantages of a group spread: their mean square is the variance of the rewards
      over the square of the denominator. With a group's own deviation and no epsilon it is one. */
  lemma GroupSpread(
    rewards: seq<real>, ids: seq<int>, advantages: seq<Advantage>, gid: int, eps: real, shared: Option<real>,
    sqrt: real -> real)
    requires |rewards| == |ids| == |advantages|
    requires forall i :: 0 <= i < |rewards| ==>
               advantages[i] == Standardized(rewards[i], GroupOf(rewards, ids, ids[i]), eps, shared, sqrt)
    requires |GroupOf(rewards, ids, gid)| > 1
    ensures var group := GroupOf(rewards, ids, gid);
            var values := Image((a: Advantage) => ValueOf(a), GroupOf(advantages, ids, gid));
            var denom := (if shared.Some? then shared.value else sqrt(Variance(group))) + eps;
            && (denom != 0.0 ==> Times(Times(denom, denom), SumSq(values)) == Times(|group| as real, Variance(group)))
            && (shared == None && eps == 0.0 && IsSqrt(sqrt) && denom != 0.0 ==> SumSq(values) == |group| as real)
  {
    var group := GroupOf(rewards, ids, gid);
    var f := (x: real) => Standardized(x, group, eps, shared, sqrt);
    GroupPointwise(rewards, advantages, ids, gid, f);
    OneGroupSpread(group, Image(f, group), eps, shared, sqrt);
  }

  lemma OneGroupSpread(group: seq<real>, z: seq<Advantage>, eps: real, shared: Option<real>, sqrt: real -> real)
    requires |z| == |group| > 1
    requires forall i :: 0 <= i < |group| ==> z[i] == Standardized(group[i], group, eps, shared, sqrt)
    ensures var values := Image((a: Advantage) => ValueOf(a), z);
            var denom := (if shared.Some? then shared.value else sqrt(Variance(group))) + eps;
            && (denom != 0.0 ==> Times(Times(denom, denom), SumSq(values)) == Times(|group| as real, Variance(group)))
            && (shared == None && eps == 0.0 && IsSqrt(sqrt) && denom != 0.0 ==> SumSq(values) == |group| as real)
  {
    var values := Image((a: Advantage) => ValueOf(a), z);
    var denom := GroupStd(group, shared, sqrt) + eps;
    if denom != 0.0 {
      hide Mean, SumSq, Times;
      ScaledSumSq(group, Mean(group), denom, values);
      OverTimes(SumSq(Shifted(group, Mean(group))), |group|);
      hide Variance, Shifted;
      if shared == None && eps == 0.0 && IsSqrt(sqrt) {
        VarianceByMoments(group);
        RootPositive(sqrt, Variance(group));
        Commute(|group| as real, Variance(group));
        SameFactor(Variance(group), SumSq(values), |group| as real);
      }
    }
  }

  // ---- When the denominator is not zero -------------------------------------------------------

  /** Not all rewards are the same. */
  predicate Varied(s: seq<real>) { exists i :: 0 <= i < |s| && s[i] != s[0] }

  lemma {:induction false} ZeroSquares(s: seq<real>)
    requires SumSq(s) == 0.0
    ensures forall i :: 0 <= i < |s| ==> s[i] == 0.0
  {
    if s != [] {
      SumSqNonNegative(s[1..]);
      SquareNonNegative(s[0]);
      ZeroSquares(s[1..]);
      OnlyZeroSquare(s[0]);
      assert forall i :: 0 < i < |s| ==> s[i] == s[1..][i - 1];
    }
  }

  lemma OnlyZeroSquare(x: real)
    ensures Times(x, x) == 0.0 <==> x == 0.0
  {
    if x > 0.0 {
      PositiveProduct(x, x);
    } else if x < 0.0 {
      PositiveProduct(0.0 - x, 0.0 - x);
      assert Times(x, x) == Times(0.0 - x, 0.0 - x);
    }
  }

  lemma {:induction false} SameSums(s: seq<real>, c: real)
    requires forall i :: 0 <= i < |s| ==> s[i] == c
    ensures Sum(s) == Times(|s| as real, c)
    ensures c == 0.0 ==> SumSq(s) == 0.0
  {
    if s != [] {
      SameSums(s[1..], c);
      assert Times(|s| as real, c) == Times((|s| - 1) as real, c) + c;
    }
  }

  /** The variance is zero exactly when all values are the same. */
  lemma VarianceZero(s: seq<real>)
    requires s != []
    ensures Variance(s) == 0.0 <==> !Varied(s)
  {
    hide Times, Over, Sum, SumSq, Mean;
    var d := Shifted(s, Mean(s));
    OverTimes(SumSq(d), |s|);
    if Variance(s) == 0.0 {
      TimesZero(|s| as real);
      ZeroSquares(d);
      assert d[0] == s[0] - Mean(s);
      assert forall i :: 0 <= i < |s| ==> d[i] == s[i] - Mean(s);
    } else if !Varied(s) {
      SameSums(s, s[0]);
      MeanTimes(s);
      SameFactor(|s| as real, Mean(s), s[0]);
      SameSums(d, 0.0);
      ZeroOver(|s|);
    }
  }

  lemma TimesZero(n: real)
    ensures Times(n, 0.0) == 0.0
  {
  }

  lemma ZeroOver(n: nat)
    requires n > 0
    ensures Over(0.0, n) == 0.0
  {
  }

  lemma SameFactor(n: real, a: real, b: real)
    requires n > 0.0 && Times(n, a) == Times(n, b)
    ensures a == b
  {
    Cancel(n, a, b);
    Cancel(n, b, a);
  }

  lemma RootPositive(sqrt: real -> real, v: real)
    requires IsSqrt(sqrt) && v >= 0.0
    ensures sqrt(v) >= 0.0 && (sqrt(v) > 0.0 <==> v > 0.0)
  {
    OnlyZeroSquare(sqrt(v));
    hide Times;
  }

  /** With an epsilon that is not negative, a group's advantages are numbers exactly when the epsilon is
      positive, the group has one member, or not all its rewards are the same. */
  lemma DivisibleIff(group: seq<real>, eps: real, sqrt: real -> real)
    requires IsSqrt(sqrt) && eps >= 0.0
    ensures Divisible(group, eps, None, sqrt) <==> |group| <= 1 || eps > 0.0 || Varied(group)
  {
    if |group| > 1 {
      VarianceByMoments(group);
      VarianceZero(group);
      RootPositive(sqrt, Variance(group));
    }
  }

  /** With one denominator for all ranks it takes a positive epsilon or two different rewards anywhere. */
  lemma SharedDivisibleIff(group: seq<real>, ranks: seq<seq<real>>, eps: real, sqrt: real -> real)
    requires IsSqrt(sqrt) && eps >= 0.0
    ensures var shared := Some(PopulationStd(Concat(ranks), sqrt));
            Divisible(group, eps, shared, sqrt) <==> |group| <= 1 || eps > 0.0 || Varied(Concat(ranks))
  {
    var all := Concat(ranks);
    if |all| > 1 {
      VarianceByMoments(all);
      VarianceZero(all);
      RootPositive(sqrt, Variance(all));
    }
  }

  const SAME := [1.0, 1.0]

  /** Two equal rewards and no epsilon: both advantages are NaN, and clamping does not help. */
  lemma NoEpsilonNaN(sqrt: real -> real, bound: real)
    requires IsSqrt(sqrt)
    ensures Standardized(1.0, SAME, 0.0, None, sqrt) == NaN && Clamp(NaN, bound) == NaN
  {
    DivisibleIff(SAME, 0.0, sqrt);
    assert Sum(SAME[1..]) == 1.0 && Sum(SAME) == 2.0;
    assert Mean(SAME) == 1.0;
    hide Mean, GroupStd;
  }

  lemma OnlyZero(d: real, x: real)
    requires d != 0.0 && Times(d, x) == 0.0
    ensures x == 0.0
  {
  }

  // ---- How large an advantage gets ------------------------------------------------------------

  /** The denominator is at least the group's own standard deviation, in square. */
  predicate Damped(group: seq<real>, eps: real, sqrt: real -> real) {
    |group| <= 1
    || var std := sqrt(Variance(group)); Times(std + eps, std + eps) >= Times(std, std)
  }

  lemma EpsilonDamps(group: seq<real>, eps: real, sqrt: real -> real)
    requires IsSqrt(sqrt) && eps >= 0.0
    ensures Damped(group, eps, sqrt)
  {
    if |group| > 1 {
      VarianceByMoments(group);
      RootPositive(sqrt, Variance(group));
      var std := sqrt(Variance(group));
      assert Times(std + eps, std + eps) == Times(std, std) + 2.0 * Times(std, eps) + Times(eps, eps);
    }
  }

  /** With its own standard deviation, and an epsilon that is not negative, an advantage of a group of `n`
      is a number that does not exceed `n - 1` in square, or NaN. */
  lemma AdvantageBound(group: seq<real>, i: nat, eps: real, sqrt: real -> real)
    requires i < |group| && IsSqrt(sqrt) && (eps >= 0.0 || Damped(group, eps, sqrt))
    ensures var z := Standardized(group[i], group, eps, None, sqrt);
            !z.Infinite? && (z.Finite? ==> Times(z.value, z.value) <= (|group| - 1) as real)
  {
    if |group| > 1 {
      if eps >= 0.0 {
        EpsilonDamps(group, eps, sqrt);
      }
      VarianceByMoments(group);
      DeviationBound(group, i);
      var std := sqrt(Variance(group));
      hide Mean, Variance;
      if std + eps != 0.0 {
        BoundByStd(group[i] - Mean(group), std, eps, (|group| - 1) as real);
      } else {
        OnlyZeroSquare(0.0);
        SquareNonNegative(std);
        TimesZero((|group| - 1) as real);
        SquareNonNegative(group[i] - Mean(group));
        OnlyZeroSquare(group[i] - Mean(group));
      }
    }
  }

  lemma BoundByStd(d: real, std: real, eps: real, n: real)
    requires std + eps != 0.0 && n >= 0.0
    requires Times(std + eps, std + eps) >= Times(std, std) && Times(d, d) <= Times(n, Times(std, std))
    ensures var z := d / (std + eps); Times(z, z) <= n
  {
    var denom := std + eps;
    var z := d / denom;
    QuotientSquare(d, denom);
    Monotone(n, Times(std, std), Times(denom, denom));
    NonzeroSquare(denom);
    hide Times;
    Cancel(Times(denom, denom), Times(z, z), n);
    Commute(n, Times(denom, denom));
  }

  lemma QuotientSquare(d: real, denom: real)
    requires denom != 0.0
    ensures var z := d / denom; Times(d, d) == Times(Times(denom, denom), Times(z, z))
  {
    var z := d / denom;
    assert Times(denom, z) == d;
    assert Times(Times(denom, z), Times(denom, z)) == Times(Times(denom, denom), Times(z, z));
  }

  lemma Monotone(n: real, a: real, b: real)
    requires n >= 0.0 && a <= b
    ensures Times(n, a) <= Times(n, b)
  {
  }

  lemma Commute(a: real, b: real)
    ensures Times(a, b) == Times(b, a)
  {
  }

  lemma NonzeroSquare(x: real)
    requires x != 0.0
    ensures Times(x, x) > 0.0
  {
    SquareNonNegative(x);
    OnlyZeroSquare(x);
  }

  /** Nothing refuses a negative epsilon either. For two different rewards the bound then holds exactly
      when the denominator is still no smaller, in square, than the standard deviation. */
  lemma PairBoundIff(a: real, b: real, eps: real, sqrt: real -> real)
    requires IsSqrt(sqrt) && a != b && Standardized(a, [a, b], eps, None, sqrt).Finite?
    ensures var z := Standardized(a, [a, b], eps, None, sqrt).value; Times(z, z) <= 1.0 <==> Damped([a, b], eps, sqrt)
  {
    var std, d := sqrt(Variance([a, b])), a - Mean([a, b]);
    PairVariance(a, b);
    VarianceByMoments([a, b]);
    assert Times(std, std) == Times(d, d);
    hide Mean, Variance;
    var denom := std + eps;
    QuotientSquare(d, denom);
    NonzeroSquare(denom);
    var z := d / denom;
    hide Times;
    ScaleCompare(Times(denom, denom), Times(z, z));
  }

  lemma ScaleCompare(n: real, x: real)
    requires n > 0.0
    ensures x <= 1.0 <==> Times(n, x) <= n
  {
  }

  lemma PairVariance(a: real, b: real)
    ensures var d := a - Mean([a, b]); Variance([a, b]) == Times(d, d)
  {
    var s := [a, b];
    assert s[1..] == [b] && Sum([b]) == b && Sum(s) == a + b;
    var m := Mean(s);
    assert m == (a + b) / 2.0;
    var d := Shifted(s, m);
    assert d == [a - m, b - m] && d[1..] == [b - m];
    assert SumSq([b - m]) == Times(b - m, b - m);
    assert b - m == 0.0 - (a - m);
    assert Times(b - m, b - m) == Times(a - m, a - m);
  }

  /** Clamping is the identity whenever the square of the bound reaches `n - 1`. */
  lemma ClampIsIdentity(group: seq<real>, i: nat, eps: real, sqrt: real -> real, bound: real)
    requires i < |group| && IsSqrt(sqrt) && (eps >= 0.0 || Damped(group, eps, sqrt))
    requires bound >= 0.0 && Times(bound, bound) >= (|group| - 1) as real
    ensures var z := Standardized(group[i], group, eps, None, sqrt); Clamp(z, bound) == z
  {
    AdvantageBound(group, i, eps, sqrt);
    var z := Standardized(group[i], group, eps, None, sqrt);
    hide Standardized;
    if z.Finite? {
      SquareOrder(z.value, bound);
    }
  }

  lemma PositiveProduct(a: real, b: real)
    requires a > 0.0 && b > 0.0
    ensures Times(a, b) > 0.0
  {
  }

  lemma SquareOrder(z: real, bound: real)
    requires bound >= 0.0 && Times(z, z) <= Times(bound, bound)
    ensures 0.0 - bound <= z <= bound
  {
    if z > bound {
      Grows(z, bound);
    }
    if z < 0.0 - bound {
      Grows(0.0 - z, bound);
    }
  }

  lemma Grows(z: real, bound: real)
    requires z > bound >= 0.0
    ensures Times(z, z) > Times(bound, bound)
    ensures Times(0.0 - z, 0.0 - z) == Times(z, z)
  {
    assert Times(z, z) - Times(bound, bound) == Times(z - bound, z + bound);
  }

  // ---- One denominator across ranks -----------------------------------------------------------

  /** `_population_std_across_ranks` without a process group. */
  function PopulationStd(s: seq<real>, sqrt: real -> real): real {
    if |s| <= 1 then 0.0 else sqrt(Variance(s))
  }

  function Concat(ranks: seq<seq<real>>): seq<real> {
    if ranks == [] then [] else ranks[0] + Concat(ranks[1..])
  }

  /** `all_reduce_sufficient_stats`: every rank contributes its sum, its sum of squares and its
      count, an empty rank zeros. */
  method AllReduceStats(ranks: seq<seq<real>>) returns (sum: real, sumSq: real, count: nat)
    ensures sum == Sum(Concat(ranks)) && sumSq == SumSq(Concat(ranks)) && count == |Concat(ranks)|
  {
    sum, sumSq, count := 0.0, 0.0, 0;
    for i := 0 to |ranks|
      invariant sum + Sum(Concat(ranks[i..])) == Sum(Concat(ranks))
      invariant sumSq + SumSq(Concat(ranks[i..])) == SumSq(Concat(ranks))
      invariant count + |Concat(ranks[i..])| == |Concat(ranks)|
    {
      assert ranks[i..][0] == ranks[i] && ranks[i..][1..] == ranks[i + 1..];
      SumAppend(ranks[i], Concat(ranks[i + 1..]));
      sum, sumSq, count := sum + Sum(ranks[i]), sumSq + SumSq(ranks[i]), count + |ranks[i]|;
    }
  }

  /** The cross-rank standard deviation is that of the concatenated rewards, however they are
      spread over the ranks; its clamp at zero never bites. */
  method StdAcrossRanks(ranks: seq<seq<real>>, sqrt: real -> real) returns (std: real)
    ensures std == PopulationStd(Concat(ranks), sqrt)
  {
    var sum, sumSq, count := AllReduceStats(ranks);
    if count <= 1 {
      return 0.0;
    }
    VarianceByMoments(Concat(ranks));
    var mean := Over(sum, count);
    var variance := Over(sumSq, count) - Times(mean, mean);
    std := sqrt(if variance < 0.0 then 0.0 else variance);
  }

  /** Two ways of spreading the same rewards over ranks give every rank the same denominator. */
  lemma PartitionBlind(a: seq<seq<real>>, b: seq<seq<real>>, sqrt: real -> real)
    requires multiset(Concat(a)) == multiset(Concat(b))
    ensures PopulationStd(Concat(a), sqrt) == PopulationStd(Concat(b), sqrt)
  {
    SumsPermute(Concat(a), Concat(b));
    assert |Concat(a)| == |multiset(Concat(a))| == |Concat(b)|;
    if |Concat(a)| > 1 {
      VarianceByMoments(Concat(a));
      VarianceByMoments(Concat(b));
    }
  }

  lemma {:induction false} SumsPermute(a: seq<real>, b: seq<real>)
    requires multiset(a) == multiset(b)
    ensures Sum(a) == Sum(b) && SumSq(a) == SumSq(b)
  {
    hide Times;
    if a == [] {
      assert |b| == |multiset(b)| == 0;
    } else {
      var x := a[0];
      assert x in multiset(b);
      var k := IndexOf(b, x);
      var b' := b[..k] + b[k + 1..];
      WithoutAt(b, k);
      assert a == [x] + a[1..];
      CancelOne(multiset(a[1..]), multiset(b'), x);
      SumsPermute(a[1..], b');
      SumWithout(b, k);
    }
  }

  // ---- The clamped advantages -----------------------------------------------------------------

  /** A reward's clamped advantage: its deviation from the mean in units of the denominator, as far as the
      bound admits it. */
  ghost predicate ClampedTo(a: Advantage, deviation: real, denom: real, bound: real) {
    && a.Finite? && 0.0 - bound <= a.value <= bound
    && (Times(a.value, denom) == deviation
        || (a.value == bound && deviation > Times(bound, denom))
        || (a.value == 0.0 - bound && deviation < Times(0.0 - bound, denom)))
  }

  lemma ClampsTo(deviation: real, denom: real, bound: real)
    requires denom > 0.0 && bound >= 0.0
    ensures ClampedTo(Clamp(Divide(deviation, denom), bound), deviation, denom, bound)
  {
    var z := deviation / denom;
    assert Times(z, denom) == deviation;
    SameSign(z - bound, denom);
    SameSign(z + bound, denom);
    assert Times(z - bound, denom) == Times(z, denom) - Times(bound, denom);
    assert Times(z + bound, denom) == Times(z, denom) - Times(0.0 - bound, denom);
  }

  lemma ClampMonotone(x: real, y: real, bound: real)
    requires x <= y
    ensures ClampReal(x, bound) <= ClampReal(y, bound)
  {
  }

  /** Clamping never reverses the order within a group, whatever the bound. */
  ghost predicate NeverReversed(
    rewards: seq<real>, ids: seq<int>, advantages: seq<Advantage>, eps: real, shared: Option<real>, sqrt: real -> real)
    requires |rewards| == |ids| == |advantages|
  {
    forall i, j | OneGroup(ids, i, j) && rewards[i] <= rewards[j] ::
      Denom(rewards, ids, i, eps, shared, sqrt) > 0.0 ==>
        advantages[i].Finite? && advantages[j].Finite? && advantages[i].value <= advantages[j].value
  }

  /** Every advantage is its reward's deviation from the mean of its group, clamped. */
  ghost predicate Clamped(
    rewards: seq<real>, ids: seq<int>, advantages: seq<Advantage>, eps: real, shared: Option<real>,
    sqrt: real -> real, bound: real)
    requires |rewards| == |ids| == |advantages|
  {
    forall i :: 0 <= i < |ids| && Denom(rewards, ids, i, eps, shared, sqrt) > 0.0 ==>
      var group := GroupOf(rewards, ids, ids[i]);
      && group != []
      && ClampedTo(advantages[i], if |group| == 1 then 0.0 else rewards[i] - Mean(group),
                   Denom(rewards, ids, i, eps, shared, sqrt), bound)
  }

  lemma ClampedFacts(
    rewards: seq<real>, ids: seq<int>, plain: seq<Advantage>, advantages: seq<Advantage>, eps: real,
    shared: Option<real>, sqrt: real -> real, bound: real)
    requires |rewards| == |ids| == |plain| == |advantages|
    requires forall i :: 0 <= i < |rewards| ==>
               plain[i] == Standardized(rewards[i], GroupOf(rewards, ids, ids[i]), eps, shared, sqrt)
    requires Spaced(rewards, ids, plain, eps, shared, sqrt)
    requires forall i :: 0 <= i < |plain| ==> advantages[i] == Clamp(plain[i], bound)
    ensures NeverReversed(rewards, ids, advantages, eps, shared, sqrt)
    ensures bound >= 0.0 ==> Clamped(rewards, ids, advantages, eps, shared, sqrt, bound)
  {
    forall i, j | OneGroup(ids, i, j) && rewards[i] <= rewards[j] && Denom(rewards, ids, i, eps, shared, sqrt) > 0.0
      ensures advantages[i].Finite? && advantages[j].Finite? && advantages[i].value <= advantages[j].value
    {
      hide Denom, Standardized, GroupOf, Times, ClampReal;
      SameSign(plain[i].value - plain[j].value, Denom(rewards, ids, i, eps, shared, sqrt));
      ClampMonotone(plain[i].value, plain[j].value, bound);
    }
    forall i | 0 <= i < |ids| && Denom(rewards, ids, i, eps, shared, sqrt) > 0.0 && bound >= 0.0
      ensures var group := GroupOf(rewards, ids, ids[i]);
              && group != []
              && ClampedTo(advantages[i], if |group| == 1 then 0.0 else rewards[i] - Mean(group),
                           Denom(rewards, ids, i, eps, shared, sqrt), bound)
    {
      OneClamped(rewards, ids, i, eps, shared, sqrt, bound);
    }
  }

  lemma OneClamped(rewards: seq<real>, ids: seq<int>, i: nat, eps: real, shared: Option<real>, sqrt: real -> real,
      bound: real)
    requires |rewards| == |ids| && i < |ids| && Denom(rewards, ids, i, eps, shared, sqrt) > 0.0 && bound >= 0.0
    ensures var group := GroupOf(rewards, ids, ids[i]);
            && group != []
            && ClampedTo(Clamp(Standardized(rewards[i], group, eps, shared, sqrt), bound),
                         if |group| == 1 then 0.0 else rewards[i] - Mean(group),
                         Denom(rewards, ids, i, eps, shared, sqrt), bound)
  {
    InGroup(rewards, ids, i);
    var group := GroupOf(rewards, ids, ids[i]);
    hide GroupStd, GroupOf, Mean, Times, ClampReal;
    var deviation := if |group| == 1 then 0.0 else rewards[i] - Mean(group);
    ClampsTo(deviation, Denom(rewards, ids, i, eps, shared, sqrt), bound);
  }

  /** `group_relative_advantages` on one of the ranks. */
  method GroupRelativeAdvantages(
    ranks: seq<seq<real>>, rank: nat, ids: seq<int>, eps: real, bound: real, globalStd: bool, sqrt: real -> real)
    returns (advantages: array<Advantage>)
    requires rank < |ranks| && |ranks[rank]| == |ids|
    ensures fresh(advantages) && advantages.Length == |ids|
    ensures var shared := if globalStd then Some(PopulationStd(Concat(ranks), sqrt)) else None;
            && NeverReversed(ranks[rank], ids, advantages[..], eps, shared, sqrt)
            && (bound >= 0.0 ==> Clamped(ranks[rank], ids, advantages[..], eps, shared, sqrt, bound))
  {
    var rewards, shared := ranks[rank], None;
    if globalStd {
      var std := StdAcrossRanks(ranks, sqrt);
      shared := Some(std);
    }
    var plain := StandardizeGroupRewards(rewards, ids, eps, shared, sqrt);
    advantages := new Advantage[|ids|](i requires 0 <= i < |ids| reads plain => Clamp(plain[i], bound));
    ClampedFacts(rewards, ids, plain[..], advantages[..], eps, shared, sqrt, bound);
  }
}

/** Exactly when a carried-out plan is left alone by the next one, however many pairs a row id has. */
module ReplanExactly {
  import opened Sorting
  import opened PairRows
  import opened KeepSubset
  import opened DeltaPlan
  import opened Replan

  // ----- One bucket -----

  /** Every sized row is at least 1.1 times the overshoot. */
  predicate TooLargeToDrop(rows: seq<PairRow>, over: int) {
    forall i :: 0 <= i < |rows| && rows[i].cents > 0 ==> 10 * rows[i].cents >= 11 * over
  }

  /** Keeping everything but row `i`. */
  lemma {:induction false} AllButOne(rows: seq<PairRow>, i: nat)
    requires i < |rows|
    ensures PickSum(rows, KeepAll(|rows|)[i := false]) == Total(rows) - rows[i].cents
  {
    var but := KeepAll(|rows|)[i := false];
    PickUpdate(rows, but, i);
    assert but[i := true] == KeepAll(|rows|);
    PickAll(rows);
  }

  /** A choice that loses something drops a sized row no larger than the loss. */
  lemma {:induction false} SomethingDropped(rows: seq<PairRow>, bits: seq<bool>) returns (i: nat)
    requires |bits| == |rows| && PickSum(rows, bits) < Total(rows)
    ensures i < |rows| && !bits[i] && 0 < rows[i].cents <= Total(rows) - PickSum(rows, bits)
  {
    var n := |rows| - 1;
    if !bits[n] && rows[n].cents > 0 {
      i := n;
      PickBounds(rows[..n], bits[..n]);
    } else {
      i := SomethingDropped(rows[..n], bits[..n]);
    }
  }

  /** Losing `lost` of an overshooting total within the tolerance pays off exactly below 1.1 times the overshoot. */
  lemma {:induction false} LossPays(total: nat, target: nat, lost: nat)
    requires 0 < lost <= total && target < total && Fits(total, target)
    ensures Better(total - lost, total, total, target) <==> 10 * lost < 11 * (total - target)
    ensures Better(total, total - lost, total, target) <==> 10 * lost >= 11 * (total - target)
  {}

  /** An overshoot within the tolerance is kept by the search exactly when every sized row is too large to drop. */
  lemma {:induction false} OvershootKeptExactly(rows: seq<PairRow>, target: nat)
    requires 0 < target < Total(rows) && |rows| <= EXHAUSTIVE_LIMIT && Fits(Total(rows), target)
    ensures KeepSum(rows, target) == Total(rows) <==> TooLargeToDrop(rows, Total(rows) - target)
  {
    if KeepSum(rows, target) == Total(rows) {
      forall i | 0 <= i < |rows| && rows[i].cents > 0 ensures 10 * rows[i].cents >= 11 * (Total(rows) - target) {
        KeptIsTooLarge(rows, target, i);
      }
    } else {
      hide Better, Fits, KeepBits, PickSum, Total;
      var bits := KeepBits(rows, target);
      PickBounds(rows, bits);
      var i := SomethingDropped(rows, bits);
      PickAll(rows);
      ExhaustiveIsOptimal(rows, target, KeepAll(|rows|));
      LossPays(Total(rows), target, Total(rows) - PickSum(rows, bits));
    }
  }

  lemma {:induction false} KeptIsTooLarge(rows: seq<PairRow>, target: nat, i: nat)
    requires 0 < target < Total(rows) && |rows| <= EXHAUSTIVE_LIMIT && Fits(Total(rows), target)
    requires KeepSum(rows, target) == Total(rows) && i < |rows| && rows[i].cents > 0
    ensures 10 * rows[i].cents >= 11 * (Total(rows) - target)
  {
    hide Better, Fits, KeepSum, PickSum, Total;
    AllButOne(rows, i);
    PickBounds(rows, KeepAll(|rows|)[i := false]);
    ExhaustiveIsOptimal(rows, target, KeepAll(|rows|)[i := false]);
    LossPays(Total(rows), target, rows[i].cents);
  }

  lemma {:induction false} FitsDownward(small: nat, large: nat, target: nat)
    requires small <= large && Fits(large, target)
    ensures Fits(small, target)
  {}

  /** Above 14 rows everything is kept as soon as everything fits. */
  lemma {:induction false} GreedyKeepsWhatFits(rows: seq<PairRow>, target: nat)
    requires |rows| > EXHAUSTIVE_LIMIT && 0 < target && Total(rows) > 0 && Fits(Total(rows), target)
    ensures KeepSum(rows, target) == Total(rows)
  {
    hide Fits, Crowded;
    var bits := KeepBits(rows, target);
    GreedyIsLargestFirst(rows, target);
    forall i | 0 <= i < |rows| && rows[i].cents > 0 ensures bits[i] {
      if !bits[i] {
        PickUpdate(rows, bits, i);
        PickBounds(rows, bits[i := true]);
        FitsDownward(PickSum(rows, bits) + rows[i].cents, Total(rows), target);
      }
    }
    DroppedAllEmpty(rows, bits);
  }

  // ----- What is left of a bucket -----

  /** The row id of that target is left alone by the next plan: its search was exhaustive, or it does not
      overshoot, or more than 14 rows remain, or every sized row that remains is at least 1.1 times the overshoot. */
  ghost predicate Settles(current: seq<PairRow>, plan: Plan, t: Target) {
    var b, rest := BucketOf(current, t.rowId), Remaining(current, plan, t.rowId);
    || |b| <= EXHAUSTIVE_LIMIT || KeepSum(b, t.cents) <= t.cents
    || |rest| > EXHAUSTIVE_LIMIT || TooLargeToDrop(rest, KeepSum(b, t.cents) - t.cents)
  }

  lemma {:induction false} SameSizes(a: seq<PairRow>, b: seq<PairRow>, over: int)
    requires multiset(a) == multiset(b)
    ensures TooLargeToDrop(a, over) <==> TooLargeToDrop(b, over)
  {
    if TooLargeToDrop(a, over) {
      SameSizesOneWay(a, b, over);
    } else if TooLargeToDrop(b, over) {
      SameSizesOneWay(b, a, over);
    }
  }

  lemma {:induction false} SameSizesOneWay(a: seq<PairRow>, b: seq<PairRow>, over: int)
    requires multiset(a) == multiset(b) && TooLargeToDrop(a, over)
    ensures TooLargeToDrop(b, over)
  {
    forall i | 0 <= i < |b| && b[i].cents > 0 ensures 10 * b[i].cents >= 11 * over {
      assert b[i] in multiset(a);
      var j :| 0 <= j < |a| && a[j] == b[i];
    }
  }

  /** An overshooting bucket of more than 14 rows is left with the rows that remain of it, nothing new. */
  lemma {:induction false} OvershootRemains(current: seq<PairRow>, targets: seq<Target>, minPairUsd: real, t: Target,
                                            news: seq<PairRow>, after: seq<PairRow>)
    requires DistinctIds(current) && DistinctTargets(targets) && t in targets && Effective(t)
    requires Executed(current, BuildPlan(current, targets, minPairUsd), news, after)
    requires var b := BucketOf(current, t.rowId);
      KeepSum(b, t.cents) > t.cents && |b| > EXHAUSTIVE_LIMIT
    ensures var (b, b') := (BucketOf(current, t.rowId), BucketOf(after, t.rowId));
      && multiset(b') == multiset(Remaining(current, BuildPlan(current, targets, minPairUsd), t.rowId))
      && Total(b') == KeepSum(b, t.cents) && Fits(Total(b'), t.cents)
  {
    var plan := BuildPlan(current, targets, minPairUsd);
    var b := BucketOf(current, t.rowId);
    LandsOnTarget(current, targets, minPairUsd, t, news, after);
    AfterBucket(current, plan, news, after, t.rowId);
    OpensForTarget(current, targets, MinTopUp(minPairUsd), t);
    OpenedTotal(news, plan.opens, t.rowId);
    PickBounds(b, KeepBits(b, t.cents));
    hide BuildPlan, BucketOf, KeepBits, Fits, Executed, PickSum, Crowded;
    assert !WorthOpening(Gap(b, t), MinTopUp(minPairUsd));
    GreedyIsLargestFirst(b, t.cents);
  }

  /** A targeted row id is quiet in the next plan exactly when it settles. */
  lemma {:induction false} QuietExactly(current: seq<PairRow>, targets: seq<Target>, minPairUsd: real, t: Target,
                                        news: seq<PairRow>, after: seq<PairRow>)
    requires DistinctIds(current) && DistinctTargets(targets) && t in targets && Effective(t)
    requires Executed(current, BuildPlan(current, targets, minPairUsd), news, after)
    ensures Quiet(after, t, MinTopUp(minPairUsd)) <==> Settles(current, BuildPlan(current, targets, minPairUsd), t)
  {
    hide BuildPlan, BucketOf, KeepBits, KeepSum, Fits, Executed, Total, Remaining;
    var b, b' := BucketOf(current, t.rowId), BucketOf(after, t.rowId);
    var rest := Remaining(current, BuildPlan(current, targets, minPairUsd), t.rowId);
    if |b| <= EXHAUSTIVE_LIMIT {
      KeepsAllAgain(current, targets, minPairUsd, t, news, after);
    } else if KeepSum(b, t.cents) <= t.cents {
      LandsOnTarget(current, targets, minPairUsd, t, news, after);
      EverythingUnderTargetIsKept(b', t.cents);
    } else {
      OvershootRemains(current, targets, minPairUsd, t, news, after);
      SameLength(b', rest);
      SameSizes(b', rest, KeepSum(b, t.cents) - t.cents);
      hide TooLargeToDrop;
      if |rest| > EXHAUSTIVE_LIMIT {
        GreedyKeepsWhatFits(b', t.cents);
      } else {
        OvershootKeptExactly(b', t.cents);
      }
    }
  }

  // ----- The whole plan -----

  /** A carried-out plan is left alone exactly when every targeted row id settles. */
  lemma {:induction false} ReplanIsFixpointExactly(current: seq<PairRow>, targets: seq<Target>, minPairUsd: real,
                                                   news: seq<PairRow>, after: seq<PairRow>)
    requires DistinctIds(current) && DistinctTargets(targets)
    requires Executed(current, BuildPlan(current, targets, minPairUsd), news, after)
    ensures var next := BuildPlan(after, targets, minPairUsd);
      next.opens == [] && next.closes == []
      <==> forall t :: t in targets && Effective(t) ==> Settles(current, BuildPlan(current, targets, minPairUsd), t)
  {
    NothingOutsideTargets(current, targets, minPairUsd, news, after);
    QuietLeftovers(after, KeyOrder(after), Popped(targets));
    QuietTargetsExactly(after, targets, MinTopUp(minPairUsd));
    forall t | t in targets && Effective(t)
      ensures Quiet(after, t, MinTopUp(minPairUsd)) <==> Settles(current, BuildPlan(current, targets, minPairUsd), t)
    {
      QuietExactly(current, targets, minPairUsd, t, news, after);
    }
    hide Quiet, Settles, ProcessTargets, Leftovers, Executed;
  }
}

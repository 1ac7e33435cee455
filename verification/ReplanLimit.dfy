/** Why replanning needs the exhaustive search: with 15 pairs on one row id the greedy pass takes over,
    and a plan that has been carried out is no longer left alone. */
module ReplanLimit {
  import opened Arith
  import opened Sorting
  import opened PairRows
  import opened KeepSubset
  import opened DeltaPlan
  import opened Replan

  const ONLY: Target := Target("r", 100000, 0.0, 0.0, 1.0, 0.0)

  /** Pairs of $1000, $30 and then $20 each, all on the target's row id. */
  function PairAt(i: nat): PairRow {
    PairRow(i, "r", if i == 0 then 100000 else if i == 1 then 3000 else 2000, 0.0, 0.0, 1.0, 0.0)
  }

  function Pairs(n: nat): (rows: seq<PairRow>)
    ensures |rows| == n && forall i :: 0 <= i < n ==> rows[i] == PairAt(i)
  {
    if n == 0 then [] else Pairs(n - 1) + [PairAt(n - 1)]
  }

  lemma {:induction false} FilterPairs(n: nat, p: PairRow -> bool, m: nat)
    requires forall i :: 0 <= i < n ==> (p(PairAt(i)) <==> i < m)
    ensures FilterRows(Pairs(n), p) == Pairs(MinI(m, n))
  {
    hide FilterRows, Pairs, PairAt;
    if n == 0 {
      FilterNone(p);
    } else {
      FilterPairs(n - 1, p, m);
      PairsSnoc(n);
      FilterSnoc(Pairs(n - 1), PairAt(n - 1), p);
      assert p(PairAt(n - 1)) <==> n - 1 < m;
    }
  }

  lemma {:induction false} FilterNone(p: PairRow -> bool)
    ensures Pairs(0) == [] && FilterRows(Pairs(0), p) == []
  {}

  lemma {:induction false} PairsSnoc(n: nat)
    requires n > 0
    ensures Pairs(n) == Pairs(n - 1) + [PairAt(n - 1)]
  {
    hide PairAt;
  }

  lemma {:induction false} FilterSnoc(rows: seq<PairRow>, r: PairRow, p: PairRow -> bool)
    ensures FilterRows(rows + [r], p) == FilterRows(rows, p) + if p(r) then [r] else []
  {
    assert (rows + [r])[..|rows|] == rows;
  }

  /** The bucket of the row id is the whole list, already in order. */
  lemma {:induction false} BucketOfPairs(n: nat)
    ensures BucketOf(Pairs(n), "r") == Pairs(n)
  {
    FilterPairs(n, HasId("r"), n);
    SortOfSorted(Pairs(n), LargerRow);
  }

  /** The sum over the first pair, the second pair and perhaps one more. */
  lemma {:induction false} SumOfFew(n: nat, bits: seq<bool>, i: nat)
    requires 2 <= i < n && |bits| == n
    ensures var none := KeepNone(n);
      && PickSum(Pairs(n), none[0 := true]) == 100000
      && PickSum(Pairs(n), none[0 := true][1 := true]) == 103000
      && PickSum(Pairs(n), none[0 := true][1 := true][i := true]) == 105000
  {
    var none, rows := KeepNone(n), Pairs(n);
    PickNone(rows);
    PickUpdate(rows, none, 0);
    PickUpdate(rows, none[0 := true], 1);
    PickUpdate(rows, none[0 := true][1 := true], i);
  }

  lemma {:induction false} NothingSmallFits(bits: seq<bool>, i: nat)
    requires |bits| == 15 && 2 <= i < 15 && bits[0] && bits[1] && bits[i]
    ensures !Fits(PickSum(Pairs(15), bits), 100000)
  {
    SumOfFew(15, bits, i);
    PickMonotone(Pairs(15), KeepNone(15)[0 := true][1 := true][i := true], bits);
  }

  lemma {:induction false} NotCrowded(bits: seq<bool>)
    requires |bits| == 15
    ensures !bits[0] ==> !Crowded(Pairs(15), bits, 0, 100000)
    ensures bits[0] && !bits[1] ==> !Crowded(Pairs(15), bits, 1, 100000)
  {
    SumOfFew(15, bits, 2);
    PickNone(Pairs(15));
    hide PickSum, Pairs, PairAt, AtLeast, KeepNone;
    if !bits[0] {
      NoneAtLeast(bits);
    } else if !bits[1] {
      OneAtLeast(bits);
    }
  }

  lemma {:induction false} NoneAtLeast(bits: seq<bool>)
    requires |bits| == 15 && !bits[0]
    ensures Pairs(15)[0].cents == 100000
    ensures AtLeast(Pairs(15), bits, 100000) == KeepNone(15)
  {
    hide Pairs;
    var rows := Pairs(15);
    assert rows[0].cents == 100000;
    assert forall i :: 0 < i < 15 ==> rows[i].cents < 100000;
    hide AtLeast;
    assert AtLeast(rows, bits, 100000) == KeepNone(15);
  }

  lemma {:induction false} OneAtLeast(bits: seq<bool>)
    requires |bits| == 15 && bits[0] && !bits[1]
    ensures Pairs(15)[1].cents == 3000
    ensures AtLeast(Pairs(15), bits, 3000) == KeepNone(15)[0 := true]
  {
    hide Pairs;
    var rows := Pairs(15);
    assert rows[1].cents == 3000;
    assert forall i :: 1 < i < 15 ==> rows[i].cents < 3000;
    hide AtLeast;
    assert AtLeast(rows, bits, 3000) == KeepNone(15)[0 := true];
  }

  lemma {:induction false} SomethingThere()
    ensures Total(Pairs(15)) > 0
  {
    SumOfFew(15, KeepNone(15), 2);
    PickBounds(Pairs(15), KeepNone(15)[0 := true]);
  }

  lemma {:induction false} GreedyAt(i: nat)
    requires i < 15
    ensures Fits(KeepSum(Pairs(15), 100000), 100000)
    ensures KeepBits(Pairs(15), 100000)[i] || Crowded(Pairs(15), KeepBits(Pairs(15), 100000), i, 100000)
  {
    hide KeepBits, KeepSum, Total, Crowded, Fits;
    SomethingThere();
    GreedyIsLargestFirst(Pairs(15), 100000);
    assert Pairs(15)[i].cents > 0;
  }

  lemma {:induction false} OnlyTwo(bits: seq<bool>)
    requires |bits| == 15 && Fits(PickSum(Pairs(15), bits), 100000)
    requires bits[0] || Crowded(Pairs(15), bits, 0, 100000)
    requires bits[1] || Crowded(Pairs(15), bits, 1, 100000)
    ensures bits == KeepNone(15)[0 := true][1 := true] && PickSum(Pairs(15), bits) == 103000
  {
    hide PickSum, Crowded, Fits, Pairs;
    NotCrowded(bits);
    forall i | 2 <= i < 15 ensures !bits[i] {
      if bits[i] {
        NothingSmallFits(bits, i);
      }
    }
    var two := KeepNone(15)[0 := true][1 := true];
    hide KeepNone;
    assert bits == two;
    SumOfFew(15, bits, 2);
  }

  /** The greedy pass keeps the $1000 and the $30 pair, and nothing else. */
  lemma {:induction false} GreedyKeepsTwo()
    ensures KeepBits(Pairs(15), 100000) == KeepNone(15)[0 := true][1 := true]
    ensures KeepSum(Pairs(15), 100000) == 103000
  {
    hide KeepBits, PickSum, Crowded, Fits, Pairs, KeepNone;
    GreedyAt(0);
    GreedyAt(1);
    OnlyTwo(KeepBits(Pairs(15), 100000));
  }

  lemma {:induction false} PairsDistinct(n: nat)
    ensures DistinctIds(Pairs(n)) && DistinctTargets([ONLY])
  {}

  /** The first plan closes the $20 pairs and opens nothing. */
  lemma {:induction false} FirstPlan(minPairUsd: real)
    ensures BuildPlan(Pairs(15), [ONLY], minPairUsd).opens == []
    ensures Executed(Pairs(15), BuildPlan(Pairs(15), [ONLY], minPairUsd), [], Pairs(2))
  {
    hide *;
    FirstOpens(minPairUsd);
    FirstCloses(minPairUsd);
    TwoRemain(BuildPlan(Pairs(15), [ONLY], minPairUsd));
  }

  lemma {:induction false} FirstOpens(minPairUsd: real)
    ensures BuildPlan(Pairs(15), [ONLY], minPairUsd).opens == []
  {
    hide *;
    BucketOfPairs(15);
    GreedyKeepsTwo();
    NothingToOpen(Pairs(15), minPairUsd);
  }

  lemma {:induction false} FirstCloses(minPairUsd: real)
    ensures var closes := BuildPlan(Pairs(15), [ONLY], minPairUsd).closes;
      forall i :: 0 <= i < 15 ==> (i in ClosedIds(closes) <==> i >= 2)
  {
    hide KeepBits, BuildPlan, Pairs, ClosedIds, KeepSum, KeepNone;
    GreedyKeepsTwo();
    forall i | 0 <= i < 15 ensures i in ClosedIds(BuildPlan(Pairs(15), [ONLY], minPairUsd).closes) <==> i >= 2 {
      ClosedAt(15, minPairUsd, i);
    }
  }

  lemma {:induction false} TwoRemain(plan: Plan)
    requires plan.opens == [] && forall i :: 0 <= i < 15 ==> (i in ClosedIds(plan.closes) <==> i >= 2)
    ensures Executed(Pairs(15), plan, [], Pairs(2))
  {
    hide ClosedIds, Pairs;
    var p := NotClosed(ClosedIds(plan.closes));
    FilterPairs(15, p, 2);
    hide FilterRows;
  }

  /** A pair is closed exactly when the subset choice dropped it. */
  lemma {:induction false} ClosedAt(n: nat, minPairUsd: real, i: nat)
    requires i < n
    ensures PairAt(i).strategyId in ClosedIds(BuildPlan(Pairs(n), [ONLY], minPairUsd).closes)
      <==> !KeepBits(Pairs(n), 100000)[i]
  {
    hide KeepBits, BuildPlan, BucketOf, DroppedOf, ClosedIds;
    assert Pairs(n)[i] in Pairs(n);
    PairsDistinct(n);
    ClosedExactly(Pairs(n), [ONLY], minPairUsd, PairAt(i));
    DroppedAt(n, i);
    assert ONLY in [ONLY] && Effective(ONLY);
  }

  lemma {:induction false} DroppedAt(n: nat, i: nat)
    requires i < n
    ensures PairAt(i) in DroppedOf(Pairs(n), ONLY) <==> !KeepBits(Pairs(n), 100000)[i]
  {
    BucketOfPairs(n);
    var bits := KeepBits(Pairs(n), 100000);
    InDropped(Pairs(n), bits, PairAt(i));
    hide KeepBits, BucketOf, Dropped;
    if j :| 0 <= j < n && !bits[j] && Pairs(n)[j] == PairAt(i) {
      assert j == i;
    }
  }

  lemma {:induction false} NothingToOpen(rows: seq<PairRow>, minPairUsd: real)
    requires BucketOf(rows, "r") == rows && KeepSum(rows, 100000) >= 100000
    ensures BuildPlan(rows, [ONLY], minPairUsd).opens == []
  {
    hide KeepSum, KeepBits, BucketOf, Leftovers, KeyOrder;
    assert [ONLY][..0] == [];
    assert Popped([]) == {};
    assert Gap(rows, ONLY) <= 0;
    assert ProcessTargets(rows, [], MinTopUp(minPairUsd)) == EMPTY_PLAN;
  }

  /** The second plan closes the $30 pair, which the search of the two pairs left finds superfluous. */
  lemma {:induction false} SecondPlan(minPairUsd: real)
    ensures BuildPlan(Pairs(2), [ONLY], minPairUsd).closes != []
  {
    var bits := KeepBits(Pairs(2), 100000);
    SearchKeepsOne();
    hide KeepBits, KeepSum, BuildPlan, PickSum;
    SecondBit(bits);
    ClosedAt(2, minPairUsd, 1);
  }

  lemma {:induction false} SearchKeepsOne()
    ensures KeepSum(Pairs(2), 100000) == 100000
  {
    var rows, none := Pairs(2), KeepNone(2);
    PickNone(rows);
    PickUpdate(rows, none, 0);
    PickBounds(rows, none[0 := true]);
    hide PickSum, Total, KeepSum, KeepBits;
    ExactSubsetIsKept(rows, 100000);
  }

  lemma {:induction false} SecondBit(bits: seq<bool>)
    requires |bits| == 2 && PickSum(Pairs(2), bits) == 100000
    ensures !bits[1]
  {
    var rows := Pairs(2);
    assert rows[..1][..0] == [] && bits[..1][..0] == [];
    assert PickSum(rows[..1], bits[..1]) == if bits[0] then 100000 else 0;
  }

  /** With 15 pairs on a row id a carried-out plan is planned away again: the bound of 14 is sharp. */
  lemma {:induction false} FifteenPairsAreReplanned(minPairUsd: real)
    ensures DistinctIds(Pairs(15)) && DistinctTargets([ONLY])
    ensures |BucketOf(Pairs(15), ONLY.rowId)| == EXHAUSTIVE_LIMIT + 1
    ensures Executed(Pairs(15), BuildPlan(Pairs(15), [ONLY], minPairUsd), [], Pairs(2))
    ensures BuildPlan(Pairs(2), [ONLY], minPairUsd).closes != []
  {
    PairsDistinct(15);
    BucketOfPairs(15);
    FirstPlan(minPairUsd);
    SecondPlan(minPairUsd);
  }
}

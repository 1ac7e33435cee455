/** Which open pairs of one row id to keep: an exhaustive search over all subsets
    for at most 14 pairs, a largest-first greedy pass above that. */
module KeepSubset {
  import opened Arith
  import opened Sorting
  import opened PairRows

  const EXHAUSTIVE_LIMIT: nat := 14

  /** 25 times the tolerated overshoot, in cents: 8% of the target, at least $10 and at most $40. */
  function Tol25(target: nat): nat { MaxI(25000, MinI(100000, 2 * target)) }

  /** 25 times the cost (in cents) of keeping `kept` out of `total` against `target`:
      turnover, overshoot at 1.2, and 4 more for overshoot beyond the tolerance. */
  function Cost25(kept: nat, total: nat, target: nat): int {
    var over := MaxI(0, kept - target);
    25 * ((total - kept) + MaxI(0, target - kept)) + 30 * over
    + MaxI(0, 4 * (25 * over - Tol25(target)))
  }

  /** Lower cost wins; at equal cost the larger kept sum wins. */
  predicate Better(kept: nat, other: nat, total: nat, target: nat) {
    var a, b := Cost25(kept, total, target), Cost25(other, total, target);
    a < b || (a == b && kept > other)
  }

  // ----- Subsets as bit masks -----

  function Pow2(n: nat): nat { if n == 0 then 1 else 2 * Pow2(n - 1) }

  predicate Bit(mask: nat, i: nat) {
    if i == 0 then mask % 2 == 1 else Bit(mask / 2, i - 1)
  }

  function Bits(mask: nat, n: nat): (bits: seq<bool>)
    ensures |bits| == n && forall i :: 0 <= i < n ==> bits[i] == Bit(mask, i)
  {
    if n == 0 then [] else Bits(mask, n - 1) + [Bit(mask, n - 1)]
  }

  function MaskOf(bits: seq<bool>): nat {
    if bits == [] then 0 else (if bits[0] then 1 else 0) + 2 * MaskOf(bits[1..])
  }

  /** Every subset is the bit pattern of some mask below 2^n. */
  lemma {:induction false} MaskRoundTrip(bits: seq<bool>)
    ensures MaskOf(bits) < Pow2(|bits|)
    ensures Bits(MaskOf(bits), |bits|) == bits
  {
    if bits == [] {
    } else {
      MaskRoundTrip(bits[1..]);
      var m := MaskOf(bits);
      assert m / 2 == MaskOf(bits[1..]);
      forall i | 0 <= i < |bits| ensures Bit(m, i) == bits[i] {
        if i > 0 {
          assert Bit(m, i) == Bit(m / 2, i - 1);
          assert Bits(m / 2, |bits| - 1)[i - 1] == bits[1..][i - 1];
        }
      }
    }
  }

  lemma {:induction false} Pow2Positive(n: nat)
    ensures Pow2(n) >= 1
  {
    if n > 0 {
      Pow2Positive(n - 1);
    }
  }

  function MaskSum(rows: seq<PairRow>, mask: nat): nat { PickSum(rows, Bits(mask, |rows|)) }

  /** The winner among the masks below `k`, scanned upwards. */
  function ScanBest(rows: seq<PairRow>, target: nat, k: nat): nat
    requires k >= 1
  {
    if k == 1 then 0
    else
      var best := ScanBest(rows, target, k - 1);
      if Better(MaskSum(rows, k - 1), MaskSum(rows, best), Total(rows), target) then k - 1 else best
  }

  lemma {:induction false} ScanBestIsBest(rows: seq<PairRow>, target: nat, k: nat, mask: nat)
    requires mask < k
    ensures ScanBest(rows, target, k) < k
    ensures !Better(MaskSum(rows, mask), MaskSum(rows, ScanBest(rows, target, k)), Total(rows), target)
  {
    hide MaskSum, Total;
    if k == 1 {
    } else {
      ScanBestIsBest(rows, target, k - 1, if mask < k - 1 then mask else 0);
    }
  }

  // ----- Greedy pass -----

  datatype Indexed = Indexed(idx: nat, row: PairRow)

  predicate Larger(a: Indexed, b: Indexed) { a.row.cents > b.row.cents }

  function Enumerate(rows: seq<PairRow>): (r: seq<Indexed>)
    ensures |r| == |rows| && forall i :: 0 <= i < |rows| ==> r[i] == Indexed(i, rows[i])
  {
    if rows == [] then [] else Enumerate(rows[..|rows| - 1]) + [Indexed(|rows| - 1, rows[|rows| - 1])]
  }

  /** The enumerated rows, largest size first, equal sizes in list order. */
  function LargestFirst(rows: seq<PairRow>): seq<Indexed> { Sort(Enumerate(rows), Larger) }

  ghost predicate Of(order: seq<Indexed>, rows: seq<PairRow>) {
    forall k :: 0 <= k < |order| ==> order[k].idx < |rows| && rows[order[k].idx] == order[k].row
  }

  predicate Fits(sum: nat, target: nat) { 25 * sum <= 25 * target + Tol25(target) }

  function GreedyBits(rows: seq<PairRow>, order: seq<Indexed>, target: nat): (bits: seq<bool>)
    requires Of(order, rows)
    ensures |bits| == |rows|
  {
    if order == [] then KeepNone(|rows|)
    else
      var n := |order| - 1;
      var bits := GreedyBits(rows, order[..n], target);
      if order[n].row.cents > 0 && Fits(PickSum(rows, bits) + order[n].row.cents, target)
      then bits[order[n].idx := true] else bits
  }

  /** The first row of least size in `order`. */
  function Smallest(order: seq<Indexed>): (x: Indexed)
    requires order != []
    ensures x in order && forall y :: y in order ==> x.row.cents <= y.row.cents
  {
    if |order| == 1 then order[0]
    else
      var n := |order| - 1;
      var best := Smallest(order[..n]);
      assert order == order[..n] + [order[n]];
      if order[n].row.cents < best.row.cents then order[n] else best
  }

  /** The greedy pass over all rows. */
  function Greedy(rows: seq<PairRow>, target: nat): (bits: seq<bool>)
    ensures |bits| == |rows|
  {
    LargestFirstOrder(rows);
    GreedyBits(rows, LargestFirst(rows), target)
  }

  /** The greedy choice; when nothing was taken, the smallest row if it fits. */
  function GreedyChoice(rows: seq<PairRow>, target: nat): (bits: seq<bool>)
    requires rows != []
    ensures |bits| == |rows|
  {
    LargestFirstOrder(rows);
    var bits := Greedy(rows, target);
    var s := Smallest(LargestFirst(rows));
    if true !in bits && Fits(s.row.cents, target) then bits[s.idx := true] else bits
  }

  /** The order visits every row exactly once, sizes never increasing. */
  lemma {:induction false} LargestFirstOrder(rows: seq<PairRow>)
    ensures |LargestFirst(rows)| == |rows|
    ensures Of(LargestFirst(rows), rows)
    ensures Distinct(LargestFirst(rows)) && Sorted(LargestFirst(rows), Larger)
    ensures forall i :: 0 <= i < |rows| ==> Indexed(i, rows[i]) in LargestFirst(rows)
  {
    var ids, order := Enumerate(rows), LargestFirst(rows);
    SortMultiset(ids, Larger);
    SortSorted(ids, Larger);
    DistinctPermutation(ids, order);
    forall k | 0 <= k < |order| ensures order[k].idx < |rows| && rows[order[k].idx] == order[k].row {
      assert order[k] in multiset(order);
      assert order[k] in ids;
    }
    forall i | 0 <= i < |rows| ensures Indexed(i, rows[i]) in order {
      assert ids[i] in multiset(ids);
    }
  }

  // ----- The choice -----

  /** Which rows are kept. */
  function KeepBits(rows: seq<PairRow>, target: nat): (bits: seq<bool>)
    ensures |bits| == |rows|
  {
    if rows == [] || target == 0 || Total(rows) == 0 then KeepNone(|rows|)
    else if |rows| <= EXHAUSTIVE_LIMIT then
      Pow2Positive(|rows|);
      Bits(ScanBest(rows, target, Pow2(|rows|)), |rows|)
    else GreedyChoice(rows, target)
  }

  function KeepSum(rows: seq<PairRow>, target: nat): nat { PickSum(rows, KeepBits(rows, target)) }

  // ----- What the choice guarantees -----

  ghost predicate Searched(rows: seq<PairRow>, target: nat) {
    target > 0 && Total(rows) > 0 && |rows| <= EXHAUSTIVE_LIMIT
  }

  /** No subset at all beats the kept one: none is cheaper, and none as cheap keeps more. */
  lemma {:induction false} ExhaustiveIsOptimal(rows: seq<PairRow>, target: nat, bits: seq<bool>)
    requires Searched(rows, target) && |bits| == |rows|
    ensures !Better(PickSum(rows, bits), KeepSum(rows, target), Total(rows), target)
  {
    MaskRoundTrip(bits);
    ScanBestIsBest(rows, target, Pow2(|rows|), MaskOf(bits));
  }

  /** A subset that meets the target exactly is the only acceptable answer. */
  lemma {:induction false} ExactSubsetIsKept(rows: seq<PairRow>, target: nat)
    requires Searched(rows, target) && Achievable(target, rows)
    ensures KeepSum(rows, target) == target
  {
    var bits: seq<bool> :| |bits| == |rows| && PickSum(rows, bits) == target;
    ExhaustiveIsOptimal(rows, target, bits);
    PickBounds(rows, KeepBits(rows, target));
    PickBounds(rows, bits);
  }

  /** When everything fits under the target, everything is kept, however many rows there are. */
  lemma {:induction false} EverythingUnderTargetIsKept(rows: seq<PairRow>, target: nat)
    requires Total(rows) <= target
    ensures KeepSum(rows, target) == Total(rows)
  {
    PickBounds(rows, KeepBits(rows, target));
    if Searched(rows, target) {
      PickAll(rows);
      ExhaustiveIsOptimal(rows, target, KeepAll(|rows|));
    } else if Total(rows) > 0 {
      LargestFirstOrder(rows);
      var order := LargestFirst(rows);
      GreedyTakesAll(rows, order, target);
      var bits := KeepBits(rows, target);
      forall i | 0 <= i < |rows| && rows[i].cents > 0 ensures bits[i] {
        assert Indexed(i, rows[i]) in order;
      }
      PickBounds(rows, bits);
      DroppedAllEmpty(rows, bits);
    }
  }

  lemma {:induction false} DroppedAllEmpty(rows: seq<PairRow>, bits: seq<bool>)
    requires |bits| == |rows|
    requires forall i :: 0 <= i < |rows| && rows[i].cents > 0 ==> bits[i]
    ensures PickSum(rows, bits) == Total(rows)
  {
    if rows == [] {
    } else {
      var n := |rows| - 1;
      DroppedAllEmpty(rows[..n], bits[..n]);
    }
  }

  lemma {:induction false} UnderTargetFits(sum: nat, target: nat)
    requires sum <= target
    ensures Fits(sum, target)
  {}

  lemma {:induction false} GreedyTakesAll(rows: seq<PairRow>, order: seq<Indexed>, target: nat)
    requires Of(order, rows) && Distinct(order) && Total(rows) <= target
    ensures forall x :: x in order && x.row.cents > 0 ==> GreedyBits(rows, order, target)[x.idx]
    ensures forall i :: 0 <= i < |rows| && GreedyBits(rows, order, target)[i] ==> Indexed(i, rows[i]) in order
  {
    hide PickSum, Total, Fits, KeepNone;
    if order != [] {
      var n := |order| - 1;
      var bits, x := GreedyBits(rows, order[..n], target), order[n];
      GreedyTakesAll(rows, order[..n], target);
      assert order == order[..n] + [x] && x !in order[..n];
      assert !bits[x.idx];
      PickUpdate(rows, bits, x.idx);
      PickBounds(rows, bits[x.idx := true]);
      UnderTargetFits(PickSum(rows, bits) + x.row.cents, target);
    }
  }

  /** The kept rows at least as large as `c`. */
  function AtLeast(rows: seq<PairRow>, bits: seq<bool>, c: nat): (r: seq<bool>)
    requires |bits| == |rows|
    ensures |r| == |rows| && forall i :: 0 <= i < |rows| ==> r[i] == (bits[i] && rows[i].cents >= c)
  {
    if rows == [] then []
    else
      var n := |rows| - 1;
      AtLeast(rows[..n], bits[..n], c) + [bits[n] && rows[n].cents >= c]
  }

  /** A positive row is left out only because it did not fit on top of kept rows at least as large. */
  ghost predicate Crowded(rows: seq<PairRow>, bits: seq<bool>, i: nat, target: nat)
    requires |bits| == |rows| && i < |rows|
  {
    !Fits(PickSum(rows, AtLeast(rows, bits, rows[i].cents)) + rows[i].cents, target)
  }

  lemma {:induction false} CrowdedGrows(rows: seq<PairRow>, a: seq<bool>, b: seq<bool>, i: nat, target: nat)
    requires |a| == |b| == |rows| && i < |rows| && Crowded(rows, a, i, target)
    requires forall j :: 0 <= j < |rows| && a[j] ==> b[j]
    ensures Crowded(rows, b, i, target)
  {
    var c := rows[i].cents;
    PickMonotone(rows, AtLeast(rows, a, c), AtLeast(rows, b, c));
  }

  /** What holds of the rows taken so far, after the rows in `order`. */
  ghost predicate GreedySoFar(rows: seq<PairRow>, order: seq<Indexed>, target: nat, bits: seq<bool>)
    requires Of(order, rows) && |bits| == |rows|
  {
    && Fits(PickSum(rows, bits), target)
    && (forall i :: 0 <= i < |rows| && bits[i] ==> rows[i].cents > 0 && Indexed(i, rows[i]) in order)
    && (forall x :: x in order && x.row.cents > 0 ==> bits[x.idx] || Crowded(rows, bits, x.idx, target))
  }

  lemma {:induction false} GreedyStep(rows: seq<PairRow>, order: seq<Indexed>, target: nat, bits: seq<bool>, x: Indexed)
    requires Of(order, rows) && |bits| == |rows| && GreedySoFar(rows, order, target, bits)
    requires x !in order && x.idx < |rows| && rows[x.idx] == x.row
    requires forall y :: y in order ==> y.row.cents >= x.row.cents
    ensures Of(order + [x], rows)
    ensures GreedySoFar(rows, order + [x], target,
              if x.row.cents > 0 && Fits(PickSum(rows, bits) + x.row.cents, target) then bits[x.idx := true] else bits)
  {
    hide PickSum, AtLeast, Fits;
    assert !bits[x.idx];
    PickUpdate(rows, bits, x.idx);
    assert AtLeast(rows, bits, x.row.cents) == bits;
    var more := bits[x.idx := true];
    forall y | y in order && y.row.cents > 0 && !more[y.idx] ensures Crowded(rows, more, y.idx, target) {
      CrowdedGrows(rows, bits, more, y.idx, target);
    }
  }

  lemma {:induction false} GreedyInvariant(rows: seq<PairRow>, order: seq<Indexed>, target: nat)
    requires Of(order, rows) && Distinct(order) && Sorted(order, Larger)
    ensures GreedySoFar(rows, order, target, GreedyBits(rows, order, target))
  {
    if order == [] {
      PickNone(rows);
    } else {
      var n := |order| - 1;
      GreedyInvariant(rows, order[..n], target);
      assert order == order[..n] + [order[n]];
      forall y | y in order[..n] ensures y.row.cents >= order[n].row.cents {
        var i :| 0 <= i < n && order[..n][i] == y;
        assert !Larger(order[n], order[i]);
      }
      hide GreedySoFar, PickSum, Fits;
      GreedyStep(rows, order[..n], target, GreedyBits(rows, order[..n], target), order[n]);
    }
  }

  lemma {:induction false} NothingTakenNothingFits(rows: seq<PairRow>, target: nat, i: nat)
    requires i < |rows| && rows[i].cents > 0 && true !in Greedy(rows, target)
    ensures !Fits(rows[i].cents, target)
  {
    LargestFirstOrder(rows);
    GreedyInvariant(rows, LargestFirst(rows), target);
    var bits := Greedy(rows, target);
    assert Indexed(i, rows[i]) in LargestFirst(rows);
    assert !bits[i];
    assert AtLeast(rows, bits, rows[i].cents) == KeepNone(|rows|);
    PickNone(rows);
  }

  /** The "keep the smallest" fallback never keeps a row that has any size. */
  lemma {:induction false} FallbackKeepsOnlyEmptyRows(rows: seq<PairRow>, target: nat)
    requires rows != []
    ensures PickSum(rows, GreedyChoice(rows, target)) == PickSum(rows, Greedy(rows, target))
    ensures forall i :: 0 <= i < |rows| && rows[i].cents > 0 ==>
      (GreedyChoice(rows, target)[i] <==> Greedy(rows, target)[i])
  {
    hide PickSum, LargestFirst, Greedy, Fits;
    LargestFirstOrder(rows);
    var s := Smallest(LargestFirst(rows));
    var bits := Greedy(rows, target);
    if true !in bits && Fits(s.row.cents, target) {
      assert !bits[s.idx];
      if s.row.cents > 0 {
        NothingTakenNothingFits(rows, target, s.idx);
      }
      PickUpdate(rows, bits, s.idx);
    }
  }

  /** Above 14 rows: the kept sum stays within the tolerance, and every positive row left out
      would have exceeded it on top of the kept rows at least as large as itself. */
  lemma {:induction false} GreedyIsLargestFirst(rows: seq<PairRow>, target: nat)
    requires |rows| > EXHAUSTIVE_LIMIT && target > 0 && Total(rows) > 0
    ensures Fits(KeepSum(rows, target), target)
    ensures forall i :: 0 <= i < |rows| && rows[i].cents > 0 ==>
      KeepBits(rows, target)[i] || Crowded(rows, KeepBits(rows, target), i, target)
    ensures forall i :: 0 <= i < |rows| && rows[i].cents > 0 && !KeepBits(rows, target)[i] ==>
      !Fits(KeepSum(rows, target) + rows[i].cents, target)
  {
    LargestFirstOrder(rows);
    var order := LargestFirst(rows);
    GreedyInvariant(rows, order, target);
    FallbackKeepsOnlyEmptyRows(rows, target);
    var greedy, bits := Greedy(rows, target), KeepBits(rows, target);
    forall i | 0 <= i < |rows| && rows[i].cents > 0 && !bits[i]
      ensures Crowded(rows, bits, i, target) && !Fits(KeepSum(rows, target) + rows[i].cents, target)
    {
      assert Indexed(i, rows[i]) in order;
      CrowdedGrows(rows, greedy, bits, i, target);
      PickMonotone(rows, AtLeast(rows, bits, rows[i].cents), bits);
    }
  }

  /** Overshoot is stable: once the losers are gone, searching the winners again keeps them all. */
  lemma {:induction false} OvershootIsStable(rows: seq<PairRow>, kept: seq<PairRow>, target: nat)
    requires |rows| <= EXHAUSTIVE_LIMIT && |kept| <= EXHAUSTIVE_LIMIT
    requires multiset(kept) <= multiset(rows)
    requires Total(kept) == KeepSum(rows, target)
    ensures KeepSum(kept, target) == Total(kept)
  {
    PickBounds(kept, KeepBits(kept, target));
    PickNone(rows);
    if Total(kept) > 0 {
      PickBounds(rows, KeepBits(rows, target));
      PickAll(kept);
      ExhaustiveIsOptimal(kept, target, KeepAll(|kept|));
      var again := KeepSum(kept, target);
      assert PickSum(kept, KeepBits(kept, target)) == again;
      assert Achievable(again, kept);
      AchievableGrows(again, kept, rows);
      var bits: seq<bool> :| |bits| == |rows| && PickSum(rows, bits) == again;
      ExhaustiveIsOptimal(rows, target, bits);
    }
  }

  // ----- The program -----

  /** The subset choice, as the program computes it. */
  method PickKeepSubset(rows: seq<PairRow>, target: nat)
    returns (keep: seq<PairRow>, close: seq<PairRow>, keepSum: nat)
    ensures keep == Kept(rows, KeepBits(rows, target))
    ensures close == Dropped(rows, KeepBits(rows, target))
    ensures keepSum == KeepSum(rows, target)
  {
    hide PickSum, Kept, Dropped, Total, ScanBest, GreedyChoice, Pow2, Bit, KeepNone;
    var n := |rows|;
    PickNone(rows);
    KeepNoneKeepsNothing(rows);
    if n == 0 || target == 0 {
      return [], rows, 0;
    }
    var total := SumSizes(rows);
    if total == 0 {
      return [], rows, 0;
    }
    var bits: seq<bool>;
    if n <= EXHAUSTIVE_LIMIT {
      var best := SearchMasks(rows, target, total);
      bits := Bits(best, n);
    } else {
      bits := GreedySelect(rows, target);
    }
    keep, close, keepSum := SplitRows(rows, bits);
  }

  /** Splitting the rows by the chosen bits, in list order. */
  method SplitRows(rows: seq<PairRow>, bits: seq<bool>) returns (keep: seq<PairRow>, close: seq<PairRow>, keepSum: nat)
    requires |bits| == |rows|
    ensures keep == Kept(rows, bits) && close == Dropped(rows, bits) && keepSum == PickSum(rows, bits)
  {
    keep, close, keepSum := [], [], 0;
    for i := 0 to |rows|
      invariant keep == Kept(rows[..i], bits[..i]) && close == Dropped(rows[..i], bits[..i])
      invariant keepSum == PickSum(rows[..i], bits[..i])
    {
      assert rows[..i + 1][..i] == rows[..i] && bits[..i + 1][..i] == bits[..i];
      if bits[i] {
        keep := keep + [rows[i]];
        keepSum := keepSum + rows[i].cents;
      } else {
        close := close + [rows[i]];
      }
    }
    assert rows[..|rows|] == rows && bits[..|rows|] == bits;
  }

  lemma {:induction false} KeepNoneKeepsNothing(rows: seq<PairRow>)
    ensures Kept(rows, KeepNone(|rows|)) == [] && Dropped(rows, KeepNone(|rows|)) == rows
  {
    if rows == [] {
    } else {
      var n := |rows| - 1;
      KeepNoneKeepsNothing(rows[..n]);
      assert KeepNone(|rows|)[..n] == KeepNone(n);
      assert rows == rows[..n] + [rows[n]];
    }
  }

  method SumSizes(rows: seq<PairRow>) returns (total: nat)
    ensures total == Total(rows)
  {
    total := 0;
    for i := 0 to |rows|
      invariant total == Total(rows[..i])
    {
      assert rows[..i + 1][..i] == rows[..i];
      total := total + rows[i].cents;
    }
    assert rows[..|rows|] == rows;
  }

  method SumMask(rows: seq<PairRow>, mask: nat) returns (keepSum: nat)
    ensures keepSum == MaskSum(rows, mask)
  {
    var bits := Bits(mask, |rows|);
    keepSum := 0;
    for i := 0 to |rows|
      invariant keepSum == PickSum(rows[..i], bits[..i])
    {
      assert rows[..i + 1][..i] == rows[..i] && bits[..i + 1][..i] == bits[..i];
      if Bit(mask, i) {
        keepSum := keepSum + rows[i].cents;
      }
    }
    assert rows[..|rows|] == rows && bits[..|rows|] == bits;
  }

  /** The scan over all masks, remembering the best so far. */
  method SearchMasks(rows: seq<PairRow>, target: nat, total: nat) returns (bestMask: nat)
    requires total == Total(rows)
    ensures Pow2(|rows|) >= 1
    ensures bestMask == ScanBest(rows, target, Pow2(|rows|))
  {
    hide MaskSum, Total, Cost25, Pow2;
    var n := |rows|;
    Pow2Positive(n);
    bestMask := 0;
    var bestCost, bestKeepSum := Cost25(0, total, target), 0;
    for mask := 0 to Pow2(n)
      invariant mask > 0 ==> bestMask == ScanBest(rows, target, mask)
      invariant mask > 0 ==> bestKeepSum == MaskSum(rows, bestMask)
      invariant mask > 0 ==> bestCost == Cost25(bestKeepSum, total, target)
    {
      var keepSum := SumMask(rows, mask);
      var cost := Cost25(keepSum, total, target);
      if mask == 0 || cost < bestCost || (cost == bestCost && keepSum > bestKeepSum) {
        bestCost, bestMask, bestKeepSum := cost, mask, keepSum;
      }
    }
  }

  /** The greedy pass before row `k` of the order has not decided that row yet. */
  lemma {:induction false} GreedyUndecided(rows: seq<PairRow>, order: seq<Indexed>, target: nat, k: nat)
    requires Of(order, rows) && Distinct(order) && Sorted(order, Larger) && k < |order|
    ensures order[..k + 1][..k] == order[..k] && Of(order[..k], rows)
    ensures !GreedyBits(rows, order[..k], target)[order[k].idx]
  {
    GreedyInvariant(rows, order[..k], target);
    assert order[k] !in order[..k];
  }

  /** The greedy pass over the rows sorted by size. */
  method GreedySelect(rows: seq<PairRow>, target: nat) returns (bits: seq<bool>)
    requires rows != []
    ensures bits == GreedyChoice(rows, target)
  {
    LargestFirstOrder(rows);
    var order := LargestFirst(rows);
    bits := GreedyPass(rows, order, target);
    if true !in bits {
      var s := Smallest(order);
      if Fits(s.row.cents, target) {
        bits := bits[s.idx := true];
      }
    }
  }

  method GreedyPass(rows: seq<PairRow>, order: seq<Indexed>, target: nat) returns (bits: seq<bool>)
    requires Of(order, rows) && Distinct(order) && Sorted(order, Larger)
    ensures bits == GreedyBits(rows, order, target)
  {
    hide PickSum, Fits, KeepNone;
    bits := KeepNone(|rows|);
    PickNone(rows);
    var keepSum := 0;
    for k := 0 to |order|
      invariant bits == GreedyBits(rows, order[..k], target)
      invariant keepSum == PickSum(rows, bits)
    {
      var x := order[k];
      GreedyUndecided(rows, order, target, k);
      PickUpdate(rows, bits, x.idx);
      if x.row.cents > 0 && Fits(keepSum + x.row.cents, target) {
        bits := bits[x.idx := true];
        keepSum := keepSum + x.row.cents;
      }
    }
    assert order[..|order|] == order;
  }
}

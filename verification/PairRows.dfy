/** Open pairs of the portfolio, and sums over chosen subsets of a list of them. */
module PairRows {
  import opened Sorting

  /** One row of the current state: `cents` is the pair notional, already clamped
      at zero and rounded to cents by the state builder. */
  datatype PairRow = PairRow(
    strategyId: int,
    rowId: string,
    cents: nat,
    e24: real,
    feePct: real,
    holdDays: real,
    legRisk: real)

  function Total(rows: seq<PairRow>): nat {
    if rows == [] then 0 else Total(rows[..|rows| - 1]) + rows[|rows| - 1].cents
  }

  /** The sum of the sizes of the rows whose bit is set. */
  function PickSum(rows: seq<PairRow>, bits: seq<bool>): nat
    requires |bits| == |rows|
  {
    if rows == [] then 0
    else
      var n := |rows| - 1;
      PickSum(rows[..n], bits[..n]) + if bits[n] then rows[n].cents else 0
  }

  function Kept(rows: seq<PairRow>, bits: seq<bool>): seq<PairRow>
    requires |bits| == |rows|
  {
    if rows == [] then []
    else
      var n := |rows| - 1;
      Kept(rows[..n], bits[..n]) + if bits[n] then [rows[n]] else []
  }

  function Dropped(rows: seq<PairRow>, bits: seq<bool>): seq<PairRow>
    requires |bits| == |rows|
  {
    if rows == [] then []
    else
      var n := |rows| - 1;
      Dropped(rows[..n], bits[..n]) + if bits[n] then [] else [rows[n]]
  }

  function KeepNone(n: nat): (bits: seq<bool>)
    ensures |bits| == n && forall i :: 0 <= i < n ==> !bits[i]
  {
    if n == 0 then [] else KeepNone(n - 1) + [false]
  }

  function KeepAll(n: nat): (bits: seq<bool>)
    ensures |bits| == n && forall i :: 0 <= i < n ==> bits[i]
  {
    if n == 0 then [] else KeepAll(n - 1) + [true]
  }

  lemma {:induction false} PickBounds(rows: seq<PairRow>, bits: seq<bool>)
    requires |bits| == |rows|
    ensures PickSum(rows, bits) <= Total(rows)
    ensures Total(Dropped(rows, bits)) == Total(rows) - PickSum(rows, bits)
    ensures Total(Kept(rows, bits)) == PickSum(rows, bits)
  {
    KeptTotal(rows, bits);
    DroppedTotal(rows, bits);
  }

  lemma {:induction false} KeptTotal(rows: seq<PairRow>, bits: seq<bool>)
    requires |bits| == |rows|
    ensures Total(Kept(rows, bits)) == PickSum(rows, bits)
  {
    if rows != [] {
      var n := |rows| - 1;
      KeptTotal(rows[..n], bits[..n]);
      if bits[n] {
        TotalSnoc(Kept(rows[..n], bits[..n]), rows[n]);
      } else {
        assert Kept(rows, bits) == Kept(rows[..n], bits[..n]);
      }
    }
  }

  lemma {:induction false} DroppedTotal(rows: seq<PairRow>, bits: seq<bool>)
    requires |bits| == |rows|
    ensures PickSum(rows, bits) + Total(Dropped(rows, bits)) == Total(rows)
  {
    if rows != [] {
      var n := |rows| - 1;
      DroppedTotal(rows[..n], bits[..n]);
      if bits[n] {
        assert Dropped(rows, bits) == Dropped(rows[..n], bits[..n]);
      } else {
        TotalSnoc(Dropped(rows[..n], bits[..n]), rows[n]);
      }
    }
  }

  lemma {:induction false} TotalSnoc(rows: seq<PairRow>, x: PairRow)
    ensures Total(rows + [x]) == Total(rows) + x.cents
  {
    assert (rows + [x])[..|rows|] == rows;
  }

  /** Keeping and closing split the rows: none is lost, none is in both lists. */
  lemma {:induction false} PickPartition(rows: seq<PairRow>, bits: seq<bool>)
    requires |bits| == |rows|
    ensures multiset(Kept(rows, bits)) + multiset(Dropped(rows, bits)) == multiset(rows)
  {
    if rows == [] {
    } else {
      var n := |rows| - 1;
      PickPartition(rows[..n], bits[..n]);
      assert rows == rows[..n] + [rows[n]];
    }
  }

  lemma {:induction false} PickAll(rows: seq<PairRow>)
    ensures PickSum(rows, KeepAll(|rows|)) == Total(rows)
  {
    if rows == [] {
    } else {
      var n := |rows| - 1;
      PickAll(rows[..n]);
      assert KeepAll(|rows|)[..n] == KeepAll(n);
    }
  }

  lemma {:induction false} PickNone(rows: seq<PairRow>)
    ensures PickSum(rows, KeepNone(|rows|)) == 0
  {
    if rows == [] {
    } else {
      var n := |rows| - 1;
      PickNone(rows[..n]);
      assert KeepNone(|rows|)[..n] == KeepNone(n);
    }
  }

  lemma {:induction false} PickMonotone(rows: seq<PairRow>, a: seq<bool>, b: seq<bool>)
    requires |a| == |b| == |rows|
    requires forall i :: 0 <= i < |rows| && a[i] ==> b[i]
    ensures PickSum(rows, a) <= PickSum(rows, b)
  {
    if rows == [] {
    } else {
      var n := |rows| - 1;
      PickMonotone(rows[..n], a[..n], b[..n]);
    }
  }

  /** Setting one clear bit adds exactly that row. */
  lemma {:induction false} PickUpdate(rows: seq<PairRow>, bits: seq<bool>, i: nat)
    requires |bits| == |rows| && i < |rows| && !bits[i]
    ensures PickSum(rows, bits[i := true]) == PickSum(rows, bits) + rows[i].cents
  {
    var n := |rows| - 1;
    if i == n {
      assert bits[i := true][..n] == bits[..n];
    } else {
      PickUpdate(rows[..n], bits[..n], i);
      assert bits[i := true][..n] == bits[..n][i := true];
    }
  }

  lemma {:induction false} TotalSplit(a: seq<PairRow>, b: seq<PairRow>)
    ensures Total(a + b) == Total(a) + Total(b)
  {
    if b == [] {
      assert a + b == a;
    } else {
      var n := |b| - 1;
      assert (a + b)[..|a + b| - 1] == a + b[..n];
      TotalSplit(a, b[..n]);
    }
  }

  lemma {:induction false} TotalZero(rows: seq<PairRow>)
    ensures Total(rows) == 0 <==> forall r :: r in rows ==> r.cents == 0
  {
    if rows == [] {
    } else {
      var n := |rows| - 1;
      TotalZero(rows[..n]);
      assert rows == rows[..n] + [rows[n]];
    }
  }

  // ----- Achievable sums -----

  /** Some subset of the rows adds up to `s`. */
  ghost predicate Achievable(s: nat, rows: seq<PairRow>) {
    exists bits: seq<bool> :: |bits| == |rows| && PickSum(rows, bits) == s
  }

  function Splice<T>(s: seq<T>, j: nat, x: T): seq<T>
    requires j <= |s|
  {
    s[..j] + [x] + s[j..]
  }

  lemma {:induction false} PickConcat(a: seq<PairRow>, ba: seq<bool>, b: seq<PairRow>, bb: seq<bool>)
    requires |a| == |ba| && |b| == |bb|
    ensures PickSum(a + b, ba + bb) == PickSum(a, ba) + PickSum(b, bb)
  {
    if b == [] {
      assert a + b == a && ba + bb == ba;
    } else {
      var n := |b| - 1;
      PickConcat(a, ba, b[..n], bb[..n]);
      assert (a + b)[..|a| + n] == a + b[..n] && (ba + bb)[..|a| + n] == ba + bb[..n];
    }
  }

  lemma {:induction false} PickInsert(rows: seq<PairRow>, bits: seq<bool>, j: nat, x: PairRow, keep: bool)
    requires |bits| == |rows| && j <= |rows|
    ensures |Splice(rows, j, x)| == |Splice(bits, j, keep)|
    ensures PickSum(Splice(rows, j, x), Splice(bits, j, keep))
         == PickSum(rows, bits) + if keep then x.cents else 0
  {
    PickConcat(rows[..j], bits[..j], rows[j..], bits[j..]);
    assert rows == rows[..j] + rows[j..] && bits == bits[..j] + bits[j..];
    PickConcat(rows[..j] + [x], bits[..j] + [keep], rows[j..], bits[j..]);
    PickConcat(rows[..j], bits[..j], [x], [keep]);
    PickOne(x, keep);
  }

  lemma {:induction false} PickOne(x: PairRow, keep: bool)
    ensures PickSum([x], [keep]) == if keep then x.cents else 0
  {
    assert [x][..0] == [] && [keep][..0] == [];
  }

  lemma {:induction false} InsertWithout<T>(s: seq<T>, j: nat)
    requires j < |s|
    ensures Splice(Without(s, j), j, s[j]) == s
  {
    assert Without(s, j)[..j] == s[..j];
    assert Without(s, j)[j..] == s[j + 1..];
  }

  /** Achievable sums depend only on which rows there are, and grow with them. */
  lemma {:induction false} AchievableGrows(s: nat, a: seq<PairRow>, b: seq<PairRow>)
    requires multiset(a) <= multiset(b) && Achievable(s, a)
    ensures Achievable(s, b)
    decreases |a|
  {
    var bits: seq<bool> :| |bits| == |a| && PickSum(a, bits) == s;
    if a == [] {
      PickNone(b);
      assert PickSum(b, KeepNone(|b|)) == s;
    } else {
      var n := |a| - 1;
      var j := FindIn(a, n, b);
      var rest := Without(b, j);
      assert Without(a, n) == a[..n];
      var s' := PickSum(a[..n], bits[..n]);
      AchievableGrows(s', a[..n], rest);
      var bits': seq<bool> :| |bits'| == |rest| && PickSum(rest, bits') == s';
      PickInsert(rest, bits', j, a[n], bits[n]);
      InsertWithout(b, j);
      assert PickSum(b, Splice(bits', j, bits[n])) == s;
    }
  }

  lemma {:induction false} TotalInsert(rows: seq<PairRow>, j: nat, x: PairRow)
    requires j <= |rows|
    ensures Total(Splice(rows, j, x)) == Total(rows) + x.cents
  {
    TotalSplit(rows[..j] + [x], rows[j..]);
    TotalSnoc(rows[..j], x);
    TotalSplit(rows[..j], rows[j..]);
    assert rows[..j] + rows[j..] == rows;
  }

  lemma {:induction false} TotalPermutation(a: seq<PairRow>, b: seq<PairRow>)
    requires multiset(a) == multiset(b)
    ensures Total(a) == Total(b) && |a| == |b|
    decreases |a|
  {
    SameLength(a, b);
    if a == [] {
    } else {
      var n := |a| - 1;
      var j := FindIn(a, n, b);
      WithoutMultiset(a, n);
      WithoutMultiset(b, j);
      assert Without(a, n) == a[..n];
      TotalPermutation(a[..n], Without(b, j));
      TotalInsert(Without(b, j), j, b[j]);
      InsertWithout(b, j);
    }
  }

  // ----- Selecting rows -----

  function FilterRows(rows: seq<PairRow>, p: PairRow -> bool): seq<PairRow> {
    if rows == [] then []
    else
      var n := |rows| - 1;
      FilterRows(rows[..n], p) + if p(rows[n]) then [rows[n]] else []
  }

  lemma {:induction false} FilterMultiset(rows: seq<PairRow>, p: PairRow -> bool, x: PairRow)
    ensures multiset(FilterRows(rows, p))[x] == if p(x) then multiset(rows)[x] else 0
    ensures |FilterRows(rows, p)| <= |rows|
  {
    if rows == [] {
    } else {
      var n := |rows| - 1;
      FilterMultiset(rows[..n], p, x);
      assert rows == rows[..n] + [rows[n]];
    }
  }

  lemma {:induction false} InFilter(rows: seq<PairRow>, p: PairRow -> bool, x: PairRow)
    ensures x in FilterRows(rows, p) <==> x in rows && p(x)
  {
    FilterMultiset(rows, p, x);
    assert x in FilterRows(rows, p) <==> x in multiset(FilterRows(rows, p));
    assert x in rows <==> x in multiset(rows);
  }

  lemma {:induction false} InDropped(rows: seq<PairRow>, bits: seq<bool>, x: PairRow)
    requires |bits| == |rows|
    ensures x in Dropped(rows, bits) <==> exists i :: 0 <= i < |rows| && !bits[i] && rows[i] == x
  {
    if rows == [] {
    } else {
      var n := |rows| - 1;
      InDropped(rows[..n], bits[..n], x);
      if x in Dropped(rows[..n], bits[..n]) {
        var i :| 0 <= i < n && !bits[..n][i] && rows[..n][i] == x;
        assert !bits[i] && rows[i] == x;
      }
      if i :| 0 <= i < |rows| && !bits[i] && rows[i] == x {
        if i < n {
          assert !bits[..n][i] && rows[..n][i] == x;
        }
      }
    }
  }

  /** Removing the dropped rows, except possibly empty ones, leaves exactly the kept sum. */
  lemma {:induction false} SurvivorTotal(rows: seq<PairRow>, bits: seq<bool>, p: PairRow -> bool)
    requires |bits| == |rows|
    requires forall i :: 0 <= i < |rows| ==> if bits[i] then p(rows[i]) else !p(rows[i]) || rows[i].cents == 0
    ensures Total(FilterRows(rows, p)) == PickSum(rows, bits)
  {
    if rows == [] {
    } else {
      var n := |rows| - 1;
      SurvivorTotal(rows[..n], bits[..n], p);
      TotalSnoc(FilterRows(rows[..n], p), rows[n]);
      assert FilterRows(rows[..n], p) + [] == FilterRows(rows[..n], p);
    }
  }
}

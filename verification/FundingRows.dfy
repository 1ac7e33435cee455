/** Fetched funding rows: redeliveries within one fetch are merged before they reach the ledger. */
module FundingRows {
  import opened Arith
  import opened Sorting

  datatype Source = Unknown | Primary(name: string) | Fallback(name: string)

  /** A fetched payment; `units` are whole units of 1e-12. */
  datatype Raw = Raw(symbol: string, timeMs: Option<nat>, units: int, source: Source, ref: Option<string>, payload: int)

  /** What makes two fetched rows the same payment. */
  datatype RowKey = RowKey(symbol: string, timeMs: nat, units: int)

  predicate Usable(r: Raw) { r.symbol != "" && r.timeMs.Some? }

  function KeyOf(r: Raw): RowKey
    requires Usable(r)
  {
    RowKey(r.symbol, r.timeMs.value, r.units)
  }

  /** The later row replaces the one kept so far. */
  predicate Replaces(prev: Raw, cur: Raw) {
    (prev.ref.None? && cur.ref.Some?) || (prev.source.Fallback? && !cur.source.Fallback?)
  }

  predicate AllUsable(rows: seq<Raw>) { forall i :: 0 <= i < |rows| ==> Usable(rows[i]) }

  function IndexOf(rows: seq<Raw>, k: RowKey): (i: int)
    requires AllUsable(rows)
    ensures -1 <= i < |rows| && (i >= 0 ==> KeyOf(rows[i]) == k)
    ensures i == -1 <==> forall j :: 0 <= j < |rows| ==> KeyOf(rows[j]) != k
  {
    if rows == [] then -1
    else if KeyOf(rows[|rows| - 1]) == k then |rows| - 1
    else IndexOf(rows[..|rows| - 1], k)
  }

  function AddRow(kept: seq<Raw>, r: Raw): (out: seq<Raw>)
    requires AllUsable(kept)
    ensures AllUsable(out)
  {
    if !Usable(r) then kept
    else
      var i := IndexOf(kept, KeyOf(r));
      if i < 0 then kept + [r]
      else if Replaces(kept[i], r) then kept[i := r]
      else kept
  }

  function Merge(rows: seq<Raw>): (out: seq<Raw>)
    ensures AllUsable(out)
  {
    if rows == [] then [] else AddRow(Merge(rows[..|rows| - 1]), rows[|rows| - 1])
  }

  function Time(r: Raw): int { if r.timeMs.Some? then r.timeMs.value else -1 }

  predicate Earlier(x: Raw, y: Raw) { Time(x) < Time(y) }

  function Dedupe(rows: seq<Raw>): (out: seq<Raw>)
    ensures AllUsable(out)
  {
    SortUsable(Merge(rows));
    Sort(Merge(rows), Earlier)
  }

  lemma {:induction false} SortUsable(rows: seq<Raw>)
    requires AllUsable(rows)
    ensures AllUsable(Sort(rows, Earlier))
  {
    SortMultiset(rows, Earlier);
    var out := Sort(rows, Earlier);
    forall i | 0 <= i < |out| ensures Usable(out[i]) {
      assert out[i] in multiset(rows);
    }
  }

  method DedupeFundingRows(rows: seq<Raw>) returns (out: seq<Raw>)
    ensures out == Dedupe(rows)
  {
    hide Sort;
    var dedup: seq<Raw> := [];
    for i := 0 to |rows|
      invariant AllUsable(dedup) && dedup == Merge(rows[..i])
    {
      assert rows[..i + 1][..i] == rows[..i];
      var row := rows[i];
      ghost var before := dedup;
      if row.symbol != "" && row.timeMs.Some? {
        var k := IndexOf(dedup, KeyOf(row));
        if k < 0 {
          dedup := dedup + [row];
        } else if dedup[k].ref.None? && row.ref.Some? {
          dedup := dedup[k := row];
        } else if dedup[k].source.Fallback? && !row.source.Fallback? {
          dedup := dedup[k := row];
        }
      }
      assert dedup == AddRow(before, row);
    }
    assert rows[..|rows|] == rows;
    out := Sort(dedup, Earlier);
  }

  // ----- What is kept -----

  ghost predicate DistinctRows(rows: seq<Raw>)
    requires AllUsable(rows)
  {
    forall i, j :: 0 <= i < j < |rows| ==> KeyOf(rows[i]) != KeyOf(rows[j])
  }

  predicate Has(rows: seq<Raw>, k: RowKey) { exists i :: 0 <= i < |rows| && Usable(rows[i]) && KeyOf(rows[i]) == k }

  /** The row kept under a key: the first one, unless later rows replace it. */
  function Winner(rows: seq<Raw>, k: RowKey): (w: Option<Raw>)
    ensures w.Some? ==> Usable(w.value) && KeyOf(w.value) == k && w.value in rows
    ensures w.None? <==> !Has(rows, k)
  {
    if rows == [] then None
    else
      var n := |rows| - 1;
      var w, r := Winner(rows[..n], k), rows[n];
      assert rows == rows[..n] + [r];
      assert Has(rows, k) <==> Has(rows[..n], k) || (Usable(r) && KeyOf(r) == k) by {
        HasSnoc(rows[..n], r, k);
      }
      if !Usable(r) || KeyOf(r) != k then w
      else if w.None? || Replaces(w.value, r) then Some(r)
      else w
  }

  lemma {:induction false} HasSnoc(rows: seq<Raw>, r: Raw, k: RowKey)
    ensures Has(rows + [r], k) <==> Has(rows, k) || (Usable(r) && KeyOf(r) == k)
  {
    if Has(rows, k) {
      var i :| 0 <= i < |rows| && Usable(rows[i]) && KeyOf(rows[i]) == k;
      assert (rows + [r])[i] == rows[i];
    }
    assert (rows + [r])[|rows|] == r;
  }

  ghost predicate Winners(out: seq<Raw>, rows: seq<Raw>) {
    && AllUsable(out) && DistinctRows(out)
    && (forall i :: 0 <= i < |out| ==> Winner(rows, KeyOf(out[i])) == Some(out[i]))
    && (forall k :: Has(rows, k) ==> Has(out, k))
  }

  lemma {:induction false} MergeKeepsWinners(rows: seq<Raw>)
    ensures Winners(Merge(rows), rows)
  {
    if rows != [] {
      var n := |rows| - 1;
      MergeKeepsWinners(rows[..n]);
      assert rows == rows[..n] + [rows[n]];
      AddKeepsWinners(Merge(rows[..n]), rows[..n], rows[n]);
    }
  }

  lemma {:induction false} AddKeepsWinners(kept: seq<Raw>, rows: seq<Raw>, r: Raw)
    requires Winners(kept, rows)
    ensures Winners(AddRow(kept, r), rows + [r])
  {
    var out, all := AddRow(kept, r), rows + [r];
    assert all[..|rows|] == rows;
    forall k | Has(all, k) ensures Has(out, k) {
      HasSnoc(rows, r, k);
      AddKeepsHas(kept, r, k);
    }
    if Usable(r) && IndexOf(kept, KeyOf(r)) < 0 {
      NotKept(kept, rows, KeyOf(r));
    }
    hide Has;
    forall j | 0 <= j < |out| ensures Winner(all, KeyOf(out[j])) == Some(out[j]) {
      if j < |kept| {
        assert Winner(rows, KeyOf(kept[j])) == Some(kept[j]);
      }
    }
  }

  lemma {:induction false} AddKeepsHas(kept: seq<Raw>, r: Raw, k: RowKey)
    requires AllUsable(kept)
    ensures Has(kept, k) || (Usable(r) && KeyOf(r) == k) ==> Has(AddRow(kept, r), k)
  {
    var out := AddRow(kept, r);
    if Usable(r) && KeyOf(r) == k {
      var i := IndexOf(kept, k);
      assert KeyOf(out[if i < 0 then |kept| else i]) == k;
    } else if Has(kept, k) {
      var j :| 0 <= j < |kept| && Usable(kept[j]) && KeyOf(kept[j]) == k;
      assert KeyOf(out[j]) == k;
    }
  }

  lemma {:induction false} NotKept(kept: seq<Raw>, rows: seq<Raw>, k: RowKey)
    requires Winners(kept, rows) && IndexOf(kept, k) < 0
    ensures Winner(rows, k).None?
  {
    assert !Has(kept, k);
  }

  /** Merging keeps exactly one row for every payment that was fetched, in order of time. */
  lemma {:induction false} DedupeKeepsOnePerPayment(rows: seq<Raw>)
    ensures var out := Dedupe(rows);
      && Winners(out, rows)
      && forall i, j :: 0 <= i < j < |out| ==> out[i].timeMs.value <= out[j].timeMs.value
  {
    var merged := Merge(rows);
    MergeKeepsWinners(rows);
    SortMultiset(merged, Earlier);
    SortSorted(merged, Earlier);
    var out := Dedupe(rows);
    hide Merge, Dedupe, Winner;
    WinnersPermute(merged, out, rows);
    forall i, j | 0 <= i < j < |out| ensures out[i].timeMs.value <= out[j].timeMs.value {
      assert !Earlier(out[j], out[i]);
    }
  }

  lemma {:induction false} WinnersPermute(a: seq<Raw>, b: seq<Raw>, rows: seq<Raw>)
    requires Winners(a, rows) && multiset(a) == multiset(b)
    ensures Winners(b, rows)
  {
    hide Winner;
    assert forall r :: r in a <==> r in multiset(a);
    assert forall r :: r in b <==> r in multiset(b);
    forall i | 0 <= i < |b| ensures Usable(b[i]) && Winner(rows, KeyOf(b[i])) == Some(b[i]) {
      assert b[i] in a;
    }
    forall i, j | 0 <= i < j < |b| ensures KeyOf(b[i]) != KeyOf(b[j]) {
      assert b[i] in a && b[j] in a;
      if KeyOf(b[i]) == KeyOf(b[j]) {
        assert b[i] == b[j];
        CountTwice(b, i, j);
        DistinctCounts(a, b[i]);
      }
    }
    forall k | Has(rows, k) ensures Has(b, k) {
      var i :| 0 <= i < |a| && Usable(a[i]) && KeyOf(a[i]) == k;
      assert a[i] in b;
    }
  }

  /** A row with a reference that is not a fallback is never displaced. */
  predicate Settled(r: Raw) { r.ref.Some? && !r.source.Fallback? }

  /** If any row of a payment has a reference and is not a fallback, the first such row is kept. */
  lemma {:induction false} FirstSettledRowIsKept(rows: seq<Raw>, i: nat)
    requires i < |rows| && Usable(rows[i]) && Settled(rows[i])
    requires forall j :: 0 <= j < i && Usable(rows[j]) && KeyOf(rows[j]) == KeyOf(rows[i]) ==> !Settled(rows[j])
    ensures Winner(rows, KeyOf(rows[i])) == Some(rows[i])
  {
    var n := |rows| - 1;
    if i < n {
      FirstSettledRowIsKept(rows[..n], i);
    } else {
      var w := Winner(rows[..n], KeyOf(rows[i]));
      if w.Some? {
        var j :| 0 <= j < n && rows[..n][j] == w.value;
        assert rows[j] == w.value;
      }
    }
  }

  predicate SettledIn(rows: seq<Raw>, k: RowKey) {
    exists i :: 0 <= i < |rows| && Concerns(rows[i], k) && Settled(rows[i])
  }

  /** A usable row of that payment. */
  predicate Concerns(r: Raw, k: RowKey) { Usable(r) && KeyOf(r) == k }

  /** A row with a reference, or at least no fallback, outlasts everything less before it. */
  predicate Telling(r: Raw) { r.ref.Some? || !r.source.Fallback? }

  /** Where the last telling row of a payment stands, or -1. */
  function LastTelling(rows: seq<Raw>, k: RowKey): (i: int)
    ensures -1 <= i < |rows| && (i >= 0 ==> Concerns(rows[i], k) && Telling(rows[i]))
    ensures forall j :: i < j < |rows| && Concerns(rows[j], k) ==> !Telling(rows[j])
  {
    if rows == [] then -1
    else if Concerns(rows[|rows| - 1], k) && Telling(rows[|rows| - 1]) then |rows| - 1
    else LastTelling(rows[..|rows| - 1], k)
  }

  lemma {:induction false} SettledSnoc(rows: seq<Raw>, r: Raw, k: RowKey)
    ensures SettledIn(rows + [r], k) <==> SettledIn(rows, k) || (Concerns(r, k) && Settled(r))
  {
    assert (rows + [r])[|rows|] == r;
    assert forall i :: 0 <= i < |rows| ==> (rows + [r])[i] == rows[i];
  }

  /** Which kind of row survives: a settled one if there is any, else one like the last telling one. */
  lemma {:induction false} KindOfWinner(rows: seq<Raw>, k: RowKey)
    ensures var (w, i) := (Winner(rows, k), LastTelling(rows, k));
      && (SettledIn(rows, k) ==> w.Some? && Settled(w.value) && i >= 0)
      && (!SettledIn(rows, k) && i >= 0 ==>
            w.Some? && Telling(w.value) && !Settled(w.value) && (w.value.ref.Some? <==> rows[i].ref.Some?))
      && (i < 0 && w.Some? ==> !Telling(w.value))
  {
    if rows != [] {
      var n := |rows| - 1;
      KindOfWinner(rows[..n], k);
      assert rows == rows[..n] + [rows[n]];
      SettledSnoc(rows[..n], rows[n], k);
      hide SettledIn;
    }
  }

  /** A reference survives merging exactly when some row of the payment is settled, or the last telling
      row of the payment carries one. */
  lemma {:induction false} ReferenceSurvivesExactly(rows: seq<Raw>, k: RowKey)
    ensures var (w, i) := (Winner(rows, k), LastTelling(rows, k));
      w.Some? && w.value.ref.Some? <==> SettledIn(rows, k) || (i >= 0 && rows[i].ref.Some?)
  {
    KindOfWinner(rows, k);
    hide Winner, SettledIn;
  }

  /** Without such a row the reference can be lost: a referenced fallback row gives way to a plain one. */
  lemma {:induction false} ReferenceCanBeLost(symbol: string, t: nat, units: int)
    requires symbol != ""
    ensures var (a, b) := (Raw(symbol, Some(t), units, Fallback("ledger_fallback"), Some("id-1"), 0),
                           Raw(symbol, Some(t), units, Primary("history"), None, 0));
      Dedupe([a, b]) == [b]
  {
    var a := Raw(symbol, Some(t), units, Fallback("ledger_fallback"), Some("id-1"), 0);
    var b := Raw(symbol, Some(t), units, Primary("history"), None, 0);
    assert [a][..0] == [] && [a, b][..1] == [a];
    assert Merge([a]) == [a];
    assert IndexOf([a], KeyOf(b)) == 0;
    assert Merge([a, b]) == [b];
    assert Sort([b][1..], Earlier) == [];
  }
}

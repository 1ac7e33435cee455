/** The simulator's basis profit, traced to the positions that made it. */
module BasisAccounting {
  import opened Arith
  import opened Backtest
  import opened BacktestLedger
  import DeltaPlan

  /** A position ever opened: its size, its basis at entry and its basis when last marked. */
  datatype Entry = Entry(cents: nat, entry: real, last: real)

  /** Entry `i` is the position with id `i + 1`. */
  type History = seq<Entry>

  function Gain(e: Entry): real { Usd(e.cents) * ((e.entry - e.last) / 100.0) }

  function TotalGain(h: History): real {
    if h == [] then 0.0 else TotalGain(h[..|h| - 1]) + Gain(h[|h| - 1])
  }

  function NoteMarks(h: History, ps: seq<Position>): (r: History)
    ensures |r| == |h|
  {
    if ps == [] then h
    else
      var before := NoteMarks(h, ps[..|ps| - 1]);
      var p := ps[|ps| - 1];
      if 1 <= p.id <= |h| then before[p.id - 1 := before[p.id - 1].(last := p.lastBasis)] else before
  }

  function NoteOpens(h: History, ps: seq<Position>): History {
    if ps == [] then h
    else
      var before := NoteOpens(h, ps[..|ps| - 1]);
      var p := ps[|ps| - 1];
      if p.id == |before| + 1 then before + [Entry(p.cents, p.lastBasis, p.lastBasis)] else before
  }

  /** The history of a run: every marking and every opening, in order. */
  function HistoryOf(w: World, p: Params, mod: Model, buckets: seq<int>): History {
    if buckets == [] then []
    else
      var n := |buckets| - 1;
      var s, ts := Run(w, p, mod, buckets[..n]), buckets[n];
      var marked := AfterMark(w, p, s, ts);
      NoteOpens(NoteMarks(HistoryOf(w, p, mod, buckets[..n]), Mark(w, s, ts).positions),
                Rebalanced(p, marked, Decide(w, p, mod, marked, ts), ts).positions)
  }

  ghost predicate Linked(h: History, ps: seq<Position>) {
    forall i :: 0 <= i < |ps| ==>
      1 <= ps[i].id <= |h| && h[ps[i].id - 1].cents == ps[i].cents && h[ps[i].id - 1].last == ps[i].lastBasis
  }

  /** The history holds one entry per position ever opened, agrees with the open ones, and its
      gains add up to the reported basis profit. */
  ghost predicate Explains(h: History, s: State) {
    |h| == s.nextId - 1 && Linked(h, s.positions) && s.cumBasis == TotalGain(h)
  }

  // ----- Sums over the history -----

  lemma {:induction false} GainUpdate(h: History, i: nat, e: Entry)
    requires i < |h|
    ensures TotalGain(h[i := e]) == TotalGain(h) - Gain(h[i]) + Gain(e)
  {
    var n := |h| - 1;
    if i == n {
      assert h[i := e][..n] == h[..n];
    } else {
      GainUpdate(h[..n], i, e);
      assert h[i := e][..n] == h[..n][i := e];
    }
  }

  lemma {:induction false} GainSnoc(h: History, e: Entry)
    ensures TotalGain(h + [e]) == TotalGain(h) + Gain(e)
  {
    assert (h + [e])[..|h|] == h;
  }

  /** Marking from one basis to the next adds up. */
  lemma {:induction false} MarkAddsGain(e: Entry, now: real)
    ensures Gain(e.(last := now)) == Gain(e) + BasisPnl(e.cents, e.last, now)
  {
    var n := Usd(e.cents);
    var a, b, c := (e.entry - now) / 100.0, (e.entry - e.last) / 100.0, (now - e.last) / 100.0;
    assert a == b + -c;
    assert n * a == n * b + n * -c;
  }

  // ----- Marking -----

  lemma {:induction false} MarkOneGain(w: World, p: Position, ts: int)
    ensures var m := MarkOne(w, p, ts);
      m.pos.id == p.id && m.pos.cents == p.cents && m.basis == BasisPnl(p.cents, p.lastBasis, m.pos.lastBasis)
  {
    var m := MarkOne(w, p, ts);
    if m.pos.lastBasis == p.lastBasis {
      assert (p.lastBasis - p.lastBasis) / 100.0 == 0.0;
    }
  }

  lemma {:induction false} UntouchedEntries(h: History, ps: seq<Position>, id: int)
    requires 1 <= id <= |h| && forall i :: 0 <= i < |ps| ==> ps[i].id != id
    ensures NoteMarks(h, ps)[id - 1] == h[id - 1]
  {
    if ps != [] {
      UntouchedEntries(h, ps[..|ps| - 1], id);
    }
  }

  lemma {:induction false} MarkExtends(w: World, h: History, ps: seq<Position>, ts: int)
    requires IdsInOrder(ps, |h| + 1) && Linked(h, ps)
    ensures var marked := MarkedPositions(w, ps, ts);
      && Linked(NoteMarks(h, marked), marked)
      && TotalGain(NoteMarks(h, marked)) == TotalGain(h) + BasisGain(w, ps, ts)
  {
    if ps != [] {
      var n := |ps| - 1;
      MarkExtends(w, h, ps[..n], ts);
      MarkOneMore(w, h, ps, ts);
      hide NoteMarks, TotalGain, Linked, MarkOne;
    }
  }

  /** What the marking of the last position adds to that of the others. */
  lemma {:induction false} MarkOneMore(w: World, h: History, ps: seq<Position>, ts: int)
    requires ps != [] && IdsInOrder(ps, |h| + 1) && Linked(h, ps)
    requires var done := MarkedPositions(w, ps[..|ps| - 1], ts);
      Linked(NoteMarks(h, done), done)
    ensures var (done, marked) := (MarkedPositions(w, ps[..|ps| - 1], ts), MarkedPositions(w, ps, ts));
      && Linked(NoteMarks(h, marked), marked)
      && TotalGain(NoteMarks(h, marked)) == TotalGain(NoteMarks(h, done)) + MarkOne(w, ps[|ps| - 1], ts).basis
  {
    hide MarkOne, NoteMarks, TotalGain, Gain, BasisPnl;
    var n := |ps| - 1;
    var done, m := MarkedPositions(w, ps[..n], ts), MarkOne(w, ps[n], ts);
    MarkedApart(w, ps, |h| + 1, ts);
    MarkOneGain(w, ps[n], ts);
    assert h[ps[n].id - 1].cents == ps[n].cents && h[ps[n].id - 1].last == ps[n].lastBasis;
    assert MarkedPositions(w, ps, ts) == done + [m.pos];
    hide Linked, IdsInOrder, MarkedPositions;
    UntouchedEntries(h, done, ps[n].id);
    MarkLast(h, done, m.pos);
    MarkAddsGain(h[ps[n].id - 1], m.pos.lastBasis);
  }

  lemma {:induction false} MarkedApart(w: World, ps: seq<Position>, next: int, ts: int)
    requires ps != [] && IdsInOrder(ps, next)
    ensures var done := MarkedPositions(w, ps[..|ps| - 1], ts);
      forall i :: 0 <= i < |done| ==> done[i].id != ps[|ps| - 1].id
  {
    MarkedIds(w, ps[..|ps| - 1], ts);
    forall i | 0 <= i < |ps| - 1 ensures MarkOne(w, ps[i], ts).pos.id == ps[i].id {
      MarkOneGain(w, ps[i], ts);
    }
  }

  lemma {:induction false} MarkLast(h: History, done: seq<Position>, q: Position)
    requires 1 <= q.id <= |h| && Linked(NoteMarks(h, done), done) && forall i :: 0 <= i < |done| ==> done[i].id != q.id
    requires h[q.id - 1].cents == q.cents && NoteMarks(h, done)[q.id - 1] == h[q.id - 1]
    ensures Linked(NoteMarks(h, done + [q]), done + [q])
    ensures TotalGain(NoteMarks(h, done + [q]))
         == TotalGain(NoteMarks(h, done)) - Gain(h[q.id - 1]) + Gain(h[q.id - 1].(last := q.lastBasis))
  {
    var before, entry := NoteMarks(h, done), h[q.id - 1].(last := q.lastBasis);
    assert (done + [q])[..|done|] == done;
    assert NoteMarks(h, done + [q]) == before[q.id - 1 := entry];
    hide NoteMarks, TotalGain, Gain, Linked;
    GainUpdate(before, q.id - 1, entry);
    LinkedUpdate(before, done, q, entry);
  }

  lemma {:induction false} LinkedUpdate(h: History, done: seq<Position>, q: Position, entry: Entry)
    requires 1 <= q.id <= |h| && Linked(h, done) && forall i :: 0 <= i < |done| ==> done[i].id != q.id
    requires entry.cents == q.cents && entry.last == q.lastBasis
    ensures Linked(h[q.id - 1 := entry], done + [q])
  {}

  // ----- Closing and opening -----

  lemma {:induction false} LinkedSubset(h: History, ps: seq<Position>, qs: seq<Position>)
    requires Linked(h, ps) && forall i :: 0 <= i < |qs| ==> qs[i] in ps
    ensures Linked(h, qs)
  {}

  lemma {:induction false} CloseOneFrame(s: State, id: int, action: Action, ts: int)
    ensures var r := CloseOne(s, id, action, ts);
      && r.cumBasis == s.cumBasis && r.nextId == s.nextId
      && forall i :: 0 <= i < |r.positions| ==> r.positions[i] in s.positions
  {
    if Find(s.positions, id).Some? {
      var i := RemoveAt(s.positions, id);
    }
  }

  lemma {:induction false} CloseExplains(h: History, s: State, ids: seq<int>, action: Action, ts: int)
    requires Explains(h, s)
    ensures Explains(h, CloseMany(s, ids, action, ts))
  {
    if ids != [] {
      var before := CloseMany(s, ids[..|ids| - 1], action, ts);
      CloseExplains(h, s, ids[..|ids| - 1], action, ts);
      CloseOneFrame(before, ids[|ids| - 1], action, ts);
      hide CloseOne;
      LinkedSubset(h, before.positions, CloseOne(before, ids[|ids| - 1], action, ts).positions);
    }
  }

  lemma {:induction false} NothingNew(h: History, ps: seq<Position>)
    requires forall i :: 0 <= i < |ps| ==> ps[i].id <= |h|
    ensures NoteOpens(h, ps) == h
  {
    if ps != [] {
      NothingNew(h, ps[..|ps| - 1]);
    }
  }

  lemma {:induction false} NewPositionGain(cents: nat, basis: real)
    ensures Gain(Entry(cents, basis, basis)) == 0.0
  {
    assert (basis - basis) / 100.0 == 0.0;
  }

  lemma {:induction false} OpenOneExplains(g: History, s: State, rows: seq<Scored>, o: DeltaPlan.OpenItem, ts: int)
    requires Explains(g, s)
    ensures var r := OpenOne(s, rows, o, ts);
      if r.positions == s.positions then Explains(g, r)
      else
        && r.positions != [] && r.positions[..|r.positions| - 1] == s.positions
        && var q := r.positions[|r.positions| - 1];
          q.id == |g| + 1 && Explains(g + [Entry(q.cents, q.lastBasis, q.lastBasis)], r)
  {
    hide FindRow, Log;
    if FindRow(rows, o.rowId).Some? && o.cents > 0 {
      var q := NewPosition(s.nextId, o, FindRow(rows, o.rowId).value);
      var e := Entry(q.cents, q.lastBasis, q.lastBasis);
      GainSnoc(g, e);
      NewPositionGain(q.cents, q.lastBasis);
      assert (s.positions + [q])[..|s.positions|] == s.positions;
    }
  }

  lemma {:induction false} OpenExplains(h: History, s: State, rows: seq<Scored>, os: seq<DeltaPlan.OpenItem>, ts: int)
    requires Explains(h, s)
    ensures var r := OpenMany(s, rows, os, ts);
      Explains(NoteOpens(h, r.positions), r)
  {
    if os == [] {
      NothingNew(h, s.positions);
    } else {
      var n := |os| - 1;
      OpenExplains(h, s, rows, os[..n], ts);
      var before := OpenMany(s, rows, os[..n], ts);
      OpenOneExplains(NoteOpens(h, before.positions), before, rows, os[n], ts);
      hide OpenOne;
    }
  }

  // ----- Buckets and runs -----

  lemma {:induction false} MarkingExplains(w: World, p: Params, h: History, s: State, ts: int)
    requires Books(p, s) && Explains(h, s)
    ensures Explains(NoteMarks(h, Mark(w, s, ts).positions), AfterMark(w, p, s, ts))
  {
    MarkExtends(w, h, s.positions, ts);
    var marked := Mark(w, s, ts);
    assert Explains(NoteMarks(h, marked.positions), marked);
    hide Mark, Explains;
    CloseExplains(NoteMarks(h, marked.positions), marked, StaleIds(marked.positions, p.staleMax), ForceCloseStale, ts);
  }

  lemma {:induction false} RebalanceExplains(p: Params, h: History, s: State, d: Decision, ts: int)
    requires Explains(h, s)
    ensures var r := Rebalanced(p, s, d, ts);
      Explains(NoteOpens(h, r.positions), r)
  {
    var counted := Count(s, d, ts);
    assert Explains(h, counted);
    hide Count, CloseMany, OpenMany;
    if Allowed(p, counted, d) {
      var more := counted.(rebalances := counted.rebalances + 1);
      CloseExplains(h, more, ClosedBy(d.plan.closes), Close, ts);
      OpenExplains(h, CloseMany(more, ClosedBy(d.plan.closes), Close, ts), d.rows, d.plan.opens, ts);
    } else {
      NothingNew(h, s.positions);
    }
  }

  lemma {:induction false} RiskExplains(p: Params, h: History, s: State, d: Decision, ts: int)
    requires Explains(h, s)
    ensures Explains(h, Publish(s, RiskCheck(p, s, ts), d, ts))
  {
    var noted := NotePeak(s);
    CloseExplains(h, noted.(halted := true, hardStops := noted.hardStops + 1), PositionIds(noted.positions),
                  ForceCloseDrawdown, ts);
  }

  lemma {:induction false} StepExplains(w: World, p: Params, mod: Model, h: History, s: State, ts: int)
    requires Books(p, s) && Explains(h, s)
    ensures var marked := AfterMark(w, p, s, ts);
      Explains(NoteOpens(NoteMarks(h, Mark(w, s, ts).positions),
                         Rebalanced(p, marked, Decide(w, p, mod, marked, ts), ts).positions),
               Step(w, p, mod, s, ts))
  {
    MarkingExplains(w, p, h, s, ts);
    hide AfterMark, Mark, Decide, Rebalanced, RiskCheck, Publish, Explains, Books;
    var marked := AfterMark(w, p, s, ts);
    var d := Decide(w, p, mod, marked, ts);
    var g := NoteMarks(h, Mark(w, s, ts).positions);
    RebalanceExplains(p, g, marked, d, ts);
    var r := Rebalanced(p, marked, d, ts);
    RiskExplains(p, NoteOpens(g, r.positions), r, d, ts);
  }

  /** Over every run the reported basis profit is the sum, over all positions ever opened, of size
      times (entry basis less last marked basis), whatever stretches without prices occurred. */
  lemma {:induction false} BasisProfitTelescopes(w: World, p: Params, mod: Model, buckets: seq<int>)
    ensures var (s, h) := (Run(w, p, mod, buckets), HistoryOf(w, p, mod, buckets));
      s.cumBasis == TotalGain(h) && |h| == s.openCount && Linked(h, s.positions)
  {
    RunExplained(w, p, mod, buckets);
    BooksAlwaysBalance(w, p, mod, buckets);
  }

  lemma {:induction false} RunExplained(w: World, p: Params, mod: Model, buckets: seq<int>)
    ensures Explains(HistoryOf(w, p, mod, buckets), Run(w, p, mod, buckets))
  {
    if buckets != [] {
      var n := |buckets| - 1;
      RunExplained(w, p, mod, buckets[..n]);
      BooksAlwaysBalance(w, p, mod, buckets[..n]);
      hide Step, AfterMark, Mark, Decide, Rebalanced, Explains, Books;
      StepExplains(w, p, mod, HistoryOf(w, p, mod, buckets[..n]), Run(w, p, mod, buckets[..n]), buckets[n]);
    }
  }
}

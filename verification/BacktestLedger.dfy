/** What the simulator's accounts always satisfy, over every run. */
module BacktestLedger {
  import opened Arith
  import opened Backtest
  import DeltaPlan

  // ----- Accounts balance -----

  /** Equity is the initial capital plus basis and funding gains, less fees; every position opened is
      still open or counted as closed; ids are handed out in order and never reused. */
  ghost predicate Books(p: Params, s: State) {
    && s.equity == InitialNav(p) + s.cumBasis + s.cumFunding - s.cumFee
    && s.openCount == s.closeCount + |s.positions|
    && s.nextId == s.openCount + 1
    && IdsInOrder(s.positions, s.nextId)
    && (s.halted ==> s.positions == [])
  }

  /** Strictly increasing ids, from 1 to below `next`. */
  ghost predicate IdsInOrder(ps: seq<Position>, next: int) {
    && (forall i :: 0 <= i < |ps| ==> 1 <= ps[i].id < next)
    && (forall i, j :: 0 <= i < j < |ps| ==> ps[i].id < ps[j].id)
  }

  lemma {:induction false} RemoveAt(ps: seq<Position>, id: int) returns (i: nat)
    requires Find(ps, id).Some?
    ensures i < |ps| && ps[i] == Find(ps, id).value && ps[i].id == id
    ensures Remove(ps, id) == ps[..i] + ps[i + 1..]
  {
    if ps[0].id == id {
      i := 0;
    } else {
      var k := RemoveAt(ps[1..], id);
      i := k + 1;
      assert ps[..i] + ps[i + 1..] == [ps[0]] + (ps[1..][..k] + ps[1..][k + 1..]);
    }
  }

  lemma {:induction false} WithoutOneInOrder(ps: seq<Position>, next: int, i: nat)
    requires IdsInOrder(ps, next) && i < |ps|
    ensures IdsInOrder(ps[..i] + ps[i + 1..], next)
  {}

  lemma {:induction false} CloseOneKeepsBooks(p: Params, s: State, id: int, action: Action, ts: int)
    requires Books(p, s)
    ensures Books(p, CloseOne(s, id, action, ts))
  {
    if Find(s.positions, id).Some? {
      var i := RemoveAt(s.positions, id);
      WithoutOneInOrder(s.positions, s.nextId, i);
      hide CloseFee, Log, Find, Remove, IdsInOrder;
      assert s.positions != [];
    }
  }

  lemma {:induction false} CloseKeepsBooks(p: Params, s: State, ids: seq<int>, action: Action, ts: int)
    requires Books(p, s)
    ensures Books(p, CloseMany(s, ids, action, ts))
    ensures CloseMany(s, ids, action, ts).halted == s.halted
  {
    if ids != [] {
      CloseKeepsBooks(p, s, ids[..|ids| - 1], action, ts);
      CloseOneKeepsBooks(p, CloseMany(s, ids[..|ids| - 1], action, ts), ids[|ids| - 1], action, ts);
    }
  }

  lemma {:induction false} OpenOneKeepsBooks(p: Params, s: State, rows: seq<Scored>, o: DeltaPlan.OpenItem, ts: int)
    requires Books(p, s) && !s.halted
    ensures Books(p, OpenOne(s, rows, o, ts)) && !OpenOne(s, rows, o, ts).halted
  {
    hide FindRow, Log;
  }

  lemma {:induction false} OpenKeepsBooks(p: Params, s: State, rows: seq<Scored>, os: seq<DeltaPlan.OpenItem>, ts: int)
    requires Books(p, s) && !s.halted
    ensures Books(p, OpenMany(s, rows, os, ts)) && !OpenMany(s, rows, os, ts).halted
  {
    if os != [] {
      OpenKeepsBooks(p, s, rows, os[..|os| - 1], ts);
      OpenOneKeepsBooks(p, OpenMany(s, rows, os[..|os| - 1], ts), rows, os[|os| - 1], ts);
    }
  }

  lemma {:induction false} MarkedIds(w: World, ps: seq<Position>, ts: int)
    ensures |MarkedPositions(w, ps, ts)| == |ps|
    ensures forall i :: 0 <= i < |ps| ==> MarkedPositions(w, ps, ts)[i] == MarkOne(w, ps[i], ts).pos
  {
    if ps != [] {
      MarkedIds(w, ps[..|ps| - 1], ts);
    }
  }

  lemma {:induction false} MarkOneKeeps(w: World, p: Position, ts: int)
    ensures var q := MarkOne(w, p, ts).pos;
      q.id == p.id && q.cents == p.cents && q.feePct == p.feePct && q.rowId == p.rowId
  {}

  lemma {:induction false} MarkKeepsBooks(w: World, p: Params, s: State, ts: int)
    requires Books(p, s)
    ensures Books(p, Mark(w, s, ts)) && Mark(w, s, ts).halted == s.halted
  {
    MarkedIds(w, s.positions, ts);
    forall i | 0 <= i < |s.positions|
      ensures MarkedPositions(w, s.positions, ts)[i].id == s.positions[i].id
    {
      MarkOneKeeps(w, s.positions[i], ts);
    }
    hide MarkedPositions, MarkOne, BasisGain, FundingGain;
  }

  lemma {:induction false} AfterMarkKeepsBooks(w: World, p: Params, s: State, ts: int)
    requires Books(p, s)
    ensures Books(p, AfterMark(w, p, s, ts)) && AfterMark(w, p, s, ts).halted == s.halted
  {
    MarkKeepsBooks(w, p, s, ts);
    hide Books, Mark;
    var marked := Mark(w, s, ts);
    CloseKeepsBooks(p, marked, StaleIds(marked.positions, p.staleMax), ForceCloseStale, ts);
  }

  lemma {:induction false} RebalanceKeepsBooks(p: Params, s: State, d: Decision, ts: int)
    requires Books(p, s)
    ensures Books(p, Rebalanced(p, s, d, ts)) && Rebalanced(p, s, d, ts).halted == s.halted
  {
    var counted := Count(s, d, ts);
    assert Books(p, counted) && counted.halted == s.halted;
    hide Count, CloseMany, OpenMany;
    if Allowed(p, counted, d) {
      var more := counted.(rebalances := counted.rebalances + 1);
      CloseKeepsBooks(p, more, ClosedBy(d.plan.closes), Close, ts);
      OpenKeepsBooks(p, CloseMany(more, ClosedBy(d.plan.closes), Close, ts), d.rows, d.plan.opens, ts);
    }
  }

  lemma {:induction false} IdsSnoc(ps: seq<Position>, n: nat)
    requires n < |ps|
    ensures var ids := PositionIds(ps[..n + 1]);
      ids != [] && ids[..|ids| - 1] == PositionIds(ps[..n]) && ids[|ids| - 1] == ps[n].id
  {
    assert ps[..n + 1][..n] == ps[..n];
  }

  lemma {:induction false} CloseHead(s: State, action: Action, ts: int)
    requires s.positions != []
    ensures CloseOne(s, s.positions[0].id, action, ts).positions == s.positions[1..]
  {}

  /** Closing all open ids in order leaves nothing. */
  lemma {:induction false} CloseAllEmpties(s: State, n: nat, action: Action, ts: int)
    requires n <= |s.positions|
    ensures CloseMany(s, PositionIds(s.positions[..n]), action, ts).positions == s.positions[n..]
  {
    if n == 0 {
      assert s.positions[..0] == [] && s.positions[0..] == s.positions;
    } else {
      var ps := s.positions;
      CloseAllEmpties(s, n - 1, action, ts);
      IdsSnoc(ps, n - 1);
      assert ps[n - 1..][0] == ps[n - 1] && ps[n - 1..][1..] == ps[n..];
      var before := CloseMany(s, PositionIds(ps[..n - 1]), action, ts);
      hide CloseFee, Log, PositionIds;
      CloseHead(before, action, ts);
    }
  }

  lemma {:induction false} HardStopEmpties(p: Params, s: State, ts: int)
    requires Books(p, s) && !s.halted
    ensures Books(p, HardStop(s, ts)) && HardStop(s, ts).positions == []
  {
    // The books of the state before its halt flag is raised.
    var stopping := s.(hardStops := s.hardStops + 1);
    var ids := PositionIds(s.positions);
    CloseKeepsBooks(p, stopping, ids, ForceCloseDrawdown, ts);
    CloseAllEmpties(stopping, |s.positions|, ForceCloseDrawdown, ts);
    assert s.positions[..|s.positions|] == s.positions && s.positions[|s.positions|..] == [];
    FlagCommutes(stopping, ids, ForceCloseDrawdown, ts);
  }

  /** Closing does not look at the halt flag. */
  lemma {:induction false} FlagCommutes(s: State, ids: seq<int>, action: Action, ts: int)
    ensures CloseMany(s.(halted := true), ids, action, ts) == CloseMany(s, ids, action, ts).(halted := true)
  {
    if ids != [] {
      FlagCommutes(s, ids[..|ids| - 1], action, ts);
    }
  }

  lemma {:induction false} RiskKeepsBooks(p: Params, s: State, ts: int)
    requires Books(p, s)
    ensures Books(p, RiskCheck(p, s, ts)) && (s.halted ==> RiskCheck(p, s, ts).halted)
    ensures s.halted ==> RiskCheck(p, s, ts).equity == s.equity
  {
    var noted := NotePeak(s);
    assert Books(p, noted);
    if !s.halted {
      HardStopEmpties(p, noted, ts);
      hide HardStop, Books;
      FlagStays(noted, ts);
    }
  }

  lemma {:induction false} FlagStays(s: State, ts: int)
    ensures HardStop(s, ts).halted
  {
    var stopping := s.(hardStops := s.hardStops + 1);
    FlagCommutes(stopping, PositionIds(s.positions), ForceCloseDrawdown, ts);
  }

  lemma {:induction false} ConcludeKeepsBooks(p: Params, s: State, d: Decision, ts: int)
    requires Books(p, s)
    ensures Books(p, Conclude(p, s, d, ts))
    ensures s.halted ==> Conclude(p, s, d, ts).halted
  {
    RebalanceKeepsBooks(p, s, d, ts);
    RiskKeepsBooks(p, Rebalanced(p, s, d, ts), ts);
    hide Rebalanced, RiskCheck;
  }

  lemma {:induction false} StepKeepsBooks(w: World, p: Params, mod: Model, s: State, ts: int)
    requires Books(p, s)
    ensures Books(p, Step(w, p, mod, s, ts))
    ensures s.halted ==> Step(w, p, mod, s, ts).halted
  {
    AfterMarkKeepsBooks(w, p, s, ts);
    hide AfterMark, Decide, Conclude, Books;
    var marked := AfterMark(w, p, s, ts);
    ConcludeKeepsBooks(p, marked, Decide(w, p, mod, marked, ts), ts);
  }

  /** The accounts balance after every bucket of every run. */
  lemma {:induction false} BooksAlwaysBalance(w: World, p: Params, mod: Model, buckets: seq<int>)
    ensures Books(p, Run(w, p, mod, buckets))
  {
    hide Step;
    if buckets != [] {
      BooksAlwaysBalance(w, p, mod, buckets[..|buckets| - 1]);
      StepKeepsBooks(w, p, mod, Run(w, p, mod, buckets[..|buckets| - 1]), buckets[|buckets| - 1]);
    }
  }

  /** At the end nothing is open, everything opened was closed, and the accounts still balance. */
  lemma {:induction false} EverythingIsClosedAtTheEnd(w: World, p: Params, mod: Model, buckets: seq<int>)
    requires buckets != []
    ensures var r := Backtested(w, p, mod, buckets);
      && r.positions == [] && r.openCount == r.closeCount
      && r.equity == InitialNav(p) + r.cumBasis + r.cumFunding - r.cumFee
  {
    BooksAlwaysBalance(w, p, mod, buckets);
    var s := Run(w, p, mod, buckets);
    hide Run, CloseMany;
    CloseKeepsBooks(p, s, PositionIds(s.positions), CloseEnd, buckets[|buckets| - 1]);
    CloseAllEmpties(s, |s.positions|, CloseEnd, buckets[|buckets| - 1]);
    assert s.positions[..|s.positions|] == s.positions && s.positions[|s.positions|..] == [];
  }

  // ----- The hard stop -----

  lemma {:induction false} HaltedMarkIsIdle(w: World, p: Params, s: State, ts: int)
    requires s.positions == []
    ensures AfterMark(w, p, s, ts) == s
  {}

  lemma {:induction false} HaltedConcludeIsIdle(p: Params, s: State, d: Decision, ts: int)
    requires s.positions == [] && s.halted
    ensures Conclude(p, s, d, ts).positions == [] && Conclude(p, s, d, ts).equity == s.equity
  {
    hide FingerprintOf;
  }

  /** Once halted, a bucket neither opens anything nor moves equity. */
  lemma {:induction false} HaltedStepIsIdle(w: World, p: Params, mod: Model, s: State, ts: int)
    requires Books(p, s) && s.halted
    ensures Step(w, p, mod, s, ts).positions == [] && Step(w, p, mod, s, ts).equity == s.equity
  {
    HaltedMarkIsIdle(w, p, s, ts);
    hide Decide, Conclude;
    HaltedConcludeIsIdle(p, s, Decide(w, p, mod, s, ts), ts);
  }

  /** A run stays halted, empty and at the same equity from the hard stop to the end. */
  lemma {:induction false} HaltIsFinal(w: World, p: Params, mod: Model, buckets: seq<int>, k: nat)
    requires k <= |buckets|
    ensures var (now, stop) := (Run(w, p, mod, buckets), Run(w, p, mod, buckets[..k]));
      stop.halted ==> now.halted && now.positions == [] && now.equity == stop.equity
    decreases |buckets|
  {
    hide Step;
    BooksAlwaysBalance(w, p, mod, buckets[..k]);
    if k == |buckets| {
      assert buckets[..k] == buckets;
    } else if Run(w, p, mod, buckets[..k]).halted {
      var n := |buckets| - 1;
      assert buckets[..n][..k] == buckets[..k];
      HaltIsFinal(w, p, mod, buckets[..n], k);
      BooksAlwaysBalance(w, p, mod, buckets[..n]);
      StepKeepsBooks(w, p, mod, Run(w, p, mod, buckets[..n]), buckets[n]);
      HaltedStepIsIdle(w, p, mod, Run(w, p, mod, buckets[..n]), buckets[n]);
    }
  }

  // ----- Drawdown -----

  /** The equities on which drawdown is measured, bucket by bucket. */
  function Samples(w: World, p: Params, mod: Model, buckets: seq<int>): seq<real> {
    if buckets == [] then []
    else
      var n := |buckets| - 1;
      Samples(w, p, mod, buckets[..n]) + [SampledEquity(w, p, mod, Run(w, p, mod, buckets[..n]), buckets[n])]
  }

  /** The largest of the initial capital and the equities so far. */
  function Peak(start: real, es: seq<real>): (peak: real)
    ensures start <= peak && (forall i :: 0 <= i < |es| ==> es[i] <= peak) && (peak == start || peak in es)
  {
    if es == [] then start
    else
      assert es == es[..|es| - 1] + [es[|es| - 1]];
      MaxR(Peak(start, es[..|es| - 1]), es[|es| - 1])
  }

  /** Equity at sample `i` against its prefix maximum, minus one, in percent. */
  function DdAt(start: real, es: seq<real>, i: nat): real
    requires start > 0.0 && i < |es|
  {
    (es[i] / Peak(start, es[..i + 1]) - 1.0) * 100.0
  }

  lemma {:induction false} OpenKeepsPeak(s: State, rows: seq<Scored>, os: seq<DeltaPlan.OpenItem>, ts: int)
    ensures OpenMany(s, rows, os, ts).peak == s.peak && OpenMany(s, rows, os, ts).maxDd == s.maxDd
  {
    if os != [] {
      OpenKeepsPeak(s, rows, os[..|os| - 1], ts);
    }
  }

  lemma {:induction false} RebalanceKeepsPeak(p: Params, s: State, d: Decision, ts: int)
    ensures Rebalanced(p, s, d, ts).peak == s.peak && Rebalanced(p, s, d, ts).maxDd == s.maxDd
  {
    var counted := Count(s, d, ts);
    assert counted.peak == s.peak && counted.maxDd == s.maxDd;
    hide Count, OpenMany, CloseMany;
    var more := counted.(rebalances := counted.rebalances + 1);
    CloseKeepsPeak(more, ClosedBy(d.plan.closes), Close, ts);
    OpenKeepsPeak(CloseMany(more, ClosedBy(d.plan.closes), Close, ts), d.rows, d.plan.opens, ts);
  }

  lemma {:induction false} RiskMovesPeak(p: Params, s: State, ts: int)
    ensures var r := RiskCheck(p, s, ts);
      r.peak == MaxR(s.peak, s.equity) && r.maxDd == MinR(s.maxDd, DdPct(s.equity, r.peak))
  {
    var noted := NotePeak(s);
    CloseKeepsPeak(noted.(halted := true, hardStops := noted.hardStops + 1), PositionIds(noted.positions),
                   ForceCloseDrawdown, ts);
  }

  /** What one bucket does to the high-water mark and the worst drawdown. */
  lemma {:induction false} StepMovesPeak(w: World, p: Params, mod: Model, s: State, ts: int)
    ensures var (r, e) := (Step(w, p, mod, s, ts), SampledEquity(w, p, mod, s, ts));
      r.peak == MaxR(s.peak, e) && r.maxDd == MinR(s.maxDd, DdPct(e, r.peak))
  {
    var marked := Mark(w, s, ts);
    CloseKeepsPeak(marked, StaleIds(marked.positions, p.staleMax), ForceCloseStale, ts);
    var after := AfterMark(w, p, s, ts);
    assert after.peak == s.peak && after.maxDd == s.maxDd;
    hide AfterMark, Decide, Rebalanced, RiskCheck;
    var d := Decide(w, p, mod, after, ts);
    RebalanceKeepsPeak(p, after, d, ts);
    RiskMovesPeak(p, Rebalanced(p, after, d, ts), ts);
  }

  lemma {:induction false} DdAtPrefix(start: real, es: seq<real>, e: real, i: nat)
    requires start > 0.0 && i < |es|
    ensures DdAt(start, es + [e], i) == DdAt(start, es, i) <= 0.0
  {
    assert (es + [e])[..i + 1] == es[..i + 1];
    assert es[..i + 1][i] == es[i];
    RatioAtMostOne(es[i], Peak(start, es[..i + 1]));
  }

  lemma {:induction false} RatioAtMostOne(e: real, peak: real)
    requires e <= peak && peak > 0.0
    ensures (e / peak - 1.0) * 100.0 <= 0.0
  {
    assert e / peak <= 1.0;
  }

  ghost predicate IsMaxDrawdown(dd: real, start: real, es: seq<real>)
    requires start > 0.0
  {
    && (forall i :: 0 <= i < |es| ==> dd <= DdAt(start, es, i))
    && (if es == [] then dd == 0.0 else exists i :: 0 <= i < |es| && dd == DdAt(start, es, i))
  }

  lemma {:induction false} DdAtSnoc(start: real, es: seq<real>, e: real)
    requires start > 0.0
    ensures Peak(start, es + [e]) == MaxR(Peak(start, es), e)
    ensures DdAt(start, es + [e], |es|) == DdPct(e, Peak(start, es + [e])) <= 0.0
    ensures forall i :: 0 <= i < |es| ==> DdAt(start, es + [e], i) == DdAt(start, es, i)
  {
    var n, all := |es|, es + [e];
    assert all[..n] == es && all[..n + 1] == all;
    RatioAtMostOne(e, Peak(start, all));
    forall i | 0 <= i < n ensures DdAt(start, all, i) == DdAt(start, es, i) {
      DdAtPrefix(start, es, e, i);
    }
  }

  /** Adding a sample with drawdown `last` to samples whose worst drawdown is `dd`. */
  lemma {:induction false} WorstOfBoth(dd: real, last: real, start: real, es: seq<real>, e: real)
    requires start > 0.0
    ensures IsMaxDrawdown(dd, start, es) && dd <= 0.0 && last == DdAt(start, es + [e], |es|) ==>
      IsMaxDrawdown(MinR(dd, last), start, es + [e]) && MinR(dd, last) <= 0.0
  {
    hide DdAt, DdPct, Peak, IsMaxDrawdown;
    if IsMaxDrawdown(dd, start, es) && dd <= 0.0 && last == DdAt(start, es + [e], |es|) {
      if last <= dd || es == [] {
        LastIsWorst(dd, last, start, es, e);
      } else {
        LastIsMilder(dd, last, start, es, e);
      }
    }
  }

  lemma {:induction false} LastIsWorst(dd: real, last: real, start: real, es: seq<real>, e: real)
    requires start > 0.0 && IsMaxDrawdown(dd, start, es) && last == DdAt(start, es + [e], |es|)
    requires last <= dd || es == []
    ensures IsMaxDrawdown(last, start, es + [e]) && last <= 0.0
    ensures es == [] ==> dd == 0.0
  {
    hide DdAt, DdPct, Peak;
    DdAtSnoc(start, es, e);
    forall i | 0 <= i < |es| + 1 ensures last <= DdAt(start, es + [e], i) {
      assert i < |es| ==> dd <= DdAt(start, es, i);
    }
  }

  lemma {:induction false} LastIsMilder(dd: real, last: real, start: real, es: seq<real>, e: real)
    requires start > 0.0 && IsMaxDrawdown(dd, start, es) && last == DdAt(start, es + [e], |es|)
    requires dd < last && es != []
    ensures IsMaxDrawdown(dd, start, es + [e])
  {
    hide DdAt, DdPct, Peak;
    DdAtSnoc(start, es, e);
    forall i | 0 <= i < |es| + 1 ensures dd <= DdAt(start, es + [e], i) {
      assert i < |es| ==> dd <= DdAt(start, es, i);
    }
    var i :| 0 <= i < |es| && dd == DdAt(start, es, i);
    assert dd == DdAt(start, es + [e], i);
  }

  /** The high-water mark is the largest equity sampled, the initial capital included. */
  lemma {:induction false} PeakIsHighWaterMark(w: World, p: Params, mod: Model, buckets: seq<int>)
    ensures Run(w, p, mod, buckets).peak == Peak(InitialNav(p), Samples(w, p, mod, buckets))
  {
    hide Step, SampledEquity;
    if buckets != [] {
      var n := |buckets| - 1;
      PeakIsHighWaterMark(w, p, mod, buckets[..n]);
      var s := Run(w, p, mod, buckets[..n]);
      StepMovesPeak(w, p, mod, s, buckets[n]);
      PeakSnoc(InitialNav(p), Samples(w, p, mod, buckets[..n]), SampledEquity(w, p, mod, s, buckets[n]));
      hide Peak;
    }
  }

  lemma {:induction false} PeakSnoc(start: real, es: seq<real>, e: real)
    ensures Peak(start, es + [e]) == MaxR(Peak(start, es), e)
  {
    assert (es + [e])[..|es|] == es;
  }

  /** The reported maximum drawdown is the least, over all buckets, of sampled equity over its
      prefix maximum (the initial capital included), minus one, in percent. */
  lemma {:induction false} MaxDrawdownIsExact(w: World, p: Params, mod: Model, buckets: seq<int>)
    ensures var dd := Run(w, p, mod, buckets).maxDd;
      dd <= 0.0 && IsMaxDrawdown(dd, InitialNav(p), Samples(w, p, mod, buckets))
  {
    hide Step, SampledEquity, IsMaxDrawdown;
    if buckets == [] {
      EmptyDrawdown(InitialNav(p));
    } else {
      var n := |buckets| - 1;
      MaxDrawdownIsExact(w, p, mod, buckets[..n]);
      PeakIsHighWaterMark(w, p, mod, buckets[..n]);
      var s := Run(w, p, mod, buckets[..n]);
      StepMovesPeak(w, p, mod, s, buckets[n]);
      var es, e := Samples(w, p, mod, buckets[..n]), SampledEquity(w, p, mod, s, buckets[n]);
      DdAtSnoc(InitialNav(p), es, e);
      WorstOfBoth(s.maxDd, DdPct(e, Peak(InitialNav(p), es + [e])), InitialNav(p), es, e);
    }
  }

  lemma {:induction false} EmptyDrawdown(start: real)
    requires start > 0.0
    ensures IsMaxDrawdown(0.0, start, [])
  {}
}

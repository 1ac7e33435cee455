/** The simulator as a program: one mutable state, updated bucket by bucket. */
module Simulator {
  import opened Arith
  import opened PairRows
  import opened MarketData
  import opened Backtest
  import DeltaPlan
  import RebalanceSignal
  import Allocator

  /** The state with the first `n` positions marked. */
  ghost function PartlyMarked(w: World, s: State, ts: int, n: nat): State
    requires n <= |s.positions|
  {
    var done := s.positions[..n];
    s.(positions := MarkedPositions(w, done, ts) + s.positions[n..],
       equity := s.equity + BasisGain(w, done, ts) + FundingGain(w, done, ts),
       cumBasis := s.cumBasis + BasisGain(w, done, ts),
       cumFunding := s.cumFunding + FundingGain(w, done, ts))
  }

  lemma {:induction false} MarkedLength(w: World, ps: seq<Position>, ts: int)
    ensures |MarkedPositions(w, ps, ts)| == |ps|
  {
    if ps != [] {
      MarkedLength(w, ps[..|ps| - 1], ts);
    }
  }

  lemma {:induction false} MarkedSnoc(w: World, ps: seq<Position>, ts: int, i: nat)
    requires i < |ps|
    ensures var before := MarkedPositions(w, ps[..i], ts) + ps[i..];
      && |before| == |ps| && before[i] == ps[i]
      && before[i := MarkOne(w, ps[i], ts).pos] == MarkedPositions(w, ps[..i + 1], ts) + ps[i + 1..]
    ensures BasisGain(w, ps[..i + 1], ts) == BasisGain(w, ps[..i], ts) + MarkOne(w, ps[i], ts).basis
    ensures FundingGain(w, ps[..i + 1], ts) == FundingGain(w, ps[..i], ts) + MarkOne(w, ps[i], ts).funding
  {
    hide *;
    MarkedLength(w, ps[..i], ts);
    MarkedAppend(w, ps[..i], ps[i], ts);
    assert ps[..i + 1] == ps[..i] + [ps[i]];
    NextReplaced(MarkedPositions(w, ps[..i], ts), ps, i, MarkOne(w, ps[i], ts).pos);
  }

  lemma {:induction false} NextReplaced(done: seq<Position>, ps: seq<Position>, i: nat, p: Position)
    requires |done| == i < |ps|
    ensures var before := done + ps[i..];
      |before| == |ps| && before[i] == ps[i] && before[i := p] == done + [p] + ps[i + 1..]
  {
    assert ps[i..] == [ps[i]] + ps[i + 1..];
  }

  lemma {:induction false} MarkedAppend(w: World, ps: seq<Position>, p: Position, ts: int)
    ensures MarkedPositions(w, ps + [p], ts) == MarkedPositions(w, ps, ts) + [MarkOne(w, p, ts).pos]
    ensures BasisGain(w, ps + [p], ts) == BasisGain(w, ps, ts) + MarkOne(w, p, ts).basis
    ensures FundingGain(w, ps + [p], ts) == FundingGain(w, ps, ts) + MarkOne(w, p, ts).funding
  {
    hide MarkOne;
    assert (ps + [p])[..|ps|] == ps;
  }

  /** The state with position `i` marked. */
  ghost function MarkAt(w: World, s: State, i: nat, ts: int): State
    requires i < |s.positions|
  {
    var m := MarkOne(w, s.positions[i], ts);
    s.(positions := s.positions[i := m.pos], equity := s.equity + m.basis + m.funding,
       cumBasis := s.cumBasis + m.basis, cumFunding := s.cumFunding + m.funding)
  }

  /** The state after marking the first `n` positions one by one. */
  ghost function MarkFirst(w: World, s: State, ts: int, n: nat): (r: State)
    requires n <= |s.positions|
    ensures |r.positions| == |s.positions|
  {
    if n == 0 then s else MarkAt(w, MarkFirst(w, s, ts, n - 1), n - 1, ts)
  }

  lemma {:induction false} PartlyMarkedStep(w: World, s: State, ts: int, n: nat)
    requires n < |s.positions|
    ensures n < |PartlyMarked(w, s, ts, n).positions|
    ensures MarkAt(w, PartlyMarked(w, s, ts, n), n, ts) == PartlyMarked(w, s, ts, n + 1)
  {
    MarkedSnoc(w, s.positions, ts, n);
    hide MarkedPositions, BasisGain, FundingGain, MarkOne;
  }

  lemma {:induction false} NothingMarked(w: World, s: State, ts: int)
    ensures PartlyMarked(w, s, ts, 0) == s
  {
    hide MarkOne;
    assert s.positions[..0] == [] && [] + s.positions[0..] == s.positions;
  }

  lemma {:induction false} MarkFirstIsPartlyMarked(w: World, s: State, ts: int, n: nat)
    requires n <= |s.positions|
    ensures MarkFirst(w, s, ts, n) == PartlyMarked(w, s, ts, n)
  {
    hide PartlyMarked, MarkAt;
    if n == 0 {
      NothingMarked(w, s, ts);
    } else {
      MarkFirstIsPartlyMarked(w, s, ts, n - 1);
      PartlyMarkedStep(w, s, ts, n - 1);
    }
  }

  lemma {:induction false} MarkFirstIsMark(w: World, s: State, ts: int)
    ensures MarkFirst(w, s, ts, |s.positions|) == Mark(w, s, ts)
  {
    hide *;
    MarkFirstIsPartlyMarked(w, s, ts, |s.positions|);
    AllMarked(w, s, ts);
  }

  lemma {:induction false} AllMarked(w: World, s: State, ts: int)
    ensures PartlyMarked(w, s, ts, |s.positions|) == Mark(w, s, ts)
  {
    hide MarkOne;
    var ps := s.positions;
    assert ps[..|ps|] == ps && ps[|ps|..] == [];
    assert MarkedPositions(w, ps, ts) + [] == MarkedPositions(w, ps, ts);
  }

  class Engine {
    const w: World
    const p: Params
    const mod: Model
    var state: State

    constructor (w: World, p: Params, mod: Model)
      ensures this.w == w && this.p == p && this.mod == mod && state == Init(p)
    {
      this.w, this.p, this.mod := w, p, mod;
      state := Init(p);
    }

    method MarkPosition(i: nat, ts: int)
      requires i < |state.positions|
      modifies this
      ensures state == MarkAt(w, old(state), i, ts)
    {
      var pos := state.positions[i];
      var perpPx := PerpPrice(w, pos.perpEx, pos.symbol, ts, 4);
      var spotPx := SpotPrice(w, pos.spotEx, pos.spotSymbol, ts, 4);
      if perpPx.None? || spotPx.None? {
        state := state.(positions := state.positions[i := pos.(stale := pos.stale + 1)]);
        return;
      }
      var now := Basis(perpPx.value, spotPx.value);
      var basisPnl := BasisPnl(pos.cents, pos.lastBasis, now);
      var fund := FundingSnapshot(FundingSeries(w, FundKey(pos.perpEx, pos.symbol)), ts);
      var fundingPnl := FundingPnl(pos.cents, fund);
      state := state.(positions := state.positions[i := pos.(stale := 0, lastBasis := now)]);
      state := state.(equity := state.equity + basisPnl + fundingPnl);
      state := state.(cumBasis := state.cumBasis + basisPnl, cumFunding := state.cumFunding + fundingPnl);
    }

    method MarkToMarket(ts: int)
      modifies this
      ensures state == Mark(w, old(state), ts)
    {
      var n := |state.positions|;
      for i := 0 to n
        invariant state == MarkFirst(w, old(state), ts, i)
      {
        MarkPosition(i, ts);
      }
      MarkFirstIsMark(w, old(state), ts);
    }

    method ClosePosition(id: int, action: Action, ts: int)
      modifies this
      ensures state == CloseOne(old(state), id, action, ts)
    {
      var found := Find(state.positions, id);
      if found.None? {
        return;
      }
      var fee := CloseFee(found.value);
      state := state.(positions := Remove(state.positions, id));
      if action == ForceCloseStale {
        state := state.(staleCloses := state.staleCloses + 1);
      }
      state := state.(closeCount := state.closeCount + 1, cumFee := state.cumFee + fee, equity := state.equity - fee);
      state := state.(events := Log(state.events, Event(ts, action, id, found.value.rowId, found.value.cents, fee)));
    }

    method CloseAll(ids: seq<int>, action: Action, ts: int)
      modifies this
      ensures state == CloseMany(old(state), ids, action, ts)
    {
      for i := 0 to |ids|
        invariant state == CloseMany(old(state), ids[..i], action, ts)
      {
        assert ids[..i + 1][..i] == ids[..i];
        ClosePosition(ids[i], action, ts);
      }
      assert ids[..|ids|] == ids;
    }

    method CloseStale(ts: int)
      modifies this
      ensures state == CloseMany(old(state), StaleIds(old(state).positions, p.staleMax), ForceCloseStale, ts)
    {
      var ids := [];
      var ps := state.positions;
      for i := 0 to |ps|
        invariant state == old(state) && ids == StaleIds(ps[..i], p.staleMax)
      {
        assert ps[..i + 1][..i] == ps[..i];
        if ps[i].stale > MaxI(0, p.staleMax) {
          ids := ids + [ps[i].id];
        }
      }
      assert ps[..|ps|] == ps;
      CloseAll(ids, ForceCloseStale, ts);
    }

    method BuildRows(us: seq<UniRow>, nav: real, ts: int) returns (rows: seq<Scored>)
      ensures rows == RowsFor(w, mod, us, nav, ts)
    {
      rows := [];
      for i := 0 to |us|
        invariant rows == RowsFor(w, mod, us[..i], nav, ts)
      {
        assert us[..i + 1][..i] == us[..i];
        var row := RowFor(w, mod, us[i], ts);
        if row.Some? {
          rows := rows + [Scored(row.value, mod.score(row.value, nav))];
        }
      }
      assert us[..|us|] == us;
    }

    method SelectTargets(rows: seq<Scored>) returns (targets: seq<DeltaPlan.Target>)
      ensures targets == Targets(p, mod, rows, state.equity)
    {
      var selectable := [];
      for i := 0 to |rows|
        invariant selectable == SelectRows(p, rows[..i])
      {
        assert rows[..i + 1][..i] == rows[..i];
        if Selectable(p, rows[i]) {
          selectable := selectable + [rows[i]];
        }
      }
      assert rows[..|rows|] == rows;
      var nav := Allocator.Nav(MaxR(0.0, state.equity), false);
      var picks, _, _ := Allocator.BuildOpenPortfolioPreview(OpenRows(mod, selectable), [], p.alloc, nav, map[]);
      targets := [];
      for i := 0 to |picks|
        invariant targets == TargetsOf(selectable, picks[..i])
      {
        assert picks[..i + 1][..i] == picks[..i];
        targets := targets + [TargetOf(selectable, picks[i])];
      }
      assert picks[..|picks|] == picks;
    }

    /** The open positions as planner rows, and what they are expected to gain a day. */
    method BuildCurrentState(rows: seq<Scored>) returns (current: seq<PairRow>, expected: real)
      ensures current == CurrentRows(rows, state.positions) && expected == CurrentExpected(rows, state.positions)
    {
      hide CurrentRow, ExpectedOf, Round6;
      current := [];
      var total := 0.0;
      var ps := state.positions;
      for i := 0 to |ps|
        invariant current == CurrentRows(rows, ps[..i]) && total == SumExpected(rows, ps[..i])
      {
        assert ps[..i + 1][..i] == ps[..i];
        current := current + [CurrentRow(rows, ps[i])];
        total := total + ExpectedOf(rows, ps[i]);
      }
      assert ps[..|ps|] == ps;
      expected := Round6(total);
    }

    method MakeDecision(ts: int) returns (d: Decision)
      ensures d == Decide(w, p, mod, state, ts)
    {
      var rows := BuildRows(DayRows(w, ts), MaxR(0.0, state.equity), ts);
      if state.halted {
        return Decision(rows, [], DeltaPlan.EMPTY_PLAN, NO_SIGNAL);
      }
      var current, expected := BuildCurrentState(rows);
      var targets := SelectTargets(rows);
      var plan := DeltaPlan.BuildRebalanceDeltaPlan(current, targets, p.alloc.minPairUsd);
      var signal := RebalanceSignal.EvaluatePlan(plan, expected, p.band);
      d := Decision(rows, targets, plan, signal);
    }

    method OpenAll(rows: seq<Scored>, os: seq<DeltaPlan.OpenItem>, ts: int)
      modifies this
      ensures state == OpenMany(old(state), rows, os, ts)
    {
      for i := 0 to |os|
        invariant state == OpenMany(old(state), rows, os[..i], ts)
      {
        assert os[..i + 1][..i] == os[..i];
        OpenPosition(rows, os[i], ts);
      }
      assert os[..|os|] == os;
    }

    method Rebalance(d: Decision, ts: int)
      modifies this
      ensures state == Rebalanced(p, old(state), d, ts)
    {
      hide Count, CloseMany, OpenMany;
      state := Count(state, d, ts);
      if !(d.signal.raw && state.confirm.count >= MaxI(1, p.confirmRounds) && !state.halted) {
        return;
      }
      state := state.(rebalances := state.rebalances + 1);
      CloseAll(ClosedBy(d.plan.closes), Close, ts);
      OpenAll(d.rows, d.plan.opens, ts);
    }

    method OpenPosition(rows: seq<Scored>, o: DeltaPlan.OpenItem, ts: int)
      modifies this
      ensures state == OpenOne(old(state), rows, o, ts)
    {
      hide FindRow, RebalanceSignal.OpenFee, NewPosition, Log;
      var src := FindRow(rows, o.rowId);
      if src.None? || o.cents <= 0 {
        return;
      }
      var fee := RebalanceSignal.OpenFee(o);
      var id := state.nextId;
      state := state.(equity := state.equity - fee, cumFee := state.cumFee + fee, nextId := id + 1);
      state := state.(positions := state.positions + [NewPosition(id, o, src.value)]);
      state := state.(openCount := state.openCount + 1);
      state := state.(events := Log(state.events, Event(ts, OpenPair, id, o.rowId, o.cents, fee)));
    }

    method CheckRisk(ts: int) returns (dd: real)
      modifies this
      ensures state == RiskCheck(p, old(state), ts)
      ensures dd == DdPct(old(state).equity, state.peak)
    {
      state := state.(peak := MaxR(state.peak, state.equity));
      dd := DdPct(state.equity, state.peak);
      state := state.(maxDd := MinR(state.maxDd, dd));
      if !state.halted && dd <= p.ddHardPct {
        state := state.(halted := true, hardStops := state.hardStops + 1);
        CloseKeepsPeak(state, PositionIds(state.positions), ForceCloseDrawdown, ts);
        CloseAll(PositionIds(state.positions), ForceCloseDrawdown, ts);
      }
    }

    method StepBucket(ts: int)
      modifies this
      ensures state == Step(w, p, mod, old(state), ts)
    {
      MarkToMarket(ts);
      CloseStale(ts);
      var d := MakeDecision(ts);
      Rebalance(d, ts);
      var dd := CheckRisk(ts);
      state := state.(curve := state.curve + [Sample(ts, state.equity, |state.positions|, OpenCents(state.positions),
                                                     |d.rows|, |d.targets|, dd, state.halted)]);
    }
  }

  /** The whole run over the given buckets, everything closed at the end. */
  method RunEventBacktest(w: World, p: Params, mod: Model, buckets: seq<int>) returns (result: State)
    requires buckets != []
    ensures result == Backtested(w, p, mod, buckets)
  {
    hide Step;
    var engine := new Engine(w, p, mod);
    for i := 0 to |buckets|
      invariant engine.w == w && engine.p == p && engine.mod == mod
      invariant engine.state == Run(w, p, mod, buckets[..i])
    {
      assert buckets[..i + 1][..i] == buckets[..i];
      engine.StepBucket(buckets[i]);
    }
    assert buckets[..|buckets|] == buckets;
    engine.CloseAll(PositionIds(engine.state.positions), CloseEnd, buckets[|buckets| - 1]);
    result := engine.state;
  }
}

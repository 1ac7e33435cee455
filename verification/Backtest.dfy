/** The event simulator: one pass over 15-minute buckets that marks open pairs to
    market, closes stale ones, rebalances, and halts on drawdown. */
module Backtest {
  import opened Arith
  import opened PairRows
  import opened MarketData
  import opened ConfirmRounds
  import DeltaPlan
  import RebalanceSignal
  import Allocator

  const DAY_SECS := 86400

  // ----- Inputs -----

  datatype PriceKey = PriceKey(ex: int, symbol: string, perp: bool)

  datatype FundKey = FundKey(ex: int, symbol: string)

  datatype UniRow = UniRow(symbol: string, spotSymbol: string, perpEx: int, spotEx: int, perpVol: real, spotVol: real)

  /** The stored series and the daily universes, by day number. */
  datatype World = World(
    prices: map<PriceKey, seq<PricePoint>>,
    funding: map<FundKey, seq<FundingPoint>>,
    universe: map<int, seq<UniRow>>)

  datatype Params = Params(
    initialNav: real, minRatePct: real, minPerpVol: real, minSpotVol: real, minBasisPct: real, requireCross: bool,
    alloc: Allocator.Config, band: RebalanceSignal.Deadband, confirmRounds: int, ddHardPct: real, staleMax: int)

  /** A tradable pair of one bucket. */
  datatype Row = Row(
    rowId: string, symbol: string, spotSymbol: string, perpEx: int, spotEx: int, perpPx: real, spotPx: real,
    funding: Funding, perpVol: real, spotVol: real, basisPct: real, feeRoundTripPct: real)

  datatype Metrics = Metrics(
    e24: real, conf: real, capacity: real, score: real, impact: real, hintUsd: real, holdDays: real, legRisk: real)

  datatype Scored = Scored(row: Row, m: Metrics)

  /** The pure functions the simulator takes from elsewhere. `basisAbs` is the value the allocator
      reads as the row's absolute basis. */
  datatype Model = Model(
    score: (Row, real) -> Metrics,
    takerFee: int -> real,
    rowId: (string, int, int) -> string,
    basisAbs: Row -> real)

  // ----- State -----

  datatype Position = Position(
    id: int, rowId: string, symbol: string, spotSymbol: string, perpEx: int, spotEx: int,
    cents: nat, feePct: real, lastBasis: real, stale: nat)

  datatype Action = ForceCloseStale | Close | OpenPair | ForceCloseDrawdown | CloseEnd

  datatype Event = Event(ts: int, action: Action, id: int, rowId: string, cents: nat, fee: real)

  datatype Fingerprint = Fingerprint(opens: multiset<(string, nat)>, closes: multiset<int>)

  datatype BlockCode = SmallGap | AbsDeadband | RelDeadband

  datatype Sample = Sample(ts: int, equity: real, openPairs: nat, openCents: nat, candidates: nat, targets: nat,
                           ddPct: real, halted: bool)

  datatype State = State(
    equity: real, peak: real, maxDd: real, halted: bool,
    positions: seq<Position>, nextId: int, confirm: Confirm<Fingerprint>,
    cumFunding: real, cumBasis: real, cumFee: real,
    openCount: nat, closeCount: nat, rebalances: nat, staleCloses: nat, hardStops: nat,
    targetBuckets: nat, blockedBuckets: nat, blockReasons: map<BlockCode, nat>,
    events: seq<Event>, curve: seq<Sample>)

  function InitialNav(p: Params): real { MaxR(100.0, p.initialNav) }

  function Init(p: Params): State {
    var nav := InitialNav(p);
    State(nav, nav, 0.0, false, [], 1, Confirm(None, 0, 0.0), 0.0, 0.0, 0.0, 0, 0, 0, 0, 0, 0, 0, map[], [], [])
  }

  // ----- Data access -----

  function Day(ts: int): int { ts / DAY_SECS }

  function DayRows(w: World, ts: int): seq<UniRow> {
    if Day(ts) in w.universe then w.universe[Day(ts)] else []
  }

  function PerpKey(u: UniRow): PriceKey { PriceKey(u.perpEx, u.symbol, true) }

  function SpotKey(u: UniRow): PriceKey { PriceKey(u.spotEx, u.spotSymbol, false) }

  predicate Mentions(rows: seq<UniRow>, k: PriceKey) {
    exists u :: u in rows && (PerpKey(u) == k || SpotKey(u) == k)
  }

  /** Only series of pairs that occur in some day's universe are loaded. */
  predicate PriceLoaded(w: World, k: PriceKey) {
    exists d :: d in w.universe && Mentions(w.universe[d], k)
  }

  function PriceSeries(w: World, k: PriceKey): seq<PricePoint> {
    if PriceLoaded(w, k) && k in w.prices then w.prices[k] else []
  }

  function FundingSeries(w: World, k: FundKey): seq<FundingPoint> {
    if PriceLoaded(w, PriceKey(k.ex, k.symbol, true)) && k in w.funding then w.funding[k] else []
  }

  function Basis(perpPx: real, spotPx: real): real
    requires spotPx > 0.0
  {
    (perpPx - spotPx) / spotPx * 100.0
  }

  // ----- Mark to market -----

  function PerpPrice(w: World, ex: int, symbol: string, ts: int, ages: int): (r: Option<real>)
    ensures r.Some? ==> r.value > 0.0
  {
    LatestPrice(PriceSeries(w, PriceKey(ex, symbol, true)), ts, BUCKET_SECS * ages)
  }

  function SpotPrice(w: World, ex: int, symbol: string, ts: int, ages: int): (r: Option<real>)
    ensures r.Some? ==> r.value > 0.0
  {
    LatestPrice(PriceSeries(w, PriceKey(ex, symbol, false)), ts, BUCKET_SECS * ages)
  }

  function BasisPnl(cents: nat, from: real, to: real): real { Usd(cents) * -((to - from) / 100.0) }

  function FundingPnl(cents: nat, f: Funding): real {
    Usd(cents) * (f.ratePct * f.periodsPerDay / 100.0) / 96.0
  }

  /** One position after the bucket's marking, with its basis and funding gains. */
  datatype Marked = Marked(pos: Position, basis: real, funding: real)

  function MarkOne(w: World, p: Position, ts: int): Marked {
    var perpPx, spotPx := PerpPrice(w, p.perpEx, p.symbol, ts, 4), SpotPrice(w, p.spotEx, p.spotSymbol, ts, 4);
    if perpPx.None? || spotPx.None? then Marked(p.(stale := p.stale + 1), 0.0, 0.0)
    else
      var now := Basis(perpPx.value, spotPx.value);
      Marked(p.(stale := 0, lastBasis := now), BasisPnl(p.cents, p.lastBasis, now),
             FundingPnl(p.cents, FundingSnapshot(FundingSeries(w, FundKey(p.perpEx, p.symbol)), ts)))
  }

  function MarkedPositions(w: World, ps: seq<Position>, ts: int): seq<Position> {
    if ps == [] then []
    else MarkedPositions(w, ps[..|ps| - 1], ts) + [MarkOne(w, ps[|ps| - 1], ts).pos]
  }

  function BasisGain(w: World, ps: seq<Position>, ts: int): real {
    if ps == [] then 0.0 else BasisGain(w, ps[..|ps| - 1], ts) + MarkOne(w, ps[|ps| - 1], ts).basis
  }

  function FundingGain(w: World, ps: seq<Position>, ts: int): real {
    if ps == [] then 0.0 else FundingGain(w, ps[..|ps| - 1], ts) + MarkOne(w, ps[|ps| - 1], ts).funding
  }

  function Mark(w: World, s: State, ts: int): State {
    var basis, funding := BasisGain(w, s.positions, ts), FundingGain(w, s.positions, ts);
    s.(positions := MarkedPositions(w, s.positions, ts), equity := s.equity + basis + funding,
       cumBasis := s.cumBasis + basis, cumFunding := s.cumFunding + funding)
  }

  /** The positions whose prices have been missing for too many buckets. */
  function StaleIds(ps: seq<Position>, staleMax: int): seq<int> {
    if ps == [] then []
    else
      var p := ps[|ps| - 1];
      StaleIds(ps[..|ps| - 1], staleMax) + if p.stale > MaxI(0, staleMax) then [p.id] else []
  }

  // ----- Closing -----

  function Find(ps: seq<Position>, id: int): Option<Position> {
    if ps == [] then None else if ps[0].id == id then Some(ps[0]) else Find(ps[1..], id)
  }

  function Remove(ps: seq<Position>, id: int): seq<Position> {
    if ps == [] then [] else if ps[0].id == id then ps[1..] else [ps[0]] + Remove(ps[1..], id)
  }

  function CloseFee(p: Position): real { Usd(p.cents) * MaxR(0.0, p.feePct) / 100.0 }

  function Log(events: seq<Event>, e: Event): seq<Event> { if |events| < 3000 then events + [e] else events }

  function CloseOne(s: State, id: int, action: Action, ts: int): State {
    match Find(s.positions, id)
    case None => s
    case Some(p) =>
      var fee := CloseFee(p);
      s.(positions := Remove(s.positions, id), equity := s.equity - fee, cumFee := s.cumFee + fee,
         closeCount := s.closeCount + 1,
         staleCloses := s.staleCloses + (if action == ForceCloseStale then 1 else 0),
         events := Log(s.events, Event(ts, action, id, p.rowId, p.cents, fee)))
  }

  function CloseMany(s: State, ids: seq<int>, action: Action, ts: int): State {
    if ids == [] then s else CloseOne(CloseMany(s, ids[..|ids| - 1], action, ts), ids[|ids| - 1], action, ts)
  }

  lemma {:induction false} CloseKeepsPeak(s: State, ids: seq<int>, action: Action, ts: int)
    ensures CloseMany(s, ids, action, ts).peak == s.peak && CloseMany(s, ids, action, ts).maxDd == s.maxDd
  {
    if ids != [] {
      CloseKeepsPeak(s, ids[..|ids| - 1], action, ts);
    }
  }

  function PositionIds(ps: seq<Position>): seq<int> {
    if ps == [] then [] else PositionIds(ps[..|ps| - 1]) + [ps[|ps| - 1].id]
  }

  function AfterMark(w: World, p: Params, s: State, ts: int): State {
    var marked := Mark(w, s, ts);
    CloseMany(marked, StaleIds(marked.positions, p.staleMax), ForceCloseStale, ts)
  }

  // ----- Candidate rows -----

  function RowFor(w: World, mod: Model, u: UniRow, ts: int): Option<Row> {
    var perpPx, spotPx := PerpPrice(w, u.perpEx, u.symbol, ts, 3), SpotPrice(w, u.spotEx, u.spotSymbol, ts, 3);
    if perpPx.None? || spotPx.None? then None
    else Some(Row(
      mod.rowId(u.symbol, u.perpEx, u.spotEx), u.symbol, u.spotSymbol, u.perpEx, u.spotEx, perpPx.value, spotPx.value,
      FundingSnapshot(FundingSeries(w, FundKey(u.perpEx, u.symbol)), ts), u.perpVol, u.spotVol,
      Basis(perpPx.value, spotPx.value),
      (MaxR(0.0, mod.takerFee(u.perpEx)) + MaxR(0.0, mod.takerFee(u.spotEx))) * 200.0))
  }

  function RowsFor(w: World, mod: Model, us: seq<UniRow>, nav: real, ts: int): seq<Scored> {
    if us == [] then []
    else
      var n := |us| - 1;
      RowsFor(w, mod, us[..n], nav, ts)
      + match RowFor(w, mod, us[n], ts) case None => [] case Some(r) => [Scored(r, mod.score(r, nav))]
  }

  /** The last row of that id, as a dictionary filled in list order would give. */
  function FindRow(rows: seq<Scored>, id: string): Option<Scored> {
    if rows == [] then None
    else if rows[|rows| - 1].row.rowId == id then Some(rows[|rows| - 1])
    else FindRow(rows[..|rows| - 1], id)
  }

  function FindPair(rows: seq<Scored>, p: Position): Option<Scored> {
    if rows == [] then None
    else if rows[0].row.perpEx == p.perpEx && rows[0].row.spotEx == p.spotEx && rows[0].row.symbol == p.symbol
    then Some(rows[0])
    else FindPair(rows[1..], p)
  }

  function HalfFee(r: Row): real { if r.feeRoundTripPct > 0.0 then r.feeRoundTripPct / 2.0 else 0.08 }

  function HoldDays(m: Metrics): real { MaxR(1.0, MinR(14.0, if m.holdDays <= 0.0 then 2.0 else m.holdDays)) }

  function Matched(rows: seq<Scored>, p: Position): Option<Scored> {
    if FindRow(rows, p.rowId).Some? then FindRow(rows, p.rowId) else FindPair(rows, p)
  }

  function Round4(x: real): real { RoundTo(x, 10000.0) }

  function Round6(x: real): real { RoundTo(x, 1000000.0) }

  /** The current pair as the planner sees it: percentages to six digits, days to four. */
  function CurrentRow(rows: seq<Scored>, p: Position): PairRow {
    match Matched(rows, p)
    case Some(x) =>
      PairRow(p.id, x.row.rowId, p.cents, Round6(x.m.e24), Round6(HalfFee(x.row)), Round4(HoldDays(x.m)),
              Round6(MaxR(0.0, x.m.legRisk)))
    case None => PairRow(p.id, p.rowId, p.cents, 0.0, 0.08, 2.0, 0.0)
  }

  function CurrentRows(rows: seq<Scored>, ps: seq<Position>): seq<PairRow> {
    if ps == [] then [] else CurrentRows(rows, ps[..|ps| - 1]) + [CurrentRow(rows, ps[|ps| - 1])]
  }

  /** What the current pair is expected to gain a day, from the unrounded gain. */
  function ExpectedOf(rows: seq<Scored>, p: Position): real {
    match Matched(rows, p)
    case Some(x) => Usd(p.cents) * x.m.e24 / 100.0
    case None => 0.0
  }

  function SumExpected(rows: seq<Scored>, ps: seq<Position>): real {
    if ps == [] then 0.0 else SumExpected(rows, ps[..|ps| - 1]) + ExpectedOf(rows, ps[|ps| - 1])
  }

  function CurrentExpected(rows: seq<Scored>, ps: seq<Position>): real { Round6(SumExpected(rows, ps)) }

  predicate Selectable(p: Params, x: Scored) {
    && x.row.funding.ratePct >= p.minRatePct && x.row.perpVol >= p.minPerpVol && x.row.spotVol >= p.minSpotVol
    && x.row.basisPct >= p.minBasisPct && !(p.requireCross && x.row.perpEx == x.row.spotEx)
  }

  function SelectRows(p: Params, rows: seq<Scored>): seq<Scored> {
    if rows == [] then []
    else SelectRows(p, rows[..|rows| - 1]) + if Selectable(p, rows[|rows| - 1]) then [rows[|rows| - 1]] else []
  }

  function OpenRow(mod: Model, x: Scored): Allocator.OpenRow {
    Allocator.OpenRow(x.row.rowId, x.row.perpEx, x.row.spotEx, x.m.score, x.m.conf, x.m.e24, x.m.capacity, x.m.impact,
                      mod.basisAbs(x.row), x.row.basisPct, x.m.hintUsd)
  }

  function OpenRows(mod: Model, rows: seq<Scored>): seq<Allocator.OpenRow> {
    if rows == [] then [] else OpenRows(mod, rows[..|rows| - 1]) + [OpenRow(mod, rows[|rows| - 1])]
  }

  function Picks(p: Params, mod: Model, rows: seq<Scored>, nav: real): seq<Allocator.Pick> {
    var open := OpenRows(mod, SelectRows(p, rows));
    Allocator.Allocate(open, [], p.alloc, Allocator.Nav(MaxR(0.0, nav), false), map[]).picks
  }

  function TargetOf(rows: seq<Scored>, pick: Allocator.Pick): DeltaPlan.Target {
    match FindRow(rows, pick.row.rowId)
    case Some(x) =>
      DeltaPlan.Target(pick.row.rowId, Cents(pick.usd), Round6(pick.row.e24), Round6(HalfFee(x.row)),
                       Round4(HoldDays(x.m)), Round6(MaxR(0.0, x.m.legRisk)))
    case None => DeltaPlan.Target(pick.row.rowId, Cents(pick.usd), Round6(pick.row.e24), 0.08, 2.0, 0.0)
  }

  function TargetsOf(rows: seq<Scored>, picks: seq<Allocator.Pick>): seq<DeltaPlan.Target> {
    if picks == [] then [] else TargetsOf(rows, picks[..|picks| - 1]) + [TargetOf(rows, picks[|picks| - 1])]
  }

  function Targets(p: Params, mod: Model, rows: seq<Scored>, nav: real): seq<DeltaPlan.Target> {
    TargetsOf(SelectRows(p, rows), Picks(p, mod, rows, nav))
  }

  // ----- Rebalance decision -----

  /** Everything the bucket decides before touching the portfolio. */
  datatype Decision = Decision(
    rows: seq<Scored>, targets: seq<DeltaPlan.Target>, plan: DeltaPlan.Plan, signal: RebalanceSignal.Signal)

  const NO_SIGNAL := RebalanceSignal.Signal(0.0, 0.0, 0.0, 0.0, false, false, false, false)

  function Decide(w: World, p: Params, mod: Model, s: State, ts: int): Decision {
    var rows := RowsFor(w, mod, DayRows(w, ts), MaxR(0.0, s.equity), ts);
    if s.halted then Decision(rows, [], DeltaPlan.EMPTY_PLAN, NO_SIGNAL)
    else
      var current := CurrentRows(rows, s.positions);
      var targets := Targets(p, mod, rows, s.equity);
      var plan := DeltaPlan.BuildPlan(current, targets, p.alloc.minPairUsd);
      Decision(rows, targets, plan, RebalanceSignal.Evaluate(plan, CurrentExpected(rows, s.positions), p.band))
  }

  /** What is opened, as the fingerprint lists it: row id and size. */
  function OpenKeys(os: seq<DeltaPlan.OpenItem>): multiset<(string, nat)> {
    if os == [] then multiset{}
    else OpenKeys(os[..|os| - 1]) + multiset{(os[|os| - 1].rowId, os[|os| - 1].cents)}
  }

  function ClosedBy(cs: seq<DeltaPlan.CloseItem>): seq<int> {
    if cs == [] then [] else ClosedBy(cs[..|cs| - 1]) + [cs[|cs| - 1].strategyId]
  }

  function FingerprintOf(d: Decision): Option<Fingerprint> {
    if !d.signal.hasDelta then None
    else Some(Fingerprint(OpenKeys(d.plan.opens), multiset(ClosedBy(d.plan.closes))))
  }

  function Bump(m: map<BlockCode, nat>, code: BlockCode, times: nat): map<BlockCode, nat> {
    if times == 0 then m else m[code := (if code in m then m[code] else 0) + times]
  }

  /** Counters and confirmation. */
  function Count(s: State, d: Decision, ts: int): State {
    var blocked := d.signal.hasDelta && !d.signal.raw;
    var reasons := Bump(Bump(Bump(s.blockReasons, SmallGap, d.plan.smallGaps),
                             AbsDeadband, if d.signal.meetsAbs then 0 else 1),
                        RelDeadband, if d.signal.meetsRel then 0 else 1);
    s.(targetBuckets := s.targetBuckets + (if d.targets != [] then 1 else 0),
       blockedBuckets := s.blockedBuckets + (if blocked then 1 else 0),
       blockReasons := if blocked then reasons else s.blockReasons,
       confirm := Inline(s.confirm, Call(d.signal.raw, FingerprintOf(d), ts as real)))
  }

  predicate Allowed(p: Params, s: State, d: Decision) {
    d.signal.raw && s.confirm.count >= MaxI(1, p.confirmRounds) && !s.halted
  }

  // ----- Execution -----

  function NewPosition(id: int, o: DeltaPlan.OpenItem, src: Scored): Position {
    Position(id, o.rowId, src.row.symbol, src.row.spotSymbol, src.row.perpEx, src.row.spotEx, o.cents,
             MaxR(0.0, src.row.feeRoundTripPct / 2.0), src.row.basisPct, 0)
  }

  function OpenOne(s: State, rows: seq<Scored>, o: DeltaPlan.OpenItem, ts: int): State {
    match FindRow(rows, o.rowId)
    case None => s
    case Some(src) =>
      if o.cents == 0 then s
      else
        var fee := RebalanceSignal.OpenFee(o);
        s.(equity := s.equity - fee, cumFee := s.cumFee + fee, nextId := s.nextId + 1,
           positions := s.positions + [NewPosition(s.nextId, o, src)],
           openCount := s.openCount + 1,
           events := Log(s.events, Event(ts, OpenPair, s.nextId, o.rowId, o.cents, fee)))
  }

  function OpenMany(s: State, rows: seq<Scored>, os: seq<DeltaPlan.OpenItem>, ts: int): State {
    if os == [] then s else OpenOne(OpenMany(s, rows, os[..|os| - 1], ts), rows, os[|os| - 1], ts)
  }

  function CarryOut(s: State, d: Decision, ts: int): State {
    var closed := CloseMany(s.(rebalances := s.rebalances + 1), ClosedBy(d.plan.closes), Close, ts);
    OpenMany(closed, d.rows, d.plan.opens, ts)
  }

  /** Counting, confirming and, when confirmed, carrying out the plan. */
  function Rebalanced(p: Params, s: State, d: Decision, ts: int): State {
    var counted := Count(s, d, ts);
    if Allowed(p, counted, d) then CarryOut(counted, d, ts) else counted
  }

  // ----- Risk stop -----

  function DdPct(equity: real, peak: real): real {
    if peak > 0.0 then (equity / peak - 1.0) * 100.0 else 0.0
  }

  function NotePeak(s: State): State {
    var peak := MaxR(s.peak, s.equity);
    s.(peak := peak, maxDd := MinR(s.maxDd, DdPct(s.equity, peak)))
  }

  function HardStop(s: State, ts: int): State {
    CloseMany(s.(halted := true, hardStops := s.hardStops + 1), PositionIds(s.positions), ForceCloseDrawdown, ts)
  }

  function RiskCheck(p: Params, s: State, ts: int): State {
    var noted := NotePeak(s);
    if s.halted || DdPct(s.equity, noted.peak) > p.ddHardPct then noted else HardStop(noted, ts)
  }

  function OpenCents(ps: seq<Position>): nat {
    if ps == [] then 0 else OpenCents(ps[..|ps| - 1]) + ps[|ps| - 1].cents
  }

  // ----- One bucket, and a whole run -----

  function Publish(before: State, after: State, d: Decision, ts: int): State {
    after.(curve := after.curve + [Sample(ts, after.equity, |after.positions|, OpenCents(after.positions), |d.rows|,
                                          |d.targets|, DdPct(before.equity, after.peak), after.halted)])
  }

  /** The part of a bucket after the decision. */
  function Conclude(p: Params, marked: State, d: Decision, ts: int): State {
    var before := Rebalanced(p, marked, d, ts);
    Publish(before, RiskCheck(p, before, ts), d, ts)
  }

  function Step(w: World, p: Params, mod: Model, s: State, ts: int): State {
    var marked := AfterMark(w, p, s, ts);
    Conclude(p, marked, Decide(w, p, mod, marked, ts), ts)
  }

  /** The equity the bucket's drawdown is measured on: after the rebalance, before a hard stop. */
  function SampledEquity(w: World, p: Params, mod: Model, s: State, ts: int): real {
    var marked := AfterMark(w, p, s, ts);
    Rebalanced(p, marked, Decide(w, p, mod, marked, ts), ts).equity
  }

  function Run(w: World, p: Params, mod: Model, buckets: seq<int>): State {
    if buckets == [] then Init(p)
    else Step(w, p, mod, Run(w, p, mod, buckets[..|buckets| - 1]), buckets[|buckets| - 1])
  }

  /** Closing whatever is open after the last bucket. */
  function Finish(s: State, ts: int): State { CloseMany(s, PositionIds(s.positions), CloseEnd, ts) }

  function Backtested(w: World, p: Params, mod: Model, buckets: seq<int>): State
    requires buckets != []
  {
    Finish(Run(w, p, mod, buckets), buckets[|buckets| - 1])
  }
}

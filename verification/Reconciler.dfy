/** Recovery of untracked spot/perp hedges: exchange holdings that no strategy in the database
    accounts for are paired up and entered as new strategies. */
module Reconciler {
  import opened Arith
  import opened Sorting

  const MIN_BASE: real := 0.000000001
  const MIN_NOTIONAL: real := 8.0
  const RATIO_MIN: real := 0.6
  const RATIO_MAX: real := 1.4

  datatype Status = Active | Closing | Error | Closed | Other

  datatype Strategy = Strategy(id: int, spotHedge: bool, symbol: string, longId: int, shortId: int, status: Status)

  datatype Position = Position(
    strategyId: int, exchangeId: int, symbol: string, spot: bool, short: bool, size: real, isOpen: bool)

  datatype Tables = Tables(strategies: seq<Strategy>, positions: seq<Position>, nextId: int)

  /** A live short perp position, and a live spot holding. */
  datatype PerpRow = PerpRow(exchangeId: int, symbol: string, base: real, notional: real, mark: real)

  datatype SpotRow = SpotRow(exchangeId: int, asset: string, qty: real, price: real)

  datatype Key = Key(exchangeId: int, name: string)

  function UpTo(s: string, c: char): (p: string)
    ensures c !in p && (c !in s ==> p == s)
    ensures forall d :: d in p ==> d in s
  {
    if s == [] || s[0] == c then [] else [s[0]] + UpTo(s[1..], c)
  }

  function BaseAsset(symbol: string): (a: string)
    ensures '/' !in a
  {
    if '/' in symbol then UpTo(symbol, '/') else UpTo(symbol, ':')
  }

  // ----- What the database tracks -----

  predicate Tracks(s: Strategy) { s.spotHedge && (s.status.Active? || s.status.Closing? || s.status.Error?) }

  predicate Tracked(strategies: seq<Strategy>, sid: int) {
    exists i :: 0 <= i < |strategies| && strategies[i].id == sid && Tracks(strategies[i])
  }

  /** The join of open legs with the strategies that track them. */
  predicate Counts(strategies: seq<Strategy>, p: Position) {
    p.isOpen && Tracked(strategies, p.strategyId) && p.exchangeId > 0 && p.size > 0.0
  }

  predicate CountsAsPerp(strategies: seq<Strategy>, p: Position, k: Key) {
    Counts(strategies, p) && !p.spot && p.short && k == Key(p.exchangeId, p.symbol)
  }

  predicate CountsAsSpot(strategies: seq<Strategy>, p: Position, k: Key) {
    Counts(strategies, p) && p.spot && BaseAsset(p.symbol) != "" && k == Key(p.exchangeId, BaseAsset(p.symbol))
  }

  function TrackedPerp(strategies: seq<Strategy>, ps: seq<Position>, k: Key): (q: real)
    ensures q >= 0.0
  {
    if ps == [] then 0.0
    else
      var p := ps[|ps| - 1];
      TrackedPerp(strategies, ps[..|ps| - 1], k) + if CountsAsPerp(strategies, p, k) then p.size else 0.0
  }

  function TrackedSpot(strategies: seq<Strategy>, ps: seq<Position>, k: Key): (q: real)
    ensures q >= 0.0
  {
    if ps == [] then 0.0
    else
      var p := ps[|ps| - 1];
      TrackedSpot(strategies, ps[..|ps| - 1], k) + if CountsAsSpot(strategies, p, k) then p.size else 0.0
  }

  function Perp(t: Tables, k: Key): real { TrackedPerp(t.strategies, t.positions, k) }

  function Spot(t: Tables, k: Key): real { TrackedSpot(t.strategies, t.positions, k) }

  predicate HasOpenLeg(ps: seq<Position>, sid: int) {
    exists i :: 0 <= i < |ps| && ps[i].isOpen && ps[i].strategyId == sid
  }

  function CloseIfEmpty(s: Strategy, ps: seq<Position>): Strategy {
    if s.spotHedge && (s.status.Active? || s.status.Closing?) && s.id > 0 && !HasOpenLeg(ps, s.id)
    then s.(status := Closed) else s
  }

  function CloseEmpty(strategies: seq<Strategy>, ps: seq<Position>): (out: seq<Strategy>)
    ensures |out| == |strategies| && forall i :: 0 <= i < |out| ==> out[i] == CloseIfEmpty(strategies[i], ps)
  {
    if strategies == [] then []
    else CloseEmpty(strategies[..|strategies| - 1], ps) + [CloseIfEmpty(strategies[|strategies| - 1], ps)]
  }

  function ClosedIds(strategies: seq<Strategy>, ps: seq<Position>): seq<int> {
    if strategies == [] then []
    else
      var s := strategies[|strategies| - 1];
      ClosedIds(strategies[..|strategies| - 1], ps) + if CloseIfEmpty(s, ps) != s then [s.id] else []
  }

  // ----- What is untracked -----

  datatype Untracked = Untracked(row: PerpRow, qty: real, notional: real)

  /** An untracked spot holding, drawn down as it is paired. */
  datatype Pool = Pool(exchangeId: int, asset: string, price: real, qty: real, notional: real)

  function PerpResidual(r: PerpRow, tracked: real): Option<Untracked> {
    var qty := MaxR(0.0, r.base - tracked);
    var notional := if r.mark > 0.0 then qty * r.mark else MaxR(0.0, r.notional);
    if qty <= MIN_BASE || notional < MIN_NOTIONAL then None else Some(Untracked(r, qty, notional))
  }

  function UntrackedPerp(t: Tables, r: PerpRow): Option<Untracked> {
    PerpResidual(r, Perp(t, Key(r.exchangeId, r.symbol)))
  }

  function UntrackedPerps(t: Tables, live: seq<PerpRow>): seq<Untracked> {
    if live == [] then []
    else
      var u := UntrackedPerp(t, live[|live| - 1]);
      UntrackedPerps(t, live[..|live| - 1]) + if u.Some? then [u.value] else []
  }

  function SpotResidual(r: SpotRow, tracked: real): Option<Pool> {
    var qty := MaxR(0.0, r.qty - tracked);
    var price := MaxR(0.0, r.price);
    if qty <= MIN_BASE || qty * price < MIN_NOTIONAL then None
    else Some(Pool(r.exchangeId, r.asset, price, qty, qty * price))
  }

  function UntrackedSpot(t: Tables, r: SpotRow): Option<Pool> {
    SpotResidual(r, Spot(t, Key(r.exchangeId, r.asset)))
  }

  function SpotPool(t: Tables, live: seq<SpotRow>): seq<Pool> {
    if live == [] then []
    else
      var u := UntrackedSpot(t, live[|live| - 1]);
      SpotPool(t, live[..|live| - 1]) + if u.Some? then [u.value] else []
  }

  predicate Larger(x: Untracked, y: Untracked) { x.notional > y.notional }

  // ----- Pairing -----

  datatype Candidate = Candidate(index: nat, gap: real, notional: real)

  predicate Closer(x: Candidate, y: Candidate) { x.gap < y.gap || (x.gap == y.gap && x.notional > y.notional) }

  /** How much of the untracked perp the holding would cover. */
  function Ratio(p: Pool, qty: real): real
    requires qty > 0.0
  {
    p.qty / qty
  }

  predicate Eligible(p: Pool, asset: string, qty: real)
    requires qty > 0.0
  {
    p.asset == asset && p.qty > MIN_BASE && RATIO_MIN <= Ratio(p, qty) <= RATIO_MAX
  }

  function CandidateAt(pool: seq<Pool>, j: nat, qty: real): Candidate
    requires j < |pool| && qty > 0.0
  {
    Candidate(j, AbsR(Ratio(pool[j], qty) - 1.0), pool[j].notional)
  }

  function Candidates(pool: seq<Pool>, asset: string, qty: real): seq<Candidate>
    requires qty > 0.0
  {
    if pool == [] then []
    else
      var n := |pool| - 1;
      Candidates(pool[..n], asset, qty) + if Eligible(pool[n], asset, qty) then [CandidateAt(pool, n, qty)] else []
  }

  /** The candidates are the eligible holdings. */
  lemma {:induction false} CandidatesAreEligible(pool: seq<Pool>, asset: string, qty: real)
    requires qty > 0.0
    ensures forall c :: c in Candidates(pool, asset, qty) <==>
      c.index < |pool| && Eligible(pool[c.index], asset, qty) && c == CandidateAt(pool, c.index, qty)
  {
    if pool != [] {
      var n := |pool| - 1;
      CandidatesAreEligible(pool[..n], asset, qty);
      hide Ratio, AbsR, Eligible;
      assert forall j :: 0 <= j < n ==> CandidateAt(pool[..n], j, qty) == CandidateAt(pool, j, qty);
    }
  }

  /** Where the best spot holding for an untracked perp sits in the pool. */
  function BestCandidate(pool: seq<Pool>, asset: string, qty: real): (best: Option<nat>)
    requires qty > 0.0
    ensures best.Some? ==> best.value < |pool| && Eligible(pool[best.value], asset, qty)
    ensures best.None? <==> forall j :: 0 <= j < |pool| ==> !Eligible(pool[j], asset, qty)
  {
    var cs := Candidates(pool, asset, qty);
    CandidatesAreEligible(pool, asset, qty);
    SortMultiset(cs, Closer);
    if cs == [] then
      assert forall j :: 0 <= j < |pool| && Eligible(pool[j], asset, qty) ==> CandidateAt(pool, j, qty) in cs;
      None
    else
      assert Sort(cs, Closer)[0] in multiset(cs);
      Some(Sort(cs, Closer)[0].index)
  }

  predicate SameHedge(s: Strategy, symbol: string, longId: int, shortId: int) {
    Tracks(s) && s.symbol == symbol && s.longId == longId && s.shortId == shortId
  }

  /** An open strategy already holds that pair. */
  predicate AlreadyTracked(t: Tables, symbol: string, longId: int, shortId: int) {
    exists i :: 0 <= i < |t.strategies| && SameHedge(t.strategies[i], symbol, longId, shortId)
                && HasOpenLeg(t.positions, t.strategies[i].id)
  }

  datatype Pair = Pair(strategyId: int, symbol: string, longId: int, shortId: int, asset: string, base: real)

  function Enter(t: Tables, p: Pair): Tables {
    Tables(t.strategies + [Strategy(p.strategyId, true, p.symbol, p.longId, p.shortId, Active)],
           t.positions + [Position(p.strategyId, p.longId, p.asset + "/USDT", true, false, p.base, true)]
           + [Position(p.strategyId, p.shortId, p.symbol, false, true, p.base, true)],
           t.nextId + 1)
  }

  function Consume(p: Pool, base: real): Pool {
    var qty := MaxR(0.0, p.qty - base);
    p.(qty := qty, notional := MaxR(0.0, qty * MaxR(0.0, p.price)))
  }

  datatype Progress = Progress(t: Tables, pool: seq<Pool>, pairs: seq<Pair>)

  /** The pair recovered for an untracked perp, if any, and the pool entry it draws on. */
  function Match(r: Progress, exchanges: set<int>, u: Untracked): (m: Option<(nat, Pair)>)
    ensures m.Some? ==> m.value.0 < |r.pool| && u.qty > 0.0
  {
    var asset := BaseAsset(u.row.symbol);
    if u.row.exchangeId <= 0 || u.row.symbol == "" || asset == "" || u.qty <= MIN_BASE then None
    else
      var best := BestCandidate(r.pool, asset, u.qty);
      if best.None? then None
      else
        var spot := r.pool[best.value];
        var base := MinR(u.qty, spot.qty);
        if spot.exchangeId <= 0 || AlreadyTracked(r.t, u.row.symbol, spot.exchangeId, u.row.exchangeId)
           || base <= MIN_BASE || (spot.price <= 0.0 && u.row.mark <= 0.0)
           || spot.exchangeId !in exchanges || u.row.exchangeId !in exchanges
        then None
        else Some((best.value, Pair(r.t.nextId, u.row.symbol, spot.exchangeId, u.row.exchangeId, asset, base)))
  }

  function Recover(r: Progress, exchanges: set<int>, u: Untracked): Progress {
    var m := Match(r, exchanges, u);
    if m.None? then r
    else
      var (i, p) := m.value;
      Progress(Enter(r.t, p), r.pool[i := Consume(r.pool[i], p.base)], r.pairs + [p])
  }

  function RecoverAll(r: Progress, exchanges: set<int>, us: seq<Untracked>): Progress {
    if us == [] then r else Recover(RecoverAll(r, exchanges, us[..|us| - 1]), exchanges, us[|us| - 1])
  }

  /** What one cycle sees on the exchanges; an exception may end it before row `failAt`. */
  datatype Scan = Scan(perps: seq<PerpRow>, spots: seq<SpotRow>, exchanges: set<int>, failAt: Option<nat>)

  function Cleaned(t: Tables): Tables { t.(strategies := CloseEmpty(t.strategies, t.positions)) }

  function Start(t: Tables, scan: Scan): Progress { Progress(Cleaned(t), SpotPool(Cleaned(t), scan.spots), []) }

  function UpToFailure(us: seq<Untracked>, failAt: Option<nat>): seq<Untracked> {
    if failAt.Some? && failAt.value < |us| then us[..failAt.value] else us
  }

  /** The untracked perps the cycle gets to, largest first. */
  function Work(t: Tables, scan: Scan): seq<Untracked> {
    UpToFailure(Sort(UntrackedPerps(Cleaned(t), scan.perps), Larger), scan.failAt)
  }

  /** One cycle. Each pair is committed on its own, so an exception keeps those before it. */
  function Cycle(t: Tables, scan: Scan): Progress { RecoverAll(Start(t, scan), scan.exchanges, Work(t, scan)) }

  // ----- The program -----

  class Store {
    var strategies: seq<Strategy>
    var positions: seq<Position>
    var nextId: int

    constructor (t: Tables)
      ensures State() == t
    {
      strategies, positions, nextId := t.strategies, t.positions, t.nextId;
    }

    function State(): Tables
      reads this
    {
      Tables(strategies, positions, nextId)
    }

    method CloseWithoutOpenLegs() returns (closed: seq<int>)
      modifies this`strategies
      ensures State() == Cleaned(old(State())) && closed == ClosedIds(old(strategies), positions)
    {
      ghost var was := strategies;
      hide HasOpenLeg, CloseEmpty;
      closed := [];
      for i := 0 to |strategies|
        invariant |strategies| == |was|
        invariant forall j :: 0 <= j < |was| ==>
          strategies[j] == if j < i then CloseIfEmpty(was[j], positions) else was[j]
        invariant closed == ClosedIds(was[..i], positions)
      {
        assert was[..i + 1][..i] == was[..i];
        var s := strategies[i];
        if s.spotHedge && (s.status.Active? || s.status.Closing?) && s.id > 0 && !HasOpenLeg(positions, s.id) {
          strategies := strategies[i := s.(status := Closed)];
          closed := closed + [s.id];
        }
      }
      assert was[..|was|] == was;
      assert strategies == CloseEmpty(was, positions);
    }

    /** The tracked quantities by key, gathered in one pass over the open legs. */
    method LoadTrackedOpenLegs() returns (perp: map<Key, real>, spot: map<Key, real>)
      ensures forall k :: Get(perp, k) == Perp(State(), k)
      ensures forall k :: Get(spot, k) == Spot(State(), k)
    {
      perp, spot := map[], map[];
      for i := 0 to |positions|
        invariant forall k :: Get(perp, k) == TrackedPerp(strategies, positions[..i], k)
        invariant forall k :: Get(spot, k) == TrackedSpot(strategies, positions[..i], k)
      {
        assert positions[..i + 1][..i] == positions[..i];
        var p := positions[i];
        if !p.isOpen || !Tracked(strategies, p.strategyId) || p.exchangeId <= 0 || p.size <= 0.0 {
          continue;
        }
        if p.spot {
          var asset := BaseAsset(p.symbol);
          if asset != "" {
            var k := Key(p.exchangeId, asset);
            spot := spot[k := Get(spot, k) + p.size];
          }
        } else if p.short {
          var k := Key(p.exchangeId, p.symbol);
          perp := perp[k := Get(perp, k) + p.size];
        }
      }
      assert positions[..|positions|] == positions;
    }

    method FindUntracked(scan: Scan) returns (us: seq<Untracked>, pool: seq<Pool>)
      ensures us == UntrackedPerps(State(), scan.perps) && pool == SpotPool(State(), scan.spots)
    {
      var perp, spot := LoadTrackedOpenLegs();
      us, pool := [], [];
      for i := 0 to |scan.perps|
        invariant us == UntrackedPerps(State(), scan.perps[..i])
      {
        assert scan.perps[..i + 1][..i] == scan.perps[..i];
        var r := scan.perps[i];
        assert Get(perp, Key(r.exchangeId, r.symbol)) == Perp(State(), Key(r.exchangeId, r.symbol)) >= 0.0;
        var u := PerpResidual(r, MaxR(0.0, Get(perp, Key(r.exchangeId, r.symbol))));
        us := us + if u.Some? then [u.value] else [];
      }
      assert scan.perps[..|scan.perps|] == scan.perps;
      for i := 0 to |scan.spots|
        invariant pool == SpotPool(State(), scan.spots[..i])
      {
        assert scan.spots[..i + 1][..i] == scan.spots[..i];
        var r := scan.spots[i];
        assert Get(spot, Key(r.exchangeId, r.asset)) == Spot(State(), Key(r.exchangeId, r.asset)) >= 0.0;
        var u := SpotResidual(r, MaxR(0.0, Get(spot, Key(r.exchangeId, r.asset))));
        pool := pool + if u.Some? then [u.value] else [];
      }
      assert scan.spots[..|scan.spots|] == scan.spots;
    }

    /** Pairs one untracked perp; the two legs and their strategy are committed together. */
    method RecoverOne(pool: seq<Pool>, exchanges: set<int>, u: Untracked, ghost pairs: seq<Pair>)
      returns (pool': seq<Pool>, pair: Option<Pair>)
      modifies this
      ensures Progress(State(), pool', pairs + if pair.Some? then [pair.value] else []) ==
        Recover(Progress(old(State()), pool, pairs), exchanges, u)
    {
      pool', pair := pool, None;
      var asset := BaseAsset(u.row.symbol);
      if u.row.exchangeId <= 0 || u.row.symbol == "" || asset == "" || u.qty <= MIN_BASE {
        return;
      }
      var best := BestCandidate(pool, asset, u.qty);
      if best.None? {
        return;
      }
      var spot := pool[best.value];
      if spot.exchangeId <= 0 || AlreadyTracked(State(), u.row.symbol, spot.exchangeId, u.row.exchangeId) {
        return;
      }
      var base := MinR(u.qty, spot.qty);
      if base <= MIN_BASE || (spot.price <= 0.0 && u.row.mark <= 0.0) {
        return;
      }
      if spot.exchangeId !in exchanges || u.row.exchangeId !in exchanges {
        return;
      }
      var id := nextId;
      nextId := nextId + 1;
      strategies := strategies + [Strategy(id, true, u.row.symbol, spot.exchangeId, u.row.exchangeId, Active)];
      positions := positions + [Position(id, spot.exchangeId, asset + "/USDT", true, false, base, true)];
      positions := positions + [Position(id, u.row.exchangeId, u.row.symbol, false, true, base, true)];
      pool' := pool[best.value := Consume(spot, base)];
      pair := Some(Pair(id, u.row.symbol, spot.exchangeId, u.row.exchangeId, asset, base));
    }

    method RecoverRows(us: seq<Untracked>, pool: seq<Pool>, exchanges: set<int>, failAt: Option<nat>)
      returns (pairs: seq<Pair>)
      modifies this
      ensures var r := RecoverAll(Progress(old(State()), pool, []), exchanges, UpToFailure(us, failAt));
        State() == r.t && pairs == r.pairs
    {
      var left := pool;
      pairs := [];
      for i := 0 to |us|
        invariant failAt.Some? ==> i <= failAt.value
        invariant Progress(State(), left, pairs) == RecoverAll(Progress(old(State()), pool, []), exchanges, us[..i])
      {
        if failAt == Some(i) {
          return;
        }
        assert us[..i + 1][..i] == us[..i];
        var pair: Option<Pair>;
        left, pair := RecoverOne(left, exchanges, us[i], pairs);
        pairs := pairs + if pair.Some? then [pair.value] else [];
      }
      assert us[..|us|] == us;
    }

    method RunReconcileCycle(scan: Scan) returns (pairs: seq<Pair>)
      modifies this
      ensures State() == Cycle(old(State()), scan).t && pairs == Cycle(old(State()), scan).pairs
    {
      hide RecoverAll, Recover, CloseEmpty;
      var closed := CloseWithoutOpenLegs();
      var us, pool := FindUntracked(scan);
      pairs := RecoverRows(Sort(us, Larger), pool, scan.exchanges, scan.failAt);
    }
  }
}

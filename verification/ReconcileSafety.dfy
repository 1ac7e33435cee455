/** Reconciliation never tracks more than the exchanges hold, however often it runs or wherever it fails. */
module ReconcileSafety {
  import opened Arith
  import opened Sorting
  import opened Reconciler

  /** Strategy ids are distinct, and no leg refers to an id not yet given out. */
  ghost predicate Sound(t: Tables) {
    && (forall i, j :: 0 <= i < j < |t.strategies| ==> t.strategies[i].id != t.strategies[j].id)
    && (forall i :: 0 <= i < |t.strategies| ==> t.strategies[i].id < t.nextId)
    && (forall i :: 0 <= i < |t.positions| ==> t.positions[i].strategyId < t.nextId)
  }

  function PerpKey(r: PerpRow): Key { Key(r.exchangeId, r.symbol) }

  function SpotKey(r: SpotRow): Key { Key(r.exchangeId, r.asset) }

  function PoolKey(p: Pool): Key { Key(p.exchangeId, p.asset) }

  /** Live quantities, zero where the exchange reports nothing. */
  function LivePerp(rows: seq<PerpRow>, k: Key): real {
    if rows == [] then 0.0
    else if PerpKey(rows[|rows| - 1]) == k then rows[|rows| - 1].base
    else LivePerp(rows[..|rows| - 1], k)
  }

  function LiveSpot(rows: seq<SpotRow>, k: Key): real {
    if rows == [] then 0.0
    else if SpotKey(rows[|rows| - 1]) == k then rows[|rows| - 1].qty
    else LiveSpot(rows[..|rows| - 1], k)
  }

  /** The live rows are gathered per key. */
  ghost predicate DistinctScan(scan: Scan) {
    && (forall i, j :: 0 <= i < j < |scan.perps| ==> PerpKey(scan.perps[i]) != PerpKey(scan.perps[j]))
    && (forall i, j :: 0 <= i < j < |scan.spots| ==> SpotKey(scan.spots[i]) != SpotKey(scan.spots[j]))
  }

  lemma {:induction false} LivePerpAt(rows: seq<PerpRow>, i: nat)
    requires i < |rows| && forall i, j :: 0 <= i < j < |rows| ==> PerpKey(rows[i]) != PerpKey(rows[j])
    ensures LivePerp(rows, PerpKey(rows[i])) == rows[i].base
  {
    if i < |rows| - 1 {
      LivePerpAt(rows[..|rows| - 1], i);
    }
  }

  lemma {:induction false} LiveSpotAt(rows: seq<SpotRow>, i: nat)
    requires i < |rows| && forall i, j :: 0 <= i < j < |rows| ==> SpotKey(rows[i]) != SpotKey(rows[j])
    ensures LiveSpot(rows, SpotKey(rows[i])) == rows[i].qty
  {
    if i < |rows| - 1 {
      LiveSpotAt(rows[..|rows| - 1], i);
    }
  }

  // ----- Closing empty strategies -----

  lemma {:induction false} OpenLegKeepsTracking(ss: seq<Strategy>, ps: seq<Position>, p: Position)
    requires p in ps && p.isOpen
    ensures Tracked(CloseEmpty(ss, ps), p.strategyId) == Tracked(ss, p.strategyId)
  {
    var i :| 0 <= i < |ps| && ps[i] == p;
    assert HasOpenLeg(ps, p.strategyId);
    var out := CloseEmpty(ss, ps);
    if j :| 0 <= j < |ss| && ss[j].id == p.strategyId && Tracks(ss[j]) {
      assert out[j] == ss[j];
    }
    if j :| 0 <= j < |out| && out[j].id == p.strategyId && Tracks(out[j]) {
      assert out[j] == ss[j];
    }
  }

  lemma {:induction false} CloseEmptyTracked(ss: seq<Strategy>, ps: seq<Position>, qs: seq<Position>, k: Key)
    requires forall p :: p in qs ==> p in ps
    ensures TrackedPerp(CloseEmpty(ss, ps), qs, k) == TrackedPerp(ss, qs, k)
    ensures TrackedSpot(CloseEmpty(ss, ps), qs, k) == TrackedSpot(ss, qs, k)
  {
    if qs != [] {
      var n := |qs| - 1;
      CloseEmptyTracked(ss, ps, qs[..n], k);
      if qs[n].isOpen {
        OpenLegKeepsTracking(ss, ps, qs[n]);
      }
    }
  }

  /** Closing strategies without open legs changes no tracked quantity. */
  lemma {:induction false} CleaningKeepsTracked(t: Tables, k: Key)
    ensures Perp(Cleaned(t), k) == Perp(t, k) && Spot(Cleaned(t), k) == Spot(t, k)
    ensures Sound(t) ==> Sound(Cleaned(t))
  {
    CloseEmptyTracked(t.strategies, t.positions, t.positions, k);
  }

  // ----- Entering a pair -----

  lemma {:induction false} AssetOfSpotSymbol(asset: string)
    requires '/' !in asset
    ensures BaseAsset(asset + "/USDT") == asset
  {
    assert (asset + "/USDT")[|asset|] == '/';
    UpToSlash(asset, "USDT");
    assert asset + "/" + "USDT" == asset + "/USDT";
  }

  lemma {:induction false} UpToSlash(a: string, rest: string)
    requires '/' !in a
    ensures UpTo(a + "/" + rest, '/') == a
  {
    if a == [] {
      assert (a + "/" + rest)[0] == '/';
    } else {
      assert (a + "/" + rest)[1..] == a[1..] + "/" + rest;
      assert (a + "/" + rest)[0] == a[0] && a[0] in a;
      UpToSlash(a[1..], rest);
      assert a == [a[0]] + a[1..];
    }
  }

  lemma {:induction false} OldLegsCountTheSame(ss: seq<Strategy>, s: Strategy, ps: seq<Position>, k: Key)
    requires forall i :: 0 <= i < |ps| ==> ps[i].strategyId != s.id
    ensures TrackedPerp(ss + [s], ps, k) == TrackedPerp(ss, ps, k)
    ensures TrackedSpot(ss + [s], ps, k) == TrackedSpot(ss, ps, k)
  {
    if ps != [] {
      var n := |ps| - 1;
      OldLegsCountTheSame(ss, s, ps[..n], k);
      var sid := ps[n].strategyId;
      if i :| 0 <= i < |ss| && ss[i].id == sid && Tracks(ss[i]) {
        assert (ss + [s])[i] == ss[i];
      }
    }
  }

  predicate Enterable(t: Tables, p: Pair) {
    p.strategyId == t.nextId && p.base > 0.0 && p.longId > 0 && p.shortId > 0 && p.asset != "" && '/' !in p.asset
  }

  /** Entering a pair raises the tracked quantity of its perp key and its spot key by its base, and no other. */
  lemma {:induction false} EnterTracks(t: Tables, p: Pair, k: Key)
    requires Sound(t) && Enterable(t, p)
    ensures Perp(Enter(t, p), k) == Perp(t, k) + if k == Key(p.shortId, p.symbol) then p.base else 0.0
    ensures Spot(Enter(t, p), k) == Spot(t, k) + if k == Key(p.longId, p.asset) then p.base else 0.0
    ensures Sound(Enter(t, p))
  {
    var s := Strategy(p.strategyId, true, p.symbol, p.longId, p.shortId, Active);
    var ss := t.strategies + [s];
    var a := Position(p.strategyId, p.longId, p.asset + "/USDT", true, false, p.base, true);
    var b := Position(p.strategyId, p.shortId, p.symbol, false, true, p.base, true);
    OldLegsCountTheSame(t.strategies, s, t.positions, k);
    assert ss[|t.strategies|] == s;
    assert Tracked(ss, p.strategyId);
    AssetOfSpotSymbol(p.asset);
    hide BaseAsset, Tracked;
    SumSnoc(ss, t.positions, a, k);
    SumSnoc(ss, t.positions + [a], b, k);
  }

  lemma {:induction false} SumSnoc(ss: seq<Strategy>, ps: seq<Position>, p: Position, k: Key)
    ensures TrackedPerp(ss, ps + [p], k) == TrackedPerp(ss, ps, k) + if CountsAsPerp(ss, p, k) then p.size else 0.0
    ensures TrackedSpot(ss, ps + [p], k) == TrackedSpot(ss, ps, k) + if CountsAsSpot(ss, p, k) then p.size else 0.0
  {
    assert (ps + [p])[..|ps|] == ps;
  }

  // ----- Room for what is still untracked -----

  ghost predicate PerpRoom(t: Tables, perps: seq<PerpRow>, us: seq<Untracked>) {
    && (forall i, j :: 0 <= i < j < |us| ==> PerpKey(us[i].row) != PerpKey(us[j].row))
    && (forall i :: 0 <= i < |us| ==> Perp(t, PerpKey(us[i].row)) + us[i].qty <= LivePerp(perps, PerpKey(us[i].row)))
  }

  ghost predicate SpotRoom(t: Tables, spots: seq<SpotRow>, pool: seq<Pool>) {
    && (forall i, j :: 0 <= i < j < |pool| ==> PoolKey(pool[i]) != PoolKey(pool[j]))
    && (forall i :: 0 <= i < |pool| ==> 0.0 <= pool[i].qty)
    && (forall i :: 0 <= i < |pool| ==> Spot(t, PoolKey(pool[i])) + pool[i].qty <= LiveSpot(spots, PoolKey(pool[i])))
  }

  lemma {:induction false} UntrackedFits(t: Tables, perps: seq<PerpRow>, rows: seq<PerpRow>)
    requires forall i, j :: 0 <= i < j < |perps| ==> PerpKey(perps[i]) != PerpKey(perps[j])
    requires |rows| <= |perps| && rows == perps[..|rows|]
    ensures PerpRoom(t, perps, UntrackedPerps(t, rows))
    ensures forall u :: u in UntrackedPerps(t, rows) ==> u.row in rows
  {
    if rows != [] {
      var n := |rows| - 1;
      UntrackedFits(t, perps, rows[..n]);
      LivePerpAt(perps, n);
      var us, u := UntrackedPerps(t, rows[..n]), UntrackedPerp(t, rows[n]);
      hide LivePerp, Perp;
      assert rows[n] == perps[n];
      forall i | 0 <= i < |us| ensures PerpKey(us[i].row) != PerpKey(rows[n]) {
        assert us[i] in us;
        var j :| 0 <= j < n && rows[..n][j] == us[i].row;
        assert us[i].row == perps[j];
      }
      assert rows == rows[..n] + [rows[n]];
    }
  }

  lemma {:induction false} PoolFits(t: Tables, spots: seq<SpotRow>, rows: seq<SpotRow>)
    requires forall i, j :: 0 <= i < j < |spots| ==> SpotKey(spots[i]) != SpotKey(spots[j])
    requires |rows| <= |spots| && rows == spots[..|rows|]
    ensures SpotRoom(t, spots, SpotPool(t, rows))
    ensures forall p :: p in SpotPool(t, rows) ==> exists i :: 0 <= i < |rows| && SpotKey(rows[i]) == PoolKey(p)
  {
    if rows != [] {
      var n := |rows| - 1;
      PoolFits(t, spots, rows[..n]);
      LiveSpotAt(spots, n);
      var pool, u := SpotPool(t, rows[..n]), UntrackedSpot(t, rows[n]);
      hide LiveSpot, Spot;
      assert rows[n] == spots[n];
      forall p | p in pool
        ensures PoolKey(p) != SpotKey(rows[n]) && exists i :: 0 <= i < |rows| && SpotKey(rows[i]) == PoolKey(p)
      {
        var j :| 0 <= j < n && SpotKey(rows[..n][j]) == PoolKey(p);
        assert rows[j] == spots[j];
      }
    }
  }

  lemma {:induction false} RoomPermutes(t: Tables, perps: seq<PerpRow>, a: seq<Untracked>, b: seq<Untracked>)
    requires PerpRoom(t, perps, a) && multiset(a) == multiset(b)
    ensures PerpRoom(t, perps, b)
  {
    hide Perp, LivePerp;
    assert forall u :: u in a <==> u in multiset(a);
    assert forall u :: u in b <==> u in multiset(b);
    forall i, j | 0 <= i < j < |b| ensures PerpKey(b[i].row) != PerpKey(b[j].row) {
      assert b[i] in a && b[j] in a;
      if PerpKey(b[i].row) == PerpKey(b[j].row) {
        assert b[i] == b[j];
        CountTwice(b, i, j);
        DistinctCounts(a, b[i]);
      }
    }
    forall i | 0 <= i < |b| ensures Perp(t, PerpKey(b[i].row)) + b[i].qty <= LivePerp(perps, PerpKey(b[i].row)) {
      assert b[i] in a;
    }
  }

  // ----- One pair -----

  /** A pair covers at least 60% of the untracked perp it was made for, and never more than all of it. */
  predicate Covers(p: Pair, u: Untracked) {
    p.symbol == u.row.symbol && p.shortId == u.row.exchangeId && 0.6 * u.qty <= p.base <= u.qty
  }

  lemma {:induction false} RatioCovers(q: real, qty: real)
    requires qty > 0.0 && q / qty >= 0.6
    ensures q >= 0.6 * qty
  {}

  lemma {:induction false} MatchIsSound(r: Progress, exchanges: set<int>, u: Untracked)
    requires Match(r, exchanges, u).Some?
    ensures var (i, p) := Match(r, exchanges, u).value;
      && Enterable(r.t, p) && Covers(p, u)
      && PoolKey(r.pool[i]) == Key(p.longId, p.asset) && p.base <= r.pool[i].qty
      && !AlreadyTracked(r.t, p.symbol, p.longId, p.shortId)
  {
    var asset := BaseAsset(u.row.symbol);
    var best := BestCandidate(r.pool, asset, u.qty);
    RatioCovers(r.pool[best.value].qty, u.qty);
    hide BaseAsset, BestCandidate, AlreadyTracked;
  }

  /** What one recovery step may do: nothing, or enter one covering pair from the pool. */
  lemma {:induction false} RecoverFits(r: Progress, exchanges: set<int>, u: Untracked, perps: seq<PerpRow>,
                                       spots: seq<SpotRow>, k: Key)
    requires Sound(r.t) && SpotRoom(r.t, spots, r.pool)
    requires Perp(r.t, PerpKey(u.row)) + u.qty <= LivePerp(perps, PerpKey(u.row))
    ensures var q := Recover(r, exchanges, u);
      && Sound(q.t) && SpotRoom(q.t, spots, q.pool)
      && Perp(r.t, k) <= Perp(q.t, k) && (k != PerpKey(u.row) ==> Perp(q.t, k) == Perp(r.t, k))
      && (k == PerpKey(u.row) ==> Perp(q.t, k) <= MaxR(Perp(r.t, k), LivePerp(perps, k)))
      && Spot(r.t, k) <= Spot(q.t, k) <= MaxR(Spot(r.t, k), LiveSpot(spots, k))
  {
    if Match(r, exchanges, u).Some? {
      var (i, p) := Match(r, exchanges, u).value;
      MatchIsSound(r, exchanges, u);
      EnterTracks(r.t, p, k);
      forall j | 0 <= j < |r.pool|
        ensures Spot(Enter(r.t, p), PoolKey(r.pool[j])) ==
                Spot(r.t, PoolKey(r.pool[j])) + if PoolKey(r.pool[j]) == Key(p.longId, p.asset) then p.base else 0.0
      {
        EnterTracks(r.t, p, PoolKey(r.pool[j]));
      }
      hide Match, Perp, Spot, LivePerp, LiveSpot, Enter, Sound;
    }
  }

  /** Over any list of untracked perps that fit. */
  lemma {:induction false} RecoverAllFits(r: Progress, exchanges: set<int>, us: seq<Untracked>, perps: seq<PerpRow>,
                                          spots: seq<SpotRow>, k: Key)
    requires Sound(r.t) && SpotRoom(r.t, spots, r.pool) && PerpRoom(r.t, perps, us)
    ensures var q := RecoverAll(r, exchanges, us);
      && Sound(q.t) && SpotRoom(q.t, spots, q.pool)
      && Perp(r.t, k) <= Perp(q.t, k) <= MaxR(Perp(r.t, k), LivePerp(perps, k))
      && ((forall i :: 0 <= i < |us| ==> PerpKey(us[i].row) != k) ==> Perp(q.t, k) == Perp(r.t, k))
      && Spot(r.t, k) <= Spot(q.t, k) <= MaxR(Spot(r.t, k), LiveSpot(spots, k))
    decreases |us|
  {
    hide Recover, Perp, Spot, LivePerp, LiveSpot, Sound, SpotRoom;
    if us != [] {
      var n := |us| - 1;
      RecoverAllFits(r, exchanges, us[..n], perps, spots, k);
      RecoverAllFits(r, exchanges, us[..n], perps, spots, PerpKey(us[n].row));
      RecoverFits(RecoverAll(r, exchanges, us[..n]), exchanges, us[n], perps, spots, k);
    }
  }

  /** For every key: a cycle never lowers what is tracked, and never lifts it above what the exchange
      holds. So tracked <= live stays true, wherever in its work the cycle fails. */
  lemma {:induction false} ReconcileNeverOverTracks(t: Tables, scan: Scan, k: Key)
    requires Sound(t) && DistinctScan(scan)
    ensures var u := Cycle(t, scan).t;
      && Sound(u)
      && Perp(t, k) <= Perp(u, k) <= MaxR(Perp(t, k), LivePerp(scan.perps, k))
      && Spot(t, k) <= Spot(u, k) <= MaxR(Spot(t, k), LiveSpot(scan.spots, k))
  {
    CleaningKeepsTracked(t, k);
    WorkFits(t, scan);
    hide RecoverAll, Perp, Spot, LivePerp, LiveSpot, Sound, SpotRoom, PerpRoom, Work, Cleaned, SpotPool, DistinctScan;
    RecoverAllFits(Start(t, scan), scan.exchanges, Work(t, scan), scan.perps, scan.spots, k);
  }

  /** At the start of the work there is room for every untracked perp and every pool entry. */
  lemma {:induction false} WorkFits(t: Tables, scan: Scan)
    requires DistinctScan(scan)
    ensures PerpRoom(Cleaned(t), scan.perps, Work(t, scan))
    ensures SpotRoom(Cleaned(t), scan.spots, SpotPool(Cleaned(t), scan.spots))
  {
    var c := Cleaned(t);
    UntrackedFits(c, scan.perps, scan.perps);
    PoolFits(c, scan.spots, scan.spots);
    var all := UntrackedPerps(c, scan.perps);
    SortMultiset(all, Larger);
    hide PerpRoom, SpotRoom, Cleaned, UntrackedPerps, SpotPool, Sort, UpToFailure;
    RoomPermutes(c, scan.perps, all, Sort(all, Larger));
    RoomOfPrefix(c, scan.perps, Sort(all, Larger), scan.failAt);
  }

  lemma {:induction false} RoomOfPrefix(t: Tables, perps: seq<PerpRow>, us: seq<Untracked>, failAt: Option<nat>)
    requires PerpRoom(t, perps, us)
    ensures PerpRoom(t, perps, UpToFailure(us, failAt))
  {}

  /** The tracked tables fit the exchanges. */
  ghost predicate WithinLive(t: Tables, scan: Scan) {
    forall k :: Perp(t, k) <= LivePerp(scan.perps, k) && Spot(t, k) <= LiveSpot(scan.spots, k)
  }

  lemma {:induction false} WithinLiveIsKept(t: Tables, scan: Scan)
    requires Sound(t) && DistinctScan(scan) && WithinLive(t, scan)
    ensures WithinLive(Cycle(t, scan).t, scan)
  {
    hide Cycle, Perp, Spot, LivePerp, LiveSpot;
    forall k
      ensures Perp(Cycle(t, scan).t, k) <= LivePerp(scan.perps, k)
      ensures Spot(Cycle(t, scan).t, k) <= LiveSpot(scan.spots, k)
    {
      ReconcileNeverOverTracks(t, scan, k);
      assert Perp(t, k) <= LivePerp(scan.perps, k);
    }
  }

  // ----- The pairs of a cycle -----

  function EnterAll(t: Tables, ps: seq<Pair>): Tables {
    if ps == [] then t else Enter(EnterAll(t, ps[..|ps| - 1]), ps[|ps| - 1])
  }

  /** What a cycle adds is its recovered pairs, each with two legs of equal size, covering at least 60%
      of some untracked perp. */
  lemma {:induction false} PairsCoverTheirPerps(r: Progress, exchanges: set<int>, us: seq<Untracked>)
    requires r.pairs == []
    ensures var q := RecoverAll(r, exchanges, us);
      && q.t == EnterAll(r.t, q.pairs)
      && forall i :: 0 <= i < |q.pairs| ==> exists j :: 0 <= j < |us| && Covers(q.pairs[i], us[j])
  {
    if us != [] {
      var n := |us| - 1;
      PairsCoverTheirPerps(r, exchanges, us[..n]);
      var mid, q := RecoverAll(r, exchanges, us[..n]), RecoverAll(r, exchanges, us);
      PairOfStep(r.t, mid, exchanges, us[n]);
      hide RecoverAll, Recover, Covers, EnterAll;
      forall i | 0 <= i < |q.pairs| ensures exists j :: 0 <= j < |us| && Covers(q.pairs[i], us[j]) {
        if i < |mid.pairs| {
          var j :| 0 <= j < n && Covers(mid.pairs[i], us[..n][j]);
          assert Covers(q.pairs[i], us[j]);
        } else {
          assert Covers(q.pairs[i], us[n]);
        }
      }
    }
  }

  /** One step adds at most one pair, and that one covers the perp of the step. */
  lemma {:induction false} PairOfStep(t: Tables, r: Progress, exchanges: set<int>, u: Untracked)
    requires r.t == EnterAll(t, r.pairs)
    ensures var q := Recover(r, exchanges, u);
      && q.t == EnterAll(t, q.pairs) && r.pairs <= q.pairs
      && forall i :: |r.pairs| <= i < |q.pairs| ==> Covers(q.pairs[i], u)
  {
    if Match(r, exchanges, u).Some? {
      MatchIsSound(r, exchanges, u);
      var (_, p) := Match(r, exchanges, u).value;
      EnterAllSnoc(t, r.pairs, p);
      hide Match, Enter, EnterAll, Covers;
    }
  }

  lemma {:induction false} EnterAllSnoc(t: Tables, ps: seq<Pair>, p: Pair)
    ensures EnterAll(t, ps + [p]) == Enter(EnterAll(t, ps), p)
  {
    hide Enter;
    assert (ps + [p])[..|ps|] == ps;
  }

  /** No two open strategies hold the same pair. */
  ghost predicate OneOpenEach(t: Tables) {
    forall i, j :: 0 <= i < j < |t.strategies| && Open(t, i) && Open(t, j) ==>
      !SamePair(t.strategies[i], t.strategies[j])
  }

  predicate Open(t: Tables, i: nat)
    requires i < |t.strategies|
  {
    Tracks(t.strategies[i]) && HasOpenLeg(t.positions, t.strategies[i].id)
  }

  predicate SamePair(a: Strategy, b: Strategy) {
    a.symbol == b.symbol && a.longId == b.longId && a.shortId == b.shortId
  }

  lemma {:induction false} EnterKeepsOneOpen(t: Tables, p: Pair)
    requires Sound(t) && OneOpenEach(t) && p.strategyId == t.nextId
    requires !AlreadyTracked(t, p.symbol, p.longId, p.shortId)
    ensures OneOpenEach(Enter(t, p))
  {
    var u := Enter(t, p);
    forall i | 0 <= i < |t.strategies| && Open(u, i) ensures Open(t, i) {
      var j :| 0 <= j < |u.positions| && u.positions[j].isOpen && u.positions[j].strategyId == u.strategies[i].id;
      assert t.positions[j].isOpen;
    }
    forall i, j | 0 <= i < j < |u.strategies| && Open(u, i) && Open(u, j)
      ensures !SamePair(u.strategies[i], u.strategies[j])
    {
      assert Open(t, i);
      if j == |t.strategies| && SamePair(u.strategies[i], u.strategies[j]) {
        assert SameHedge(t.strategies[i], p.symbol, p.longId, p.shortId);
      }
    }
  }

  lemma {:induction false} RecoverAllKeepsOneOpen(r: Progress, exchanges: set<int>, us: seq<Untracked>)
    requires Sound(r.t) && OneOpenEach(r.t)
    ensures Sound(RecoverAll(r, exchanges, us).t) && OneOpenEach(RecoverAll(r, exchanges, us).t)
  {
    if us != [] {
      var n := |us| - 1;
      RecoverAllKeepsOneOpen(r, exchanges, us[..n]);
      var mid := RecoverAll(r, exchanges, us[..n]);
      if Match(mid, exchanges, us[n]).Some? {
        var (_, p) := Match(mid, exchanges, us[n]).value;
        MatchIsSound(mid, exchanges, us[n]);
        EnterTracks(mid.t, p, Key(0, ""));
        EnterKeepsOneOpen(mid.t, p);
      }
      hide Match, Enter, Sound, OneOpenEach;
    }
  }

  lemma {:induction false} CleaningKeepsOneOpen(t: Tables)
    requires OneOpenEach(t)
    ensures OneOpenEach(Cleaned(t))
  {
    var u := Cleaned(t);
    forall i | 0 <= i < |u.strategies| && Open(u, i) ensures Open(t, i) && u.strategies[i] == t.strategies[i] {
      assert u.strategies[i] == CloseIfEmpty(t.strategies[i], t.positions);
    }
  }

  /** A cycle keeps at most one open strategy per symbol and exchange pair. */
  lemma {:induction false} ReconcileKeepsOneOpen(t: Tables, scan: Scan)
    requires Sound(t) && OneOpenEach(t)
    ensures OneOpenEach(Cycle(t, scan).t)
  {
    CleaningKeepsTracked(t, Key(0, ""));
    CleaningKeepsOneOpen(t);
    hide Sound, OneOpenEach, RecoverAll, Work, Cleaned;
    RecoverAllKeepsOneOpen(Start(t, scan), scan.exchanges, Work(t, scan));
  }

  /** The holding chosen for a perp is eligible, no eligible one is closer to it in size, and among
      equally close ones none is worth more. */
  lemma {:induction false} BestIsClosest(pool: seq<Pool>, asset: string, qty: real, j: nat)
    requires qty > 0.0 && j < |pool| && Eligible(pool[j], asset, qty)
    ensures var best := BestCandidate(pool, asset, qty);
      && best.Some? && Eligible(pool[best.value], asset, qty)
      && !Closer(CandidateAt(pool, j, qty), CandidateAt(pool, best.value, qty))
  {
    var cs := Candidates(pool, asset, qty);
    CandidatesAreEligible(pool, asset, qty);
    SortMultiset(cs, Closer);
    SortSorted(cs, Closer);
    var s, c := Sort(cs, Closer), CandidateAt(pool, j, qty);
    assert c in cs;
    assert c in multiset(s) && s[0] in multiset(cs);
    var i :| 0 <= i < |s| && s[i] == c;
    assert s[0] in cs;
    assert i > 0 ==> !Closer(s[i], s[0]);
  }
}

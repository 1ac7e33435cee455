/** Greedy selection of new pairs under a budget, a pair count and the capital
    pools of each exchange account. */
module Allocator {
  import opened Arith
  import opened Sorting

  /** The auto-trading settings the selection reads, before clamping. */
  datatype Config = Config(
    entryScoreMin: real, entryConfMin: real, maxOpenPairs: int,
    maxTotalUtilPct: real, targetUtilPct: real,
    reserveFloorPct: real, feeBufferPct: real, slippageBufferPct: real, marginBufferPct: real,
    minPairUsd: real, maxPairUsd: real, minCapacityPct: real, maxImpactPct: real, leverage: real)

  datatype Nav = Nav(usedUsd: real, stale: bool)

  /** What an exchange account can still carry: one pool for both legs, or one pool each. */
  datatype Cap = Unified(usable: real) | Split(spotUsable: real, perpUsable: real)

  type Caps = map<int, Cap>

  datatype OpenRow = OpenRow(
    rowId: string, perpEx: int, spotEx: int, score: real, conf: real, e24: real, capacity: real,
    impact: real, basisAbs: real, basisPct: real, hintUsd: real)

  datatype Hold = Hold(rowId: string, perpEx: int, spotEx: int, notionalUsd: real)

  datatype Reason =
    | AlreadyHeld | NavStale | ScoreLow | ConfidenceLow | E24NonPositive | BasisNonPositive
    | CapacityLow | ImpactHigh | AccountMissing

  // ----- Derived limits -----

  function ReservePct(cfg: Config): real {
    MaxR(Clamp(cfg.reserveFloorPct, 0.0, 30.0),
         Clamp(cfg.feeBufferPct, 0.0, 30.0) + Clamp(cfg.slippageBufferPct, 0.0, 30.0)
         + Clamp(cfg.marginBufferPct, 0.0, 30.0))
  }

  function EffectivePct(cfg: Config): real {
    var total := Clamp(cfg.maxTotalUtilPct, 1.0, 100.0);
    var hard := Clamp(MinR(total, 100.0 - ReservePct(cfg)), 0.0, 100.0);
    Clamp(MinR(Clamp(cfg.targetUtilPct, 1.0, 100.0), hard), 0.0, 100.0)
  }

  function NavUsed(nav: Nav): real { MaxR(0.0, nav.usedUsd) }

  function Share(usd: real, pct: real): real { usd * pct / 100.0 }

  function TargetBudget(cfg: Config, nav: Nav): real { Share(NavUsed(nav), EffectivePct(cfg)) }

  function MinPair(cfg: Config): real { MaxR(1.0, cfg.minPairUsd) }

  function MaxPair(cfg: Config): real { MaxR(MinPair(cfg), cfg.maxPairUsd) }

  /** Margin needed per dollar of perp notional. */
  function Coeff(cfg: Config): (c: real)
    ensures 0.0 < c <= 1.0
  {
    1.0 / MaxR(1.0, cfg.leverage)
  }

  function MaxOpen(cfg: Config): int { MaxI(1, cfg.maxOpenPairs) }

  lemma {:induction false} PctWithinReserve(cfg: Config)
    ensures 0.0 <= EffectivePct(cfg) <= MaxR(0.0, 100.0 - ReservePct(cfg))
  {}

  lemma {:induction false} ShareMonotone(nav: real, a: real, b: real)
    requires 0.0 <= nav && 0.0 <= a <= b
    ensures 0.0 <= Share(nav, a) <= Share(nav, b)
  {
    assert nav * a <= nav * b;
  }

  /** The target budget never reaches into the reserve. */
  lemma {:induction false} BudgetLeavesReserve(cfg: Config, nav: Nav)
    ensures 0.0 <= TargetBudget(cfg, nav) <= Share(NavUsed(nav), MaxR(0.0, 100.0 - ReservePct(cfg)))
  {
    PctWithinReserve(cfg);
    ShareMonotone(NavUsed(nav), EffectivePct(cfg), MaxR(0.0, 100.0 - ReservePct(cfg)));
  }

  // ----- Eligibility -----

  function Hint(row: OpenRow, cfg: Config): real { Clamp(row.hintUsd, MinPair(cfg), MaxPair(cfg)) }

  function RejectReasons(row: OpenRow, held: set<string>, cfg: Config, nav: Nav, caps: Caps): seq<Reason> {
    (if row.rowId in held then [AlreadyHeld] else [])
    + (if nav.stale || NavUsed(nav) <= 0.0 then [NavStale] else [])
    + (if row.score < cfg.entryScoreMin then [ScoreLow] else [])
    + (if row.conf < cfg.entryConfMin then [ConfidenceLow] else [])
    + (if row.e24 <= 0.0 then [E24NonPositive] else [])
    + (if row.basisAbs <= 0.0 || row.basisPct <= 0.0 then [BasisNonPositive] else [])
    + (if row.capacity < Clamp(cfg.minCapacityPct / 100.0, 0.0, 1.0) then [CapacityLow] else [])
    + (if row.impact > MaxR(0.01, cfg.maxImpactPct) then [ImpactHigh] else [])
    + (if caps != map[] && (row.spotEx !in caps || row.perpEx !in caps) then [AccountMissing] else [])
  }

  /** The row as the selection reads it: ranked by score and gain to six digits, sized by a hint in cents. */
  function Brief(row: OpenRow, cfg: Config): OpenRow {
    row.(score := RoundTo(row.score, 1000000.0), e24 := RoundTo(row.e24, 1000000.0),
         hintUsd := RoundTo(Hint(row, cfg), 100.0))
  }

  function EligibleRows(rows: seq<OpenRow>, held: set<string>, cfg: Config, nav: Nav, caps: Caps): seq<OpenRow> {
    if rows == [] then []
    else
      var n := |rows| - 1;
      EligibleRows(rows[..n], held, cfg, nav, caps)
      + if RejectReasons(rows[n], held, cfg, nav, caps) == [] then [Brief(rows[n], cfg)] else []
  }

  // ----- Capital pools -----

  /** Capital in use per exchange: unified accounts, and spot and perp pools of split ones. */
  datatype Pools = Pools(unified: map<int, real>, spot: map<int, real>, perp: map<int, real>)

  function Add(m: map<int, real>, ex: int, usd: real): map<int, real> { m[ex := Get(m, ex) + usd] }

  predicate IsUnified(caps: Caps, ex: int) { ex in caps && caps[ex].Unified? }

  function UseSpot(p: Pools, caps: Caps, ex: int, usd: real): Pools {
    if ex <= 0 then p
    else if IsUnified(caps, ex) then p.(unified := Add(p.unified, ex, usd))
    else p.(spot := Add(p.spot, ex, usd))
  }

  function UsePerp(p: Pools, caps: Caps, ex: int, usd: real): Pools {
    if ex <= 0 then p
    else if IsUnified(caps, ex) then p.(unified := Add(p.unified, ex, usd))
    else p.(perp := Add(p.perp, ex, usd))
  }

  function Use(p: Pools, caps: Caps, coeff: real, spotEx: int, perpEx: int, usd: real): Pools {
    if usd <= 0.0 then p
    else UsePerp(UseSpot(p, caps, spotEx, usd), caps, perpEx, usd * coeff)
  }

  function SpotHeadroom(p: Pools, caps: Caps, ex: int): real {
    if ex <= 0 || ex !in caps then 0.0
    else match caps[ex]
      case Unified(usable) => MaxR(0.0, usable - Get(p.unified, ex))
      case Split(usable, _) => MaxR(0.0, usable - Get(p.spot, ex))
  }

  function PerpHeadroom(p: Pools, caps: Caps, coeff: real, ex: int): real
    requires coeff > 0.0
  {
    if ex <= 0 || ex !in caps then 0.0
    else match caps[ex]
      case Unified(usable) => MaxR(0.0, usable - Get(p.unified, ex)) / coeff
      case Split(_, usable) => MaxR(0.0, usable - Get(p.perp, ex)) / coeff
  }

  function Headroom(p: Pools, caps: Caps, coeff: real, spotEx: int, perpEx: int): real
    requires coeff > 0.0
  {
    MinR(SpotHeadroom(p, caps, spotEx), PerpHeadroom(p, caps, coeff, perpEx))
  }

  // ----- Greedy selection -----

  predicate Preferred(a: OpenRow, b: OpenRow) {
    a.score > b.score || (a.score == b.score && a.e24 > b.e24)
  }

  datatype Pick = Pick(row: OpenRow, usd: real)

  datatype Progress = Progress(picks: seq<Pick>, pools: Pools, left: real)

  function DynMax(s: Progress, row: OpenRow, cfg: Config, caps: Caps): real {
    var byBudget := MinR(MaxPair(cfg), s.left);
    if caps == map[] then byBudget
    else MinR(byBudget, Headroom(s.pools, caps, Coeff(cfg), row.spotEx, row.perpEx))
  }

  predicate Open(s: Progress, cfg: Config, desired: nat) {
    |s.picks| < desired && s.left >= MinPair(cfg)
  }

  function Consider(s: Progress, row: OpenRow, cfg: Config, caps: Caps, desired: nat): Progress {
    var top := DynMax(s, row, cfg, caps);
    if !Open(s, cfg, desired) || top < MinPair(cfg) then s
    else
      var usd := Clamp(row.hintUsd, MinPair(cfg), top);
      Progress(s.picks + [Pick(row, usd)],
               Use(s.pools, caps, Coeff(cfg), row.spotEx, row.perpEx, usd),
               s.left - usd)
  }

  function Select(start: Progress, rows: seq<OpenRow>, cfg: Config, caps: Caps, desired: nat): Progress {
    if rows == [] then start
    else
      var n := |rows| - 1;
      Consider(Select(start, rows[..n], cfg, caps, desired), rows[n], cfg, caps, desired)
  }

  function UseHolds(holds: seq<Hold>, caps: Caps, coeff: real): Pools {
    if holds == [] then Pools(map[], map[], map[])
    else
      var h := holds[|holds| - 1];
      Use(UseHolds(holds[..|holds| - 1], caps, coeff), caps, coeff, h.spotEx, h.perpEx, MaxR(0.0, h.notionalUsd))
  }

  function HeldUsd(holds: seq<Hold>): real {
    if holds == [] then 0.0 else HeldUsd(holds[..|holds| - 1]) + MaxR(0.0, holds[|holds| - 1].notionalUsd)
  }

  function HeldIds(holds: seq<Hold>): set<string> { set h | h in holds :: h.rowId }

  function DesiredNew(cfg: Config, nav: Nav, held: nat, eligible: nat): nat {
    var byBudget := (TargetBudget(cfg, nav) / MinPair(cfg)).Floor;
    var feasible := MaxI(held, MinI(MinI(MaxOpen(cfg), held + eligible), byBudget));
    feasible - held
  }

  function Start(holds: seq<Hold>, cfg: Config, nav: Nav, caps: Caps): Progress {
    Progress([], UseHolds(holds, caps, Coeff(cfg)), MaxR(0.0, TargetBudget(cfg, nav) - HeldUsd(holds)))
  }

  /** The eligible rows in the order in which they are considered. */
  function Ranked(rows: seq<OpenRow>, holds: seq<Hold>, cfg: Config, nav: Nav, caps: Caps): seq<OpenRow> {
    Sort(EligibleRows(rows, HeldIds(holds), cfg, nav, caps), Preferred)
  }

  function Allocate(rows: seq<OpenRow>, holds: seq<Hold>, cfg: Config, nav: Nav, caps: Caps): Progress {
    var ranked := Ranked(rows, holds, cfg, nav, caps);
    Select(Start(holds, cfg, nav, caps), ranked, cfg, caps, DesiredNew(cfg, nav, |holds|, |ranked|))
  }

  // ----- The program -----

  /** The usage dictionaries, updated in place. */
  class UsageBook {
    const caps: Caps
    const coeff: real
    var unified: map<int, real>
    var spot: map<int, real>
    var perp: map<int, real>

    constructor (caps: Caps, coeff: real)
      ensures this.caps == caps && this.coeff == coeff
      ensures Usage() == Pools(map[], map[], map[])
    {
      this.caps, this.coeff := caps, coeff;
      unified, spot, perp := map[], map[], map[];
    }

    function Usage(): Pools
      reads this
    {
      Pools(unified, spot, perp)
    }

    method ApplyUsage(spotEx: int, perpEx: int, pairUsd: real)
      modifies this
      ensures Usage() == Use(old(Usage()), caps, coeff, spotEx, perpEx, pairUsd)
    {
      if pairUsd <= 0.0 {
        return;
      }
      if spotEx > 0 {
        if IsUnified(caps, spotEx) {
          unified := unified[spotEx := Get(unified, spotEx) + pairUsd];
        } else {
          spot := spot[spotEx := Get(spot, spotEx) + pairUsd];
        }
      }
      if perpEx > 0 {
        var need := pairUsd * coeff;
        if IsUnified(caps, perpEx) {
          unified := unified[perpEx := Get(unified, perpEx) + need];
        } else {
          perp := perp[perpEx := Get(perp, perpEx) + need];
        }
      }
    }
  }

  /** Charging the current pairs to the pools. */
  method ChargeHolds(book: UsageBook, holds: seq<Hold>) returns (held: real)
    requires book.Usage() == Pools(map[], map[], map[])
    modifies book
    ensures held == HeldUsd(holds) && book.Usage() == UseHolds(holds, book.caps, book.coeff)
  {
    held := 0.0;
    for i := 0 to |holds|
      invariant held == HeldUsd(holds[..i]) && book.Usage() == UseHolds(holds[..i], book.caps, book.coeff)
    {
      assert holds[..i + 1][..i] == holds[..i];
      var n := MaxR(0.0, holds[i].notionalUsd);
      if n <= 0.0 {
        continue;
      }
      held := held + n;
      book.ApplyUsage(holds[i].spotEx, holds[i].perpEx, n);
    }
    assert holds[..|holds|] == holds;
  }

  method FilterEligible(rows: seq<OpenRow>, held: set<string>, cfg: Config, nav: Nav, caps: Caps)
    returns (eligible: seq<OpenRow>)
    ensures eligible == EligibleRows(rows, held, cfg, nav, caps)
  {
    eligible := [];
    for i := 0 to |rows|
      invariant eligible == EligibleRows(rows[..i], held, cfg, nav, caps)
    {
      assert rows[..i + 1][..i] == rows[..i];
      if RejectReasons(rows[i], held, cfg, nav, caps) == [] {
        eligible := eligible + [Brief(rows[i], cfg)];
      }
    }
    assert rows[..|rows|] == rows;
  }

  lemma {:induction false} ClosedStaysClosed(s: Progress, rows: seq<OpenRow>, cfg: Config, caps: Caps, desired: nat)
    requires !Open(s, cfg, desired)
    ensures Select(s, rows, cfg, caps, desired) == s
  {
    if rows != [] {
      ClosedStaysClosed(s, rows[..|rows| - 1], cfg, caps, desired);
    }
  }

  lemma {:induction false} SelectSplit(s: Progress, a: seq<OpenRow>, b: seq<OpenRow>, cfg: Config, caps: Caps,
                                       desired: nat)
    ensures Select(s, a + b, cfg, caps, desired) == Select(Select(s, a, cfg, caps, desired), b, cfg, caps, desired)
  {
    if b == [] {
      assert a + b == a;
    } else {
      var n := |b| - 1;
      assert (a + b)[..|a + b| - 1] == a + b[..n];
      SelectSplit(s, a, b[..n], cfg, caps, desired);
    }
  }

  /** The greedy loop over the ranked rows. */
  method SelectRows(book: UsageBook, ranked: seq<OpenRow>, cfg: Config, available: real, desired: nat)
    returns (selected: seq<Pick>, totalAlloc: real)
    requires book.coeff == Coeff(cfg)
    modifies book
    ensures Progress(selected, book.Usage(), available - totalAlloc)
         == Select(Progress([], old(book.Usage()), available), ranked, cfg, book.caps, desired)
  {
    hide DynMax, Use, Coeff, Clamp, MinPair;
    ghost var start := Progress([], book.Usage(), available);
    selected, totalAlloc := [], 0.0;
    for i := 0 to |ranked|
      invariant Progress(selected, book.Usage(), available - totalAlloc)
             == Select(start, ranked[..i], cfg, book.caps, desired)
    {
      assert ranked[..i + 1][..i] == ranked[..i];
      var row := ranked[i];
      var now := Progress(selected, book.Usage(), available - totalAlloc);
      if |selected| >= desired || available - totalAlloc < MinPair(cfg) {
        ClosedStaysClosed(now, ranked[i..], cfg, book.caps, desired);
        SelectSplit(start, ranked[..i], ranked[i..], cfg, book.caps, desired);
        assert ranked[..i] + ranked[i..] == ranked;
        return;
      }
      var top := DynMax(now, row, cfg, book.caps);
      if top < MinPair(cfg) {
        continue;
      }
      var alloc := Clamp(row.hintUsd, MinPair(cfg), top);
      book.ApplyUsage(row.spotEx, row.perpEx, alloc);
      totalAlloc := totalAlloc + alloc;
      selected := selected + [Pick(row, alloc)];
    }
    assert ranked[..|ranked|] == ranked;
  }

  /** The selection of new pairs. */
  method BuildOpenPortfolioPreview(rows: seq<OpenRow>, holds: seq<Hold>, cfg: Config, nav: Nav, caps: Caps)
    returns (selected: seq<Pick>, usage: Pools, remaining: real)
    ensures Progress(selected, usage, remaining) == Allocate(rows, holds, cfg, nav, caps)
  {
    hide Select, EligibleRows, TargetBudget, DesiredNew;
    var book := new UsageBook(caps, Coeff(cfg));
    var held := ChargeHolds(book, holds);
    var available := MaxR(0.0, TargetBudget(cfg, nav) - held);
    var eligible := FilterEligible(rows, HeldIds(holds), cfg, nav, caps);
    SortMultiset(eligible, Preferred);
    var desired := DesiredNew(cfg, nav, |holds|, |eligible|);
    var picks, totalAlloc := SelectRows(book, Sort(eligible, Preferred), cfg, available, desired);
    return picks, book.Usage(), available - totalAlloc;
  }
}

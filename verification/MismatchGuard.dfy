/** Watching the hedge of every open strategy: a mismatch between its spot and perp legs must persist
    before a repair is planned. */
module MismatchGuard {
  import opened Arith

  const ABNORMAL_GUARD_SECS: real := 3.0

  /** The open legs of a strategy as the database has them. */
  datatype Leg = Leg(spotSize: real, perpSize: real, spotPrice: real, perpPrice: real)

  /** One hold as it is scanned; quantities are `None` when they cannot be read. */
  datatype Hold = Hold(
    sid: int, live: bool, spot: Option<real>, perp: Option<real>, leg: Leg, tickerPrice: real, notional: real)

  datatype Config = Config(
    epsilonAbs: real, epsilonNavPct: real, navUsed: real, navTotal: real, timeoutSecs: int, retryRounds: int)

  /** What is remembered about a strategy in breach. */
  datatype Watch = Watch(firstSeen: real, lastSeen: real, rounds: nat, mismatch: real, abnormalSince: real)

  type Watches = map<int, Watch>

  datatype Side = SpotSide | PerpSide

  datatype Decision =
    | Skipped
    | Unavailable
    | WithinEpsilon
    | Pending
    | Guarded
    | FallbackClose(sid: int)
    | Repair(sid: int, side: Side, base: real, usd: real)

  function Positive(x: real): real { MaxR(0.0, x) }

  function EpsilonUsd(c: Config): real {
    var used := Positive(c.navUsed);
    MaxR(Positive(c.epsilonAbs), MaxR(used, c.navTotal) * Positive(c.epsilonNavPct) / 100.0)
  }

  function RefPrice(h: Hold): real {
    var ref := MaxR(Positive(h.leg.spotPrice), Positive(h.leg.perpPrice));
    if ref <= 0.0 then Positive(h.tickerPrice) else ref
  }

  function EpsilonBase(c: Config, h: Hold): real { EpsilonUsd(c) / MaxR(1.0, RefPrice(h)) }

  predicate Readable(h: Hold) { h.sid > 0 && h.live && h.spot.Some? && h.perp.Some? }

  function Mismatch(h: Hold): real
    requires Readable(h)
  {
    AbsR(Positive(h.spot.value) - Positive(h.perp.value))
  }

  predicate Breach(c: Config, h: Hold)
    requires Readable(h)
  {
    Mismatch(h) > EpsilonBase(c, h)
  }

  /** The exchange reports no perp where the database has one. */
  predicate Abnormal(h: Hold)
    requires Readable(h)
  {
    Positive(h.perp.value) <= 0.0 && Positive(h.leg.perpSize) > 0.0
  }

  /** The record after a breach at time `now`. */
  function Watched(last: Option<Watch>, now: real, h: Hold): Watch
    requires Readable(h)
  {
    var prev := if last.Some? then last.value else Watch(0.0, 0.0, 0, 0.0, 0.0);
    Watch(if prev.firstSeen > 0.0 then prev.firstSeen else now, now, prev.rounds + 1, Mismatch(h),
          if !Abnormal(h) then 0.0 else if prev.abnormalSince > 0.0 then prev.abnormalSince else now)
  }

  function Age(since: real, now: real): real { Positive(now - since) }

  predicate Due(c: Config, w: Watch, now: real) {
    w.rounds >= MaxI(1, c.retryRounds) || Age(w.firstSeen, now) >= MaxI(1, c.timeoutSecs) as real
  }

  function SideToReduce(h: Hold): Side
    requires Readable(h)
  {
    if Positive(h.spot.value) > Positive(h.perp.value) then SpotSide else PerpSide
  }

  function LegSize(h: Hold, side: Side): real { Positive(if side.SpotSide? then h.leg.spotSize else h.leg.perpSize) }

  /** How much of the larger leg to take off, in base units. */
  function ReduceBase(h: Hold): real
    requires Readable(h)
  {
    MinR(LegSize(h, SideToReduce(h)), Mismatch(h))
  }

  function ReduceUsd(h: Hold): real
    requires Readable(h)
  {
    var px := if SideToReduce(h).SpotSide? then h.leg.spotPrice else h.leg.perpPrice;
    ReduceBase(h) * Positive(if px > 0.0 then px else RefPrice(h))
  }

  /** Ten digits, as the plan records it. */
  function Round10(x: real): real { RoundHalfUp(x * 10000000000.0) as real / 10000000000.0 }

  predicate FullSpotReduce(h: Hold)
    requires Readable(h)
  {
    SideToReduce(h).SpotSide? && h.leg.spotSize > 0.0 && ReduceBase(h) > 0.0 && ReduceBase(h) >= h.leg.spotSize * 0.999
  }

  predicate HeldBack(h: Hold, w: Watch, now: real)
    requires Readable(h)
  {
    FullSpotReduce(h) && Abnormal(h)
    && (if w.abnormalSince > 0.0 then Age(w.abnormalSince, now) else 0.0) < ABNORMAL_GUARD_SECS
  }

  function Decide(c: Config, h: Hold, w: Watch, now: real): Decision
    requires Readable(h)
  {
    if !Due(c, w, now) then Pending
    else if HeldBack(h, w, now) then Guarded
    else if LegSize(h, SideToReduce(h)) <= 0.0 || ReduceBase(h) <= 0.0 then FallbackClose(h.sid)
    else Repair(h.sid, SideToReduce(h), Round10(ReduceBase(h)), ReduceUsd(h))
  }

  function Lookup(ws: Watches, sid: int): Option<Watch> { if sid in ws then Some(ws[sid]) else None }

  datatype Seen = Seen(ws: Watches, decision: Decision)

  /** One hold of a scan. */
  function Observe(ws: Watches, now: real, c: Config, h: Hold): Seen {
    if h.sid <= 0 || !h.live then Seen(ws, Skipped)
    else if !Readable(h) then Seen(ws, Unavailable)
    else if !Breach(c, h) then Seen(ws - {h.sid}, WithinEpsilon)
    else
      var w := Watched(Lookup(ws, h.sid), now, h);
      Seen(ws[h.sid := w], Decide(c, h, w, now))
  }

  datatype Progress = Progress(ws: Watches, decisions: seq<Decision>)

  function ObserveAll(ws: Watches, now: real, c: Config, hs: seq<Hold>): Progress {
    if hs == [] then Progress(ws, [])
    else
      var p := ObserveAll(ws, now, c, hs[..|hs| - 1]);
      var s := Observe(p.ws, now, c, hs[|hs| - 1]);
      Progress(s.ws, p.decisions + [s.decision])
  }

  predicate Listed(hs: seq<Hold>, sid: int) { sid > 0 && exists i :: 0 <= i < |hs| && hs[i].sid == sid }

  /** Strategies that are no longer held are forgotten. */
  function Keep(ws: Watches, hs: seq<Hold>): Watches { map sid | sid in ws && Listed(hs, sid) :: ws[sid] }

  function Scan(ws: Watches, now: real, c: Config, hs: seq<Hold>): Progress {
    var p := ObserveAll(ws, now, c, hs);
    Progress(Keep(p.ws, hs), p.decisions)
  }

  class Guard {
    var watches: Watches

    constructor ()
      ensures watches == map[]
    {
      watches := map[];
    }

    method ObserveHold(now: real, c: Config, h: Hold) returns (d: Decision)
      modifies this
      ensures Seen(watches, d) == Observe(old(watches), now, c, h)
    {
      if h.sid <= 0 || !h.live {
        return Skipped;
      }
      if h.spot.None? || h.perp.None? {
        return Unavailable;
      }
      if Mismatch(h) <= EpsilonBase(c, h) {
        watches := watches - {h.sid};
        return WithinEpsilon;
      }
      var w := Watched(Lookup(watches, h.sid), now, h);
      watches := watches[h.sid := w];
      if !Due(c, w, now) {
        return Pending;
      }
      var side, reduce := SideToReduce(h), Mismatch(h);
      var size := LegSize(h, side);
      var triggers := size > 0.0;
      if triggers {
        reduce := MinR(size, reduce);
        triggers := reduce > 0.0;
      }
      var full := triggers && side.SpotSide? && reduce >= size * 0.999;
      var abnormalAge := if w.abnormalSince > 0.0 then Age(w.abnormalSince, now) else 0.0;
      if full && Abnormal(h) && abnormalAge < ABNORMAL_GUARD_SECS {
        return Guarded;
      }
      if !triggers {
        return FallbackClose(h.sid);
      }
      return Repair(h.sid, side, Round10(reduce), ReduceUsd(h));
    }

    method BuildHedgeMismatchClosePlan(now: real, c: Config, holds: seq<Hold>) returns (decisions: seq<Decision>)
      modifies this
      ensures Progress(watches, decisions) == Scan(old(watches), now, c, holds)
    {
      decisions := [];
      for i := 0 to |holds|
        invariant Progress(watches, decisions) == ObserveAll(old(watches), now, c, holds[..i])
      {
        assert holds[..i + 1][..i] == holds[..i];
        var d := ObserveHold(now, c, holds[i]);
        decisions := decisions + [d];
      }
      assert holds[..|holds|] == holds;
      watches := Keep(watches, holds);
    }
  }

  // ----- Runs of scans -----

  /** What a scan means for one strategy: a breaching read, or a reason to forget earlier ones. */
  datatype Event = Breached(now: real, abnormal: bool) | Cleared

  datatype Call = Call(now: real, c: Config, holds: seq<Hold>)

  function ReadEvent(now: real, c: Config, h: Hold, sid: int): seq<Event> {
    if h.sid != sid || !Readable(h) then []
    else if Breach(c, h) then [Breached(now, Abnormal(h))]
    else [Cleared]
  }

  function ReadEvents(now: real, c: Config, hs: seq<Hold>, sid: int): seq<Event> {
    if hs == [] then []
    else ReadEvents(now, c, hs[..|hs| - 1], sid) + ReadEvent(now, c, hs[|hs| - 1], sid)
  }

  function ScanEvents(call: Call, sid: int): seq<Event> {
    ReadEvents(call.now, call.c, call.holds, sid) + if Listed(call.holds, sid) then [] else [Cleared]
  }

  function History(calls: seq<Call>, sid: int): seq<Event> {
    if calls == [] then []
    else History(calls[..|calls| - 1], sid) + ScanEvents(calls[|calls| - 1], sid)
  }

  function RunScans(calls: seq<Call>): Watches {
    if calls == [] then map[]
    else
      var last := calls[|calls| - 1];
      Scan(RunScans(calls[..|calls| - 1]), last.now, last.c, last.holds).ws
  }

  /** Where the unbroken run of breaches at the end of a history begins. */
  function RunStart(es: seq<Event>, abnormalOnly: bool): (i: nat)
    ensures i <= |es|
    ensures forall j :: i <= j < |es| ==> es[j].Breached? && (abnormalOnly ==> es[j].abnormal)
    ensures i > 0 ==> !(es[i - 1].Breached? && (abnormalOnly ==> es[i - 1].abnormal))
  {
    if es == [] || !(es[|es| - 1].Breached? && (abnormalOnly ==> es[|es| - 1].abnormal)) then |es|
    else RunStart(es[..|es| - 1], abnormalOnly)
  }

  /** The record says exactly what the history does: as many rounds as breaches in the unbroken run at
      the end, first seen when that run began, and abnormal since the abnormal run at the end began. */
  predicate Matches(w: Option<Watch>, es: seq<Event>) {
    var i, a := RunStart(es, false), RunStart(es, true);
    match w
    case None => i == |es|
    case Some(x) =>
      && i < |es| && x.rounds == |es| - i && x.firstSeen == es[i].now
      && x.abnormalSince == if a < |es| then es[a].now else 0.0
  }

  predicate ClockPositive(es: seq<Event>) { forall i :: 0 <= i < |es| && es[i].Breached? ==> es[i].now > 0.0 }

  lemma {:induction false} RunStartSnoc(es: seq<Event>, e: Event, abnormalOnly: bool)
    ensures RunStart(es + [e], abnormalOnly) ==
      if e.Breached? && (abnormalOnly ==> e.abnormal) then RunStart(es, abnormalOnly) else |es| + 1
  {
    assert (es + [e])[..|es|] == es;
  }

  lemma {:induction false} ObserveMatches(ws: Watches, now: real, c: Config, h: Hold, es: seq<Event>, sid: int)
    requires now > 0.0 && ClockPositive(es) && Matches(Lookup(ws, sid), es)
    ensures var fs := es + ReadEvent(now, c, h, sid);
      ClockPositive(fs) && Matches(Lookup(Observe(ws, now, c, h).ws, sid), fs)
  {
    hide Breach, Abnormal, Decide, Mismatch;
    if h.sid != sid || !Readable(h) {
      assert es + ReadEvent(now, c, h, sid) == es;
    } else {
      var e := ReadEvent(now, c, h, sid)[0];
      RunStartSnoc(es, e, false);
      RunStartSnoc(es, e, true);
      if e.Breached? {
        var i := RunStart(es, false);
        assert (es + [e])[..|es|] == es;
        assert i < |es| ==> es[i].now > 0.0;
      }
    }
  }

  lemma {:induction false} ObserveAllMatches(ws: Watches, now: real, c: Config, hs: seq<Hold>, es: seq<Event>, sid: int)
    requires now > 0.0 && ClockPositive(es) && Matches(Lookup(ws, sid), es)
    ensures var fs := es + ReadEvents(now, c, hs, sid);
      ClockPositive(fs) && Matches(Lookup(ObserveAll(ws, now, c, hs).ws, sid), fs)
  {
    hide Observe, ReadEvent, Matches, ClockPositive, Lookup;
    if hs == [] {
      assert es + [] == es;
    } else {
      var n := |hs| - 1;
      ObserveAllMatches(ws, now, c, hs[..n], es, sid);
      var mid := es + ReadEvents(now, c, hs[..n], sid);
      ObserveMatches(ObserveAll(ws, now, c, hs[..n]).ws, now, c, hs[n], mid, sid);
      assert mid + ReadEvent(now, c, hs[n], sid) == es + ReadEvents(now, c, hs, sid);
    }
  }

  lemma {:induction false} ScanMatches(ws: Watches, call: Call, es: seq<Event>, sid: int)
    requires call.now > 0.0 && ClockPositive(es) && Matches(Lookup(ws, sid), es)
    ensures var fs := es + ScanEvents(call, sid);
      ClockPositive(fs) && Matches(Lookup(Scan(ws, call.now, call.c, call.holds).ws, sid), fs)
  {
    ObserveAllMatches(ws, call.now, call.c, call.holds, es, sid);
    var mid := es + ReadEvents(call.now, call.c, call.holds, sid);
    hide ObserveAll, ReadEvents, Listed;
    if Listed(call.holds, sid) {
      assert es + ScanEvents(call, sid) == mid;
    } else {
      assert es + ScanEvents(call, sid) == mid + [Cleared];
      RunStartSnoc(mid, Cleared, false);
    }
  }

  /** Over any run of scans, for every strategy: `rounds` counts the breaching reads since it was last
      within epsilon or absent, and the two clocks started with the first of them. */
  lemma {:induction false} RoundsCountBreaches(calls: seq<Call>, sid: int)
    requires forall i :: 0 <= i < |calls| ==> calls[i].now > 0.0
    ensures ClockPositive(History(calls, sid)) && Matches(Lookup(RunScans(calls), sid), History(calls, sid))
  {
    hide Scan, ScanEvents, ClockPositive;
    if calls == [] {
      assert ClockPositive([]) by {
        NoEvents();
      }
    } else {
      RoundsCountBreaches(calls[..|calls| - 1], sid);
      ScanMatches(RunScans(calls[..|calls| - 1]), calls[|calls| - 1], History(calls[..|calls| - 1], sid), sid);
    }
  }

  lemma {:induction false} NoEvents()
    ensures ClockPositive([])
  {}

  /** The history of a strategy up to and including hold `j` of a further scan. */
  function HistoryAt(calls: seq<Call>, call: Call, j: nat): seq<Event>
    requires j < |call.holds|
  {
    History(calls, call.holds[j].sid) + ReadEvents(call.now, call.c, call.holds[..j + 1], call.holds[j].sid)
  }

  /** What a scan decides about its hold `j`. */
  function DecisionAt(calls: seq<Call>, call: Call, j: nat): Decision
    requires j < |call.holds|
  {
    Observe(ObserveAll(RunScans(calls), call.now, call.c, call.holds[..j]).ws, call.now, call.c, call.holds[j]).decision
  }

  lemma {:induction false} DecisionsOfScan(ws: Watches, now: real, c: Config, hs: seq<Hold>, j: nat)
    requires j < |hs|
    ensures |ObserveAll(ws, now, c, hs).decisions| == |hs|
    ensures ObserveAll(ws, now, c, hs).decisions[j] ==
      Observe(ObserveAll(ws, now, c, hs[..j]).ws, now, c, hs[j]).decision
  {
    hide Observe;
    var n := |hs| - 1;
    if j < n {
      DecisionsOfScan(ws, now, c, hs[..n], j);
      assert hs[..n][..j] == hs[..j];
    } else if n > 0 {
      DecisionsOfScan(ws, now, c, hs[..n], 0);
    }
  }

  /** The history ends in a breach of this hold, the run of breaches it ends is long enough or old
      enough, and if a whole spot leg would go because no perp is reported, an unbroken run of such
      reads has lasted the guard time. */
  predicate Persistent(c: Config, h: Hold, now: real, es: seq<Event>) {
    var i, a := RunStart(es, false), RunStart(es, true);
    && Readable(h) && Breach(c, h)
    && i < |es| && es[|es| - 1] == Breached(now, Abnormal(h))
    && (|es| - i >= MaxI(1, c.retryRounds) || now - es[i].now >= MaxI(1, c.timeoutSecs) as real)
    && (Abnormal(h) && FullSpotReduce(h) ==> a < |es| && now - es[a].now >= ABNORMAL_GUARD_SECS)
  }

  predicate Acts(d: Decision) { d.Repair? || d.FallbackClose? }

  /** After any run of scans, a hold is closed or reduced exactly when its mismatch persists. */
  lemma {:induction false} ActsExactlyOnPersistence(calls: seq<Call>, call: Call, j: nat)
    requires (forall i :: 0 <= i < |calls| ==> calls[i].now > 0.0) && call.now > 0.0 && j < |call.holds|
    ensures Acts(DecisionAt(calls, call, j)) <==>
      Persistent(call.c, call.holds[j], call.now, HistoryAt(calls, call, j))
    ensures Acts(DecisionAt(calls, call, j)) ==> DecisionAt(calls, call, j).sid == call.holds[j].sid
  {
    hide Persistent, Matches, Observe, ReadEvent;
    var h := call.holds[j];
    var ws := ObserveAll(RunScans(calls), call.now, call.c, call.holds[..j]).ws;
    var before := History(calls, h.sid);
    RoundsCountBreaches(calls, h.sid);
    ObserveAllMatches(RunScans(calls), call.now, call.c, call.holds[..j], before, h.sid);
    var mid := before + ReadEvents(call.now, call.c, call.holds[..j], h.sid);
    ObserveMatches(ws, call.now, call.c, h, mid, h.sid);
    assert call.holds[..j + 1][..j] == call.holds[..j];
    assert HistoryAt(calls, call, j) == mid + ReadEvent(call.now, call.c, h, h.sid);
    hide ObserveAll, RunScans, History, ReadEvents, ClockPositive;
    ActsIfPersistent(ws, call.now, call.c, h, mid);
  }

  lemma {:induction false} ActsIfPersistent(ws: Watches, now: real, c: Config, h: Hold, before: seq<Event>)
    requires now > 0.0
    requires var es := before + ReadEvent(now, c, h, h.sid);
      ClockPositive(es) && Matches(Lookup(Observe(ws, now, c, h).ws, h.sid), es)
    ensures var d := Observe(ws, now, c, h).decision;
      && (Acts(d) <==> Persistent(c, h, now, before + ReadEvent(now, c, h, h.sid)))
      && (Acts(d) ==> d.sid == h.sid)
  {
    hide Breach, FullSpotReduce, Abnormal, Mismatch, ReduceBase, LegSize, ReduceUsd, Round10, RunStart;
    if Readable(h) && Abnormal(h) {
      AbnormalAtEnd(before, now);
    }
  }

  lemma {:induction false} AbnormalAtEnd(before: seq<Event>, now: real)
    ensures var es := before + [Breached(now, true)];
      RunStart(es, true) < |es|
  {
    RunStartSnoc(before, Breached(now, true), true);
  }

  /** What a repair takes off: the excess of the larger leg over the smaller, as far as the database has
      that leg, to within half a unit of the tenth digit. */
  lemma {:induction false} RepairIsTheExcess(ws: Watches, now: real, c: Config, h: Hold)
    requires Observe(ws, now, c, h).decision.Repair?
    ensures var d := Observe(ws, now, c, h).decision;
      && Readable(h)
      && (d.side.SpotSide? <==> Positive(h.spot.value) > Positive(h.perp.value))
      && var excess := MinR(LegSize(h, d.side), AbsR(Positive(h.spot.value) - Positive(h.perp.value)));
         excess > 0.0 && excess - 0.00000000005 <= d.base <= excess + 0.00000000005
  {
    Round10Error(ReduceBase(h));
    hide Round10, Breach, Due, HeldBack;
  }

  lemma {:induction false} Round10Error(x: real)
    ensures x - 0.00000000005 <= Round10(x) <= x + 0.00000000005
  {
    var y := x * 10000000000.0;
    assert y - 0.5 <= RoundHalfUp(y) as real <= y + 0.5;
  }
}

/** The funding ledger over whole runs of calls: exactly once, nothing missing, and every payment
    shared out to within rounding. */
module FundingRuns {
  import opened Arith
  import opened FundingRows
  import opened FundingLedger
  import Attribution

  /** No two business keys hash alike. */
  ghost predicate Injective(hash: EventKey -> int) { forall j, k :: hash(j) == hash(k) ==> j == k }

  predicate InLedger(rows: seq<LedgerRow>, k: EventKey) { exists i :: 0 <= i < |rows| && rows[i].key == k }

  /** Keys are distinct, rows carry their own hash, and payments belong to rows. */
  ghost predicate Tidy(t: Tables, hash: EventKey -> int) {
    && (forall i, j :: 0 <= i < j < |t.rows| ==> t.rows[i].key != t.rows[j].key)
    && (forall i :: 0 <= i < |t.rows| ==> t.rows[i].hash == hash(t.rows[i].key))
    && (forall i :: i in t.payments <==> 0 <= i < |t.rows|)
  }

  function PaidUnits(ps: seq<Payment>): int { if ps == [] then 0 else PaidUnits(ps[..|ps| - 1]) + ps[|ps| - 1].units }

  /** The payments of a row add up to its amount, up to half a unit each, unless there are none. */
  predicate SharedOut(k: EventKey, ps: seq<Payment>) {
    ps == [] || -|ps| <= 2 * (PaidUnits(ps) - k.units) <= |ps|
  }

  ghost predicate AllSharedOut(t: Tables) {
    forall i :: 0 <= i < |t.rows| && i in t.payments ==> SharedOut(t.rows[i].key, t.payments[i])
  }

  lemma {:induction false} PaymentsAreAssigned(units: int, shares: seq<Attribution.Allocation>)
    ensures PaidUnits(Payments(units, shares)) == Attribution.SumInts(Attribution.Assigned(units, shares))
  {
    if shares != [] {
      var n := |shares| - 1;
      PaymentsAreAssigned(units, shares[..n]);
      assert Payments(units, shares)[..n] == Payments(units, shares[..n]);
      assert Attribution.Assigned(units, shares)[..n] == Attribution.Assigned(units, shares[..n]);
    }
  }

  lemma {:induction false} PaymentsShareOut(k: EventKey, cands: EventKey -> seq<Attribution.Candidate>)
    ensures SharedOut(k, PaymentsFor(k, cands))
  {
    PaymentsAreAssigned(k.units, Attribution.Allocations(cands(k)));
    if cands(k) != [] {
      Attribution.AssignedTotalIsClose(k.units, cands(k));
    }
  }

  // ----- One row -----

  /** Which row an upsert leaves the event in. */
  function PlaceOf(t: Tables, hash: EventKey -> int, k: EventKey): nat {
    if FindRow(t.rows, hash, k) >= 0 then FindRow(t.rows, hash, k) else |t.rows|
  }

  lemma {:induction false} EnterKeepsTidy(p: Progress, hash: EventKey -> int, x: int,
                                          cands: EventKey -> seq<Attribution.Candidate>, e: Raw)
    requires Usable(e) && Tidy(p.t, hash) && AllSharedOut(p.t)
    ensures var q := Enter(p, hash, x, cands, e);
      && Tidy(q.t, hash) && AllSharedOut(q.t)
      && q.t.cursors == p.t.cursors && q.maxMs >= p.maxMs && |q.t.rows| >= |p.t.rows|
      && forall i :: 0 <= i < |p.t.rows| ==> q.t.rows[i].key == p.t.rows[i].key
  {
    UpsertKeepsKeys(p.t.rows, hash, x, e);
    var rows, i := Upserted(p.t.rows, hash, x, e), PlaceOf(p.t, hash, EventKeyOf(x, e));
    hide PaymentsFor, SharedOut, Upserted, FindRow;
    PaymentsShareOut(rows[i].key, cands);
  }

  lemma {:induction false} UpsertKeepsKeys(rows: seq<LedgerRow>, hash: EventKey -> int, x: int, e: Raw)
    requires Usable(e)
    requires forall i, j :: 0 <= i < j < |rows| ==> rows[i].key != rows[j].key
    requires forall i :: 0 <= i < |rows| ==> rows[i].hash == hash(rows[i].key)
    ensures var (out, found) := (Upserted(rows, hash, x, e), FindRow(rows, hash, EventKeyOf(x, e)));
      && |out| == |rows| + (if found >= 0 then 0 else 1)
      && (forall i, j :: 0 <= i < j < |out| ==> out[i].key != out[j].key)
      && (forall i :: 0 <= i < |out| ==> out[i].hash == hash(out[i].key))
      && (forall i :: 0 <= i < |rows| ==> out[i].key == rows[i].key)
  {}

  /** A payment is found under its own key exactly when it is already in the ledger. */
  lemma {:induction false} FoundByKey(t: Tables, hash: EventKey -> int, k: EventKey)
    requires Tidy(t, hash) && Injective(hash)
    ensures FindRow(t.rows, hash, k) >= 0 <==> InLedger(t.rows, k)
    ensures FindRow(t.rows, hash, k) >= 0 ==> t.rows[FindRow(t.rows, hash, k)].key == k
  {
    if InLedger(t.rows, k) {
      var i :| 0 <= i < |t.rows| && t.rows[i].key == k;
      assert t.rows[i].hash == hash(k);
    }
  }

  lemma {:induction false} EnterAddsItsKey(p: Progress, hash: EventKey -> int, x: int,
                                           cands: EventKey -> seq<Attribution.Candidate>, e: Raw)
    requires Usable(e) && Tidy(p.t, hash) && Injective(hash)
    ensures var q := Enter(p, hash, x, cands, e);
      && (forall k :: InLedger(q.t.rows, k) <==> InLedger(p.t.rows, k) || k == EventKeyOf(x, e))
      && q.maxMs == MaxI(p.maxMs, e.timeMs.value)
      && q.inserted == p.inserted + if InLedger(p.t.rows, EventKeyOf(x, e)) then 0 else 1
  {
    var own := EventKeyOf(x, e);
    var q, i := Enter(p, hash, x, cands, e), PlaceOf(p.t, hash, own);
    FoundByKey(p.t, hash, own);
    assert q.t.rows[i].key == own;
    forall k ensures InLedger(q.t.rows, k) <==> InLedger(p.t.rows, k) || k == own {
      if InLedger(p.t.rows, k) {
        var j :| 0 <= j < |p.t.rows| && p.t.rows[j].key == k;
        assert q.t.rows[j].key == k;
      }
      if InLedger(q.t.rows, k) && k != own {
        var j :| 0 <= j < |q.t.rows| && q.t.rows[j].key == k;
        assert p.t.rows[j].key == k;
      }
    }
  }

  // ----- One call -----

  /** The payment is among the usable rows fetched for the exchange. */
  predicate Delivered(raw: seq<Raw>, x: int, k: EventKey) {
    exists i :: 0 <= i < |raw| && Usable(raw[i]) && EventKeyOf(x, raw[i]) == k
  }

  lemma {:induction false} DedupeDelivers(raw: seq<Raw>, x: int, k: EventKey)
    ensures Delivered(Dedupe(raw), x, k) <==> Delivered(raw, x, k)
  {
    DedupeKeepsOnePerPayment(raw);
    var out := Dedupe(raw);
    hide Dedupe;
    if Delivered(raw, x, k) {
      var i :| 0 <= i < |raw| && Usable(raw[i]) && EventKeyOf(x, raw[i]) == k;
      assert Has(raw, KeyOf(raw[i]));
      var j :| 0 <= j < |out| && Usable(out[j]) && KeyOf(out[j]) == KeyOf(raw[i]);
      assert EventKeyOf(x, out[j]) == k;
    }
    if Delivered(out, x, k) {
      var j :| 0 <= j < |out| && Usable(out[j]) && EventKeyOf(x, out[j]) == k;
      assert Winner(raw, KeyOf(out[j])) == Some(out[j]);
      var i :| 0 <= i < |raw| && raw[i] == out[j];
      assert EventKeyOf(x, raw[i]) == k;
    }
  }

  lemma {:induction false} EnterAllKeepsTidy(p: Progress, hash: EventKey -> int, x: int,
                                             cands: EventKey -> seq<Attribution.Candidate>, es: seq<Raw>)
    requires AllUsable(es) && Tidy(p.t, hash) && AllSharedOut(p.t)
    ensures var q := EnterAll(p, hash, x, cands, es);
      && Tidy(q.t, hash) && AllSharedOut(q.t)
      && q.t.cursors == p.t.cursors && q.maxMs >= p.maxMs && |q.t.rows| >= |p.t.rows|
      && forall i :: 0 <= i < |p.t.rows| ==> q.t.rows[i].key == p.t.rows[i].key
  {
    if es != [] {
      var n := |es| - 1;
      EnterAllKeepsTidy(p, hash, x, cands, es[..n]);
      hide Tidy, AllSharedOut, Enter;
      EnterKeepsTidy(EnterAll(p, hash, x, cands, es[..n]), hash, x, cands, es[n]);
    }
  }

  lemma {:induction false} EnterAllAddsKeys(p: Progress, hash: EventKey -> int, x: int,
                                            cands: EventKey -> seq<Attribution.Candidate>, es: seq<Raw>)
    requires AllUsable(es) && Tidy(p.t, hash) && AllSharedOut(p.t) && Injective(hash)
    ensures var q := EnterAll(p, hash, x, cands, es);
      && (forall k :: InLedger(q.t.rows, k) <==> InLedger(p.t.rows, k) || Delivered(es, x, k))
      && (forall k :: Delivered(es, x, k) ==> k.timeMs <= q.maxMs)
  {
    hide InLedger, Delivered, Tidy, AllSharedOut, Injective, Enter;
    if es == [] {
      assert forall k :: !Delivered(es, x, k) by {
        NothingDelivered(x);
      }
    } else {
      var n := |es| - 1;
      var mid, q := EnterAll(p, hash, x, cands, es[..n]), EnterAll(p, hash, x, cands, es);
      EnterAllKeepsTidy(p, hash, x, cands, es[..n]);
      EnterAllAddsKeys(p, hash, x, cands, es[..n]);
      EnterAddsItsKey(mid, hash, x, cands, es[n]);
      forall k
        ensures InLedger(q.t.rows, k) <==> InLedger(p.t.rows, k) || Delivered(es, x, k)
        ensures Delivered(es, x, k) ==> k.timeMs <= q.maxMs
      {
        DeliveredSnoc(es, x, k);
      }
    }
  }

  lemma {:induction false} NothingDelivered(x: int)
    ensures forall k :: !Delivered([], x, k)
  {}

  lemma {:induction false} DeliveredSnoc(es: seq<Raw>, x: int, k: EventKey)
    requires AllUsable(es) && es != []
    ensures Delivered(es, x, k) <==> Delivered(es[..|es| - 1], x, k) || k == EventKeyOf(x, es[|es| - 1])
  {
    if Delivered(es[..|es| - 1], x, k) {
      var i :| 0 <= i < |es| - 1 && Usable(es[i]) && EventKeyOf(x, es[..|es| - 1][i]) == k;
      assert EventKeyOf(x, es[i]) == k;
    }
    if Delivered(es, x, k) && k != EventKeyOf(x, es[|es| - 1]) {
      var i :| 0 <= i < |es| && Usable(es[i]) && EventKeyOf(x, es[i]) == k;
      assert EventKeyOf(x, es[..|es| - 1][i]) == k;
    }
  }

  /** The call commits, and the payment is among what it fetched. */
  predicate Enters(c: Call, k: EventKey) { Commits(c) && Delivered(c.fetch.raw, c.scope.exchangeId, k) }

  function CursorMs(t: Tables, s: Scope): int { if s in t.cursors then t.cursors[s].valueMs else -1 }

  /** Whatever happens in a call: business keys stay distinct, rows keep their ids and keys, every
      row's payments stay within rounding of its amount, and no cursor moves back. */
  lemma {:induction false} CycleKeepsOrder(t: Tables, hash: EventKey -> int, c: Call)
    requires Tidy(t, hash) && AllSharedOut(t)
    ensures var u := Cycle(t, hash, c);
      && Tidy(u, hash) && AllSharedOut(u)
      && |u.rows| >= |t.rows| && (forall i :: 0 <= i < |t.rows| ==> u.rows[i].key == t.rows[i].key)
      && forall s :: CursorMs(t, s) <= CursorMs(u, s)
  {
    hide Tidy, AllSharedOut, EnterAll, Dedupe;
    if Commits(c) {
      var p := Progress(t, Since(t, c), 0);
      EnterAllKeepsTidy(p, hash, c.scope.exchangeId, c.cands, Dedupe(c.fetch.raw));
      var q := EnterAll(p, hash, c.scope.exchangeId, c.cands, Dedupe(c.fetch.raw));
      OnlyCursorsDiffer(q.t, Cycle(t, hash, c), hash);
    } else {
      OnlyCursorsDiffer(t, Cycle(t, hash, c), hash);
    }
  }

  lemma {:induction false} OnlyCursorsDiffer(t: Tables, u: Tables, hash: EventKey -> int)
    requires Tidy(t, hash) && AllSharedOut(t) && t.rows == u.rows && t.payments == u.payments
    ensures Tidy(u, hash) && AllSharedOut(u)
  {}

  /** A call that commits adds exactly the payments it fetched, and moves its cursor past them;
      any other call adds nothing and leaves the cursor where it reads from. */
  lemma {:induction false} CycleAddsExactly(t: Tables, hash: EventKey -> int, c: Call)
    requires Tidy(t, hash) && AllSharedOut(t) && Injective(hash)
    ensures var u := Cycle(t, hash, c);
      && (forall k :: InLedger(u.rows, k) <==> InLedger(t.rows, k) || Enters(c, k))
      && (c.fetch.Fetched? ==> CursorMs(u, c.scope) >= Since(t, c))
      && (forall k :: Enters(c, k) ==> k.timeMs < CursorMs(u, c.scope))
      && (!Commits(c) && c.fetch.Fetched? ==> CursorMs(u, c.scope) == Since(t, c))
      && (forall s :: s != c.scope ==> CursorMs(u, s) == CursorMs(t, s))
  {
    if Commits(c) {
      var x, es, p := c.scope.exchangeId, Dedupe(c.fetch.raw), Progress(t, Since(t, c), 0);
      EnterAllKeepsTidy(p, hash, x, c.cands, es);
      EnterAllAddsKeys(p, hash, x, c.cands, es);
      forall k ensures Delivered(es, x, k) <==> Delivered(c.fetch.raw, x, k) {
        DedupeDelivers(c.fetch.raw, x, k);
      }
      hide EnterAll, Dedupe, InLedger;
      forall k | Enters(c, k) ensures k.timeMs < CursorMs(Cycle(t, hash, c), c.scope) {
        assert Delivered(es, x, k);
        SomeRow(es, x, k);
      }
    }
  }

  lemma {:induction false} SomeRow(es: seq<Raw>, x: int, k: EventKey)
    requires Delivered(es, x, k)
    ensures es != []
  {}

  // ----- Runs -----

  const EMPTY: Tables := Tables([], map[], map[])

  function RunCalls(hash: EventKey -> int, calls: seq<Call>): Tables {
    if calls == [] then EMPTY else Cycle(RunCalls(hash, calls[..|calls| - 1]), hash, calls[|calls| - 1])
  }

  lemma {:induction false} RunsKeepOrder(hash: EventKey -> int, calls: seq<Call>)
    ensures Tidy(RunCalls(hash, calls), hash) && AllSharedOut(RunCalls(hash, calls))
  {
    if calls != [] {
      RunsKeepOrder(hash, calls[..|calls| - 1]);
      CycleKeepsOrder(RunCalls(hash, calls[..|calls| - 1]), hash, calls[|calls| - 1]);
      hide Cycle, Tidy, AllSharedOut;
    }
  }

  /** The payment was delivered by a call that committed. */
  predicate Committed(calls: seq<Call>, k: EventKey) {
    exists i :: 0 <= i < |calls| && Enters(calls[i], k)
  }

  lemma {:induction false} CommittedSnoc(calls: seq<Call>, k: EventKey)
    requires calls != []
    ensures var (init, c) := (calls[..|calls| - 1], calls[|calls| - 1]);
      Committed(calls, k) <==> Committed(init, k) || Enters(c, k)
  {
    hide Enters;
    var n := |calls| - 1;
    assert forall i :: 0 <= i < n ==> calls[..n][i] == calls[i];
    if Committed(calls[..n], k) {
      var i :| 0 <= i < n && Enters(calls[..n][i], k);
      assert Enters(calls[i], k);
    }
  }

  /** Exactly once: after any run of successes, failures, bans and redeliveries over any exchanges,
      the ledger holds each payment delivered by a committed call once, and nothing else. */
  lemma {:induction false} IngestionIsExactlyOnce(hash: EventKey -> int, calls: seq<Call>)
    requires Injective(hash)
    ensures var t := RunCalls(hash, calls);
      && (forall i, j :: 0 <= i < j < |t.rows| ==> t.rows[i].key != t.rows[j].key)
      && (forall k :: InLedger(t.rows, k) <==> Committed(calls, k))
      && AllSharedOut(t)
  {
    RunsKeepOrder(hash, calls);
    if calls != [] {
      var n := |calls| - 1;
      IngestionIsExactlyOnce(hash, calls[..n]);
      RunsKeepOrder(hash, calls[..n]);
      CycleAddsExactly(RunCalls(hash, calls[..n]), hash, calls[n]);
      hide Cycle, InLedger, Enters, AllSharedOut, Committed;
      forall k ensures InLedger(RunCalls(hash, calls).rows, k) <==> Committed(calls, k) {
        CommittedSnoc(calls, k);
      }
    }
  }

  // ----- Nothing missing -----

  /** One event of a run seen from one scope: a payment becomes visible at the exchange, or a call is made. */
  datatype Step = Arrives(k: EventKey) | Calls(c: Call)

  /** The tables, what the exchanges have published, and where the scope's first recorded read began. */
  datatype World = World(t: Tables, published: set<EventKey>, begun: Option<nat>)

  function Advance(w: World, hash: EventKey -> int, s: Scope, step: Step): World {
    match step
    case Arrives(k) => w.(published := w.published + {k})
    case Calls(c) =>
      World(Cycle(w.t, hash, c), w.published,
            if w.begun.None? && c.scope == s && c.fetch.Fetched? then Some(Since(w.t, c)) else w.begun)
  }

  function RunWorld(hash: EventKey -> int, s: Scope, steps: seq<Step>): World {
    if steps == [] then World(EMPTY, {}, None)
    else Advance(RunWorld(hash, s, steps[..|steps| - 1]), hash, s, steps[|steps| - 1])
  }

  /** A scope reads one exchange, for all symbols or for one. */
  predicate Covers(s: Scope, k: EventKey) {
    k.exchangeId == s.exchangeId && (s.symbol == "*" || s.symbol == k.symbol)
  }

  /** The call fetches everything its scope covers that was published since its cursor. */
  predicate Complete(w: World, c: Call) {
    Commits(c) ==>
      forall k :: k in w.published && Covers(c.scope, k) && Since(w.t, c) <= k.timeMs ==> Enters(c, k)
  }

  /** The exchange plays along: fetches of the scope are complete, and payments do not appear behind its cursor. */
  ghost predicate Fair(hash: EventKey -> int, s: Scope, steps: seq<Step>) {
    forall n :: 0 <= n < |steps| ==> FairStep(RunWorld(hash, s, steps[..n]), s, steps[n])
  }

  predicate FairStep(w: World, s: Scope, step: Step) {
    match step
    case Arrives(k) => Covers(s, k) ==> CursorMs(w.t, s) <= k.timeMs
    case Calls(c) => c.scope == s ==> Complete(w, c)
  }

  ghost predicate NothingMissing(w: World, hash: EventKey -> int, s: Scope) {
    && Tidy(w.t, hash) && AllSharedOut(w.t)
    && (w.begun.None? <==> s !in w.t.cursors)
    && (w.begun.Some? ==> w.begun.value <= CursorMs(w.t, s))
    && (w.begun.Some? ==>
          forall k :: k in w.published && Covers(s, k) && w.begun.value <= k.timeMs < CursorMs(w.t, s)
            ==> InLedger(w.t.rows, k))
  }

  /** No payment published between the first read and the cursor is ever missing from the ledger. */
  lemma {:induction false} NoPaymentIsMissing(hash: EventKey -> int, s: Scope, steps: seq<Step>)
    requires Injective(hash) && Fair(hash, s, steps)
    ensures NothingMissing(RunWorld(hash, s, steps), hash, s)
  {
    if steps != [] {
      var n := |steps| - 1;
      forall m | 0 <= m < n ensures FairStep(RunWorld(hash, s, steps[..n][..m]), s, steps[..n][m]) {
        assert steps[..n][..m] == steps[..m];
      }
      assert Fair(hash, s, steps[..n]);
      NoPaymentIsMissing(hash, s, steps[..n]);
      assert FairStep(RunWorld(hash, s, steps[..n]), s, steps[n]);
      hide FairStep, Fair, NothingMissing, Advance;
      StepMissesNothing(RunWorld(hash, s, steps[..n]), hash, s, steps[n]);
    }
  }

  lemma {:induction false} StepMissesNothing(w: World, hash: EventKey -> int, s: Scope, step: Step)
    requires Injective(hash) && NothingMissing(w, hash, s) && FairStep(w, s, step)
    ensures NothingMissing(Advance(w, hash, s, step), hash, s)
  {
    match step
    case Arrives(k) =>
    case Calls(c) =>
      CycleKeepsOrder(w.t, hash, c);
      CycleAddsExactly(w.t, hash, c);
      CycleCursors(w.t, hash, c);
      var u := Cycle(w.t, hash, c);
      hide Cycle, Tidy, AllSharedOut, InLedger, Enters;
  }

  lemma {:induction false} CycleCursors(t: Tables, hash: EventKey -> int, c: Call)
    requires Tidy(t, hash) && AllSharedOut(t)
    ensures var u := Cycle(t, hash, c);
      && (forall s :: s in u.cursors <==> s in t.cursors || (s == c.scope && c.fetch.Fetched?))
      && forall s :: s != c.scope && s in t.cursors ==> u.cursors[s] == t.cursors[s]
  {
    if Commits(c) {
      EnterAllKeepsTidy(Progress(t, Since(t, c), 0), hash, c.scope.exchangeId, c.cands, Dedupe(c.fetch.raw));
      hide EnterAll, Dedupe;
    }
  }

  /** Why payments must not appear behind the cursor: if every fetch of an exchange returns only
      payments from its cursor on, one behind all of its cursors that is not in the ledger never gets there. */
  lemma {:induction false} LatePaymentIsLost(t: Tables, hash: EventKey -> int, k: EventKey, calls: seq<Call>)
    requires Injective(hash) && Tidy(t, hash) && AllSharedOut(t)
    requires !InLedger(t.rows, k)
    requires forall c :: c in calls && c.scope.exchangeId == k.exchangeId ==> k.timeMs < CursorMs(t, c.scope)
    requires OnlyFromCursor(t, hash, calls)
    ensures !InLedger(After(t, hash, calls).rows, k)
    decreases |calls|
  {
    if calls != [] {
      CycleKeepsOrder(t, hash, calls[0]);
      CycleAddsExactly(t, hash, calls[0]);
      assert calls[0] in calls;
      hide Cycle, InLedger, Tidy, AllSharedOut;
      LatePaymentIsLost(Cycle(t, hash, calls[0]), hash, k, calls[1..]);
    }
  }

  function After(t: Tables, hash: EventKey -> int, calls: seq<Call>): Tables
    decreases |calls|
  {
    if calls == [] then t else After(Cycle(t, hash, calls[0]), hash, calls[1..])
  }

  ghost predicate OnlyFromCursor(t: Tables, hash: EventKey -> int, calls: seq<Call>)
    decreases |calls|
  {
    calls == []
    || ((forall k :: Enters(calls[0], k) ==> Since(t, calls[0]) <= k.timeMs)
        && OnlyFromCursor(Cycle(t, hash, calls[0]), hash, calls[1..]))
  }
}

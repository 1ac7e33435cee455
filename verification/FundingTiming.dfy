/** When a payment reaches the ledger: exactly when it was published before the cursor of its scope
    had passed it, whatever happens to other payments. */
module FundingTiming {
  import opened Arith
  import opened FundingRows
  import opened FundingLedger
  import opened FundingRuns

  /** A committed call of the scope returns the payment exactly when it is published, covered, and not
      behind the cursor it reads from. Calls of other scopes are free. */
  predicate ReadsFromCursor(w: World, s: Scope, step: Step, k: EventKey) {
    step.Calls? && step.c.scope == s && Commits(step.c) ==>
      (Enters(step.c, k) <==> k in w.published && Covers(s, k) && Since(w.t, step.c) <= k.timeMs)
  }

  ghost predicate AlwaysFromCursor(hash: EventKey -> int, s: Scope, steps: seq<Step>, k: EventKey) {
    forall n :: 0 <= n < |steps| ==> ReadsFromCursor(RunWorld(hash, s, steps[..n]), s, steps[n], k)
  }

  /** The payment appears while the cursor has not passed it. */
  predicate InTime(w: World, s: Scope, step: Step, k: EventKey) {
    step == Arrives(k) && CursorMs(w.t, s) <= k.timeMs
  }

  ghost predicate OnTime(hash: EventKey -> int, s: Scope, steps: seq<Step>, k: EventKey) {
    exists n :: 0 <= n < |steps| && InTime(RunWorld(hash, s, steps[..n]), s, steps[n], k)
  }

  /** A call of another scope enters the payment. */
  predicate Aside(s: Scope, step: Step, k: EventKey) { step.Calls? && step.c.scope != s && Enters(step.c, k) }

  predicate Elsewhere(s: Scope, steps: seq<Step>, k: EventKey) {
    exists n :: 0 <= n < |steps| && Aside(s, steps[n], k)
  }

  lemma {:induction false} OnTimeSnoc(hash: EventKey -> int, s: Scope, steps: seq<Step>, k: EventKey)
    requires steps != []
    ensures var n := |steps| - 1;
      OnTime(hash, s, steps, k) <==>
        OnTime(hash, s, steps[..n], k) || InTime(RunWorld(hash, s, steps[..n]), s, steps[n], k)
  {
    var n := |steps| - 1;
    hide InTime, RunWorld;
    assert forall m :: 0 <= m < n ==> steps[..n][..m] == steps[..m] && steps[..n][m] == steps[m];
    if OnTime(hash, s, steps[..n], k) {
      var m :| 0 <= m < n && InTime(RunWorld(hash, s, steps[..n][..m]), s, steps[..n][m], k);
      assert InTime(RunWorld(hash, s, steps[..m]), s, steps[m], k);
    }
    if OnTime(hash, s, steps, k) {
      var m :| 0 <= m < |steps| && InTime(RunWorld(hash, s, steps[..m]), s, steps[m], k);
      if m < n {
        assert InTime(RunWorld(hash, s, steps[..n][..m]), s, steps[..n][m], k);
      }
    }
  }

  lemma {:induction false} ElsewhereSnoc(s: Scope, steps: seq<Step>, k: EventKey)
    requires steps != []
    ensures var n := |steps| - 1;
      Elsewhere(s, steps, k) <==> Elsewhere(s, steps[..n], k) || Aside(s, steps[n], k)
  {
    var n := |steps| - 1;
    hide Aside;
    assert forall m :: 0 <= m < n ==> steps[..n][m] == steps[m];
    if Elsewhere(s, steps[..n], k) {
      var m :| 0 <= m < n && Aside(s, steps[..n][m], k);
      assert Aside(s, steps[m], k);
    }
  }

  lemma {:induction false} FromCursorSnoc(hash: EventKey -> int, s: Scope, steps: seq<Step>, k: EventKey)
    requires steps != [] && AlwaysFromCursor(hash, s, steps, k)
    ensures var n := |steps| - 1;
      AlwaysFromCursor(hash, s, steps[..n], k) && ReadsFromCursor(RunWorld(hash, s, steps[..n]), s, steps[n], k)
  {
    var n := |steps| - 1;
    hide ReadsFromCursor, RunWorld;
    forall m | 0 <= m < n ensures ReadsFromCursor(RunWorld(hash, s, steps[..n][..m]), s, steps[..n][m], k) {
      assert steps[..n][..m] == steps[..m];
    }
  }

  /** How a payment stands, given whether it was on time and whether another scope entered it. */
  ghost predicate Standing(w: World, hash: EventKey -> int, s: Scope, k: EventKey, onTime: bool, elsewhere: bool) {
    && Tidy(w.t, hash) && AllSharedOut(w.t)
    && (w.begun.None? <==> s !in w.t.cursors)
    && (onTime ==> k in w.published)
    && (k in w.published && !onTime ==> k.timeMs < CursorMs(w.t, s))
    && (InLedger(w.t.rows, k) ==> onTime || elsewhere)
    && (elsewhere ==> InLedger(w.t.rows, k))
    && (onTime ==>
          InLedger(w.t.rows, k) || CursorMs(w.t, s) <= k.timeMs || (w.begun.Some? && k.timeMs < w.begun.value))
  }

  lemma {:induction false} StandingStep(w: World, hash: EventKey -> int, s: Scope, step: Step, k: EventKey,
                                        onTime: bool, elsewhere: bool)
    requires Injective(hash) && Covers(s, k)
    requires Standing(w, hash, s, k, onTime, elsewhere) && ReadsFromCursor(w, s, step, k)
    ensures Standing(Advance(w, hash, s, step), hash, s, k,
                     onTime || InTime(w, s, step, k), elsewhere || Aside(s, step, k))
  {
    match step
    case Arrives(_) =>
    case Calls(c) =>
      CycleKeepsOrder(w.t, hash, c);
      CycleAddsExactly(w.t, hash, c);
      CycleCursors(w.t, hash, c);
      CommitsFetched(c, k);
      hide Cycle, Tidy, AllSharedOut, InLedger, Enters, Commits, Injective;
  }

  lemma {:induction false} CommitsFetched(c: Call, k: EventKey)
    ensures (Commits(c) ==> c.fetch.Fetched?) && (Enters(c, k) ==> Commits(c))
  {}

  lemma {:induction false} StandingAlways(hash: EventKey -> int, s: Scope, steps: seq<Step>, k: EventKey)
    requires Injective(hash) && Covers(s, k) && AlwaysFromCursor(hash, s, steps, k)
    ensures Standing(RunWorld(hash, s, steps), hash, s, k, OnTime(hash, s, steps, k), Elsewhere(s, steps, k))
  {
    if steps == [] {
      assert !OnTime(hash, s, [], k) && !Elsewhere(s, [], k);
    } else {
      var n := |steps| - 1;
      FromCursorSnoc(hash, s, steps, k);
      OnTimeSnoc(hash, s, steps, k);
      ElsewhereSnoc(s, steps, k);
      StandingAlways(hash, s, steps[..n], k);
      StandingStep(RunWorld(hash, s, steps[..n]), hash, s, steps[n], k,
                   OnTime(hash, s, steps[..n], k), Elsewhere(s, steps[..n], k));
      hide OnTime, Elsewhere, Standing, Advance, InTime, Aside;
    }
  }

  /** A payment between the scope's first read and its cursor is in the ledger exactly when it was
      published before the cursor passed it, or another scope entered it; no other payment matters. */
  lemma {:induction false} PaymentIsEnteredExactly(hash: EventKey -> int, s: Scope, steps: seq<Step>, k: EventKey)
    requires Injective(hash) && Covers(s, k) && AlwaysFromCursor(hash, s, steps, k)
    requires var w := RunWorld(hash, s, steps); w.begun.Some? && w.begun.value <= k.timeMs < CursorMs(w.t, s)
    ensures InLedger(RunWorld(hash, s, steps).t.rows, k) <==> OnTime(hash, s, steps, k) || Elsewhere(s, steps, k)
  {
    StandingAlways(hash, s, steps, k);
    hide RunWorld, OnTime, Elsewhere, InLedger, Tidy, AllSharedOut;
  }

  // ----- A late payment -----

  const SCOPE := Scope(1, "*")
  const PUNCTUAL := EventKey(1, "A", 100, true, 7)
  const LATE := EventKey(1, "B", 50, true, 7)

  function Reads(raw: seq<Raw>): Call { Call(SCOPE, 1000, 0, Fetched(raw, None), (_: EventKey) => []) }

  const FIRST := Reads([Raw("A", Some(100), 7, Primary("history"), None, 0)])
  const SECOND := Reads([])

  /** One payment is read at time 100, then another of time 50 appears, and the next read starts at 101. */
  const LATE_RUN := [Arrives(PUNCTUAL), Calls(FIRST), Arrives(LATE), Calls(SECOND)]

  lemma {:induction false} FirstRead(hash: EventKey -> int, w: World)
    requires Injective(hash) && w == World(EMPTY, {PUNCTUAL}, None)
    ensures var u := Advance(w, hash, SCOPE, Calls(FIRST));
      && Tidy(u.t, hash) && AllSharedOut(u.t) && u.published == {PUNCTUAL} && u.begun == Some(0)
      && InLedger(u.t.rows, PUNCTUAL) && !InLedger(u.t.rows, LATE) && CursorMs(u.t, SCOPE) > 100
    ensures Enters(FIRST, PUNCTUAL) && !Enters(FIRST, LATE)
  {
    FirstEnters();
    NothingYet(hash);
    hide Cycle, Dedupe, Enters, Commits, InLedger, Tidy, AllSharedOut, Injective;
    CycleKeepsOrder(EMPTY, hash, FIRST);
    CycleAddsExactly(EMPTY, hash, FIRST);
  }

  lemma {:induction false} FirstEnters()
    ensures Commits(FIRST) && Enters(FIRST, PUNCTUAL) && !Enters(FIRST, LATE)
  {
    assert EventKeyOf(1, FIRST.fetch.raw[0]) == PUNCTUAL;
    hide Dedupe;
  }

  lemma {:induction false} NothingYet(hash: EventKey -> int)
    ensures Tidy(EMPTY, hash) && AllSharedOut(EMPTY) && forall k :: !InLedger(EMPTY.rows, k)
  {}

  lemma {:induction false} SecondRead(hash: EventKey -> int, w: World)
    requires Injective(hash) && Tidy(w.t, hash) && AllSharedOut(w.t)
    requires InLedger(w.t.rows, PUNCTUAL) && !InLedger(w.t.rows, LATE) && CursorMs(w.t, SCOPE) > 100
    ensures var u := Advance(w, hash, SCOPE, Calls(SECOND));
      InLedger(u.t.rows, PUNCTUAL) && !InLedger(u.t.rows, LATE) && CursorMs(u.t, SCOPE) > 100
    ensures forall k :: !Enters(SECOND, k)
    ensures Since(w.t, SECOND) > 100
  {
    CycleKeepsOrder(w.t, hash, SECOND);
    CycleAddsExactly(w.t, hash, SECOND);
    hide Cycle, Dedupe, InLedger, Tidy, AllSharedOut;
  }

  /** Both payments lie between the first read and the cursor, every read is complete from its cursor on,
      and only the punctual one is in the ledger. */
  lemma {:induction false} LatePaymentIsMissed(hash: EventKey -> int)
    requires Injective(hash)
    ensures AlwaysFromCursor(hash, SCOPE, LATE_RUN, LATE) && AlwaysFromCursor(hash, SCOPE, LATE_RUN, PUNCTUAL)
    ensures var w := RunWorld(hash, SCOPE, LATE_RUN);
      && w.published == {PUNCTUAL, LATE}
      && Covers(SCOPE, PUNCTUAL) && Covers(SCOPE, LATE)
      && w.begun == Some(0) && LATE.timeMs < PUNCTUAL.timeMs < CursorMs(w.t, SCOPE)
      && InLedger(w.t.rows, PUNCTUAL) && !InLedger(w.t.rows, LATE)
  {
    hide RunWorld, Cycle, InLedger, Enters, Tidy, AllSharedOut, Injective, Dedupe, EventKeyOf;
    BetweenReads(hash);
    var r, w := LATE_RUN, RunWorld(hash, SCOPE, LATE_RUN[..3]);
    RunsInFour(hash, r);
    SecondRead(hash, w);
    assert Advance(w, hash, SCOPE, Calls(SECOND)).begun == w.begun;
    forall n, k | 0 <= n < 4 && k in {LATE, PUNCTUAL}
      ensures ReadsFromCursor(RunWorld(hash, SCOPE, r[..n]), SCOPE, r[n], k)
    {
      if n == 1 {
        assert r[n] == Calls(FIRST);
      } else if n == 3 {
        assert r[n] == Calls(SECOND);
      }
    }
  }

  /** Before each of the two reads. */
  lemma {:induction false} BetweenReads(hash: EventKey -> int)
    requires Injective(hash)
    ensures RunWorld(hash, SCOPE, LATE_RUN[..1]) == World(EMPTY, {PUNCTUAL}, None)
    ensures Enters(FIRST, PUNCTUAL) && !Enters(FIRST, LATE)
    ensures var w := RunWorld(hash, SCOPE, LATE_RUN[..3]);
      && Tidy(w.t, hash) && AllSharedOut(w.t) && w.published == {PUNCTUAL, LATE} && w.begun == Some(0)
      && InLedger(w.t.rows, PUNCTUAL) && !InLedger(w.t.rows, LATE) && CursorMs(w.t, SCOPE) > 100
  {
    hide RunWorld, Cycle, InLedger, Enters, Tidy, AllSharedOut, Injective, Commits, Dedupe, EventKeyOf;
    RunsInFour(hash, LATE_RUN);
    FirstRead(hash, World(EMPTY, {PUNCTUAL}, None));
  }

  lemma {:induction false} RunsInFour(hash: EventKey -> int, r: seq<Step>)
    requires |r| == 4
    ensures var w := World(EMPTY, {}, None);
      && RunWorld(hash, SCOPE, r[..0]) == w
      && RunWorld(hash, SCOPE, r[..1]) == Advance(w, hash, SCOPE, r[0])
      && RunWorld(hash, SCOPE, r[..2]) == Advance(RunWorld(hash, SCOPE, r[..1]), hash, SCOPE, r[1])
      && RunWorld(hash, SCOPE, r[..3]) == Advance(RunWorld(hash, SCOPE, r[..2]), hash, SCOPE, r[2])
      && RunWorld(hash, SCOPE, r) == Advance(RunWorld(hash, SCOPE, r[..3]), hash, SCOPE, r[3])
  {
    hide Advance;
    assert r[..1][..0] == r[..0] && r[..2][..1] == r[..1] && r[..3][..2] == r[..2];
  }
}

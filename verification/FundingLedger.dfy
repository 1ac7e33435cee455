/** The funding ledger: payments are entered once, paid out to strategies, and a cursor per scope
    remembers how far the exchange's history has been read. */
module FundingLedger {
  import opened Arith
  import opened FundingRows
  import Attribution

  /** The business key of a payment; `receive` is its side. */
  datatype EventKey = EventKey(exchangeId: int, symbol: string, timeMs: nat, receive: bool, units: int)

  datatype Ref = Given(text: string) | Derived(key: EventKey)

  datatype LedgerRow = LedgerRow(key: EventKey, source: Source, ref: Ref, hash: int, payload: int)

  datatype Payment = Payment(strategyId: int, positionId: Option<int>, units: int, ratio: real)

  datatype Scope = Scope(exchangeId: int, symbol: string)

  datatype Cursor = Cursor(valueMs: nat, lastSuccess: Option<int>, retryCount: nat)

  /** The tables. A ledger row's id is its place in `rows`; `payments` holds its assignments. */
  datatype Tables = Tables(rows: seq<LedgerRow>, payments: map<nat, seq<Payment>>, cursors: map<Scope, Cursor>)

  function EventKeyOf(x: int, r: Raw): EventKey
    requires Usable(r)
  {
    EventKey(x, r.symbol, r.timeMs.value, r.units >= 0, r.units)
  }

  function FindHash(rows: seq<LedgerRow>, v: int): (i: int)
    ensures -1 <= i < |rows| && (i >= 0 ==> rows[i].hash == v)
    ensures i == -1 <==> forall j :: 0 <= j < |rows| ==> rows[j].hash != v
  {
    if rows == [] then -1
    else if rows[|rows| - 1].hash == v then |rows| - 1
    else FindHash(rows[..|rows| - 1], v)
  }

  function FindKey(rows: seq<LedgerRow>, k: EventKey): (i: int)
    ensures -1 <= i < |rows| && (i >= 0 ==> rows[i].key == k)
    ensures i == -1 <==> forall j :: 0 <= j < |rows| ==> rows[j].key != k
  {
    if rows == [] then -1
    else if rows[|rows| - 1].key == k then |rows| - 1
    else FindKey(rows[..|rows| - 1], k)
  }

  /** The row a payment already has: by its hash, or else by its business key. */
  function FindRow(rows: seq<LedgerRow>, hash: EventKey -> int, k: EventKey): (i: int)
    ensures -1 <= i < |rows|
  {
    var i := FindHash(rows, hash(k));
    if i >= 0 then i else FindKey(rows, k)
  }

  function NewRow(k: EventKey, hash: EventKey -> int, e: Raw): LedgerRow {
    LedgerRow(k, e.source, if e.ref.Some? then Given(e.ref.value) else Derived(k), hash(k), e.payload)
  }

  function Refreshed(r: LedgerRow, e: Raw): LedgerRow {
    r.(source := if r.source == Unknown then e.source else r.source, payload := e.payload)
  }

  function Upserted(rows: seq<LedgerRow>, hash: EventKey -> int, x: int, e: Raw): seq<LedgerRow>
    requires Usable(e)
  {
    var k := EventKeyOf(x, e);
    var i := FindRow(rows, hash, k);
    if i >= 0 then rows[i := Refreshed(rows[i], e)] else rows + [NewRow(k, hash, e)]
  }

  function Payments(units: int, shares: seq<Attribution.Allocation>): (out: seq<Payment>)
    ensures |out| == |shares|
  {
    if shares == [] then []
    else
      var a := shares[|shares| - 1];
      Payments(units, shares[..|shares| - 1])
      + [Payment(a.strategyId, a.positionId, Attribution.Portion(units, a.ratio), a.ratio)]
  }

  function PaymentsFor(k: EventKey, cands: EventKey -> seq<Attribution.Candidate>): seq<Payment> {
    Payments(k.units, Attribution.Allocations(cands(k)))
  }

  /** Where a row of one fetch has got to: the tables and the latest time seen. */
  datatype Progress = Progress(t: Tables, maxMs: nat, inserted: nat)

  function Enter(p: Progress, hash: EventKey -> int, x: int, cands: EventKey -> seq<Attribution.Candidate>,
                 e: Raw): Progress
    requires Usable(e)
  {
    var rows := Upserted(p.t.rows, hash, x, e);
    var found := FindRow(p.t.rows, hash, EventKeyOf(x, e));
    var i := if found >= 0 then found else |p.t.rows|;
    var k := rows[i].key;
    Progress(p.t.(rows := rows, payments := p.t.payments[i := PaymentsFor(k, cands)]),
             MaxI(p.maxMs, k.timeMs),
             p.inserted + if found >= 0 then 0 else 1)
  }

  function EnterAll(p: Progress, hash: EventKey -> int, x: int, cands: EventKey -> seq<Attribution.Candidate>,
                    es: seq<Raw>): Progress
    requires AllUsable(es)
  {
    if es == [] then p else Enter(EnterAll(p, hash, x, cands, es[..|es| - 1]), hash, x, cands, es[|es| - 1])
  }

  /** What the exchange answers: it may be banned, the fetch may fail, or rows come back and the
      processing fails before row `failAt`, if at all. */
  datatype Fetch = Banned | FetchFailed | Fetched(raw: seq<Raw>, failAt: Option<nat>)

  datatype Call = Call(
    scope: Scope, now: int, lookbackSince: nat, fetch: Fetch, cands: EventKey -> seq<Attribution.Candidate>)

  predicate Commits(c: Call) {
    c.fetch.Fetched? && (c.fetch.failAt.None? || c.fetch.failAt.value > |Dedupe(c.fetch.raw)|)
  }

  function Since(t: Tables, c: Call): nat {
    if c.scope in t.cursors then t.cursors[c.scope].valueMs else c.lookbackSince
  }

  function Advanced(c: Call, since: nat, maxMs: nat, rows: seq<Raw>): Cursor {
    Cursor(if rows != [] then maxMs + 1 else since, Some(c.now), 0)
  }

  function Failed(t: Tables, c: Call): Cursor {
    if c.scope in t.cursors then t.cursors[c.scope].(retryCount := t.cursors[c.scope].retryCount + 1)
    else Cursor(c.lookbackSince, None, 1)
  }

  /** The tables after one ingestion call. */
  function Cycle(t: Tables, hash: EventKey -> int, c: Call): Tables {
    match c.fetch
    case Banned => t
    case FetchFailed => t
    case Fetched(raw, _) =>
      var rows := Dedupe(raw);
      if !Commits(c) then t.(cursors := t.cursors[c.scope := Failed(t, c)])
      else
        var p := EnterAll(Progress(t, Since(t, c), 0), hash, c.scope.exchangeId, c.cands, rows);
        p.t.(cursors := p.t.cursors[c.scope := Advanced(c, Since(t, c), p.maxMs, rows)])
  }

  datatype Status = SkippedBanned | Raised | Ok | Error

  class FundingStore {
    const hash: EventKey -> int
    var rows: seq<LedgerRow>
    var payments: map<nat, seq<Payment>>
    var cursors: map<Scope, Cursor>

    constructor (hash: EventKey -> int)
      ensures this.hash == hash && State() == Tables([], map[], map[])
    {
      this.hash := hash;
      rows, payments, cursors := [], map[], map[];
    }

    function State(): Tables
      reads this
    {
      Tables(rows, payments, cursors)
    }

    method UpsertFundingEvent(x: int, e: Raw) returns (i: nat, created: bool)
      requires Usable(e)
      modifies this`rows
      ensures rows == Upserted(old(rows), hash, x, e)
      ensures i < |rows| && i == if created then |old(rows)| else FindRow(old(rows), hash, EventKeyOf(x, e))
      ensures created <==> FindRow(old(rows), hash, EventKeyOf(x, e)) < 0
    {
      var k := EventKeyOf(x, e);
      var j := FindHash(rows, hash(k));
      if j < 0 {
        j := FindKey(rows, k);
      }
      if j >= 0 {
        rows := rows[j := Refreshed(rows[j], e)];
        return j, false;
      }
      rows := rows + [NewRow(k, hash, e)];
      return |rows| - 1, true;
    }

    method AssignFundingEvent(i: nat, cands: EventKey -> seq<Attribution.Candidate>)
      requires i < |rows|
      modifies this`payments
      ensures payments == old(payments)[i := PaymentsFor(rows[i].key, cands)]
    {
      var allocations := Attribution.ResolveAssignmentAllocations(cands(rows[i].key));
      var out: seq<Payment> := [];
      for j := 0 to |allocations|
        invariant out == Payments(rows[i].key.units, allocations[..j])
      {
        assert allocations[..j + 1][..j] == allocations[..j];
        var a := allocations[j];
        out := out + [Payment(a.strategyId, a.positionId, Attribution.Portion(rows[i].key.units, a.ratio), a.ratio)];
      }
      assert allocations[..|allocations|] == allocations;
      payments := payments[i := out];
    }

    method EnterRow(x: int, cands: EventKey -> seq<Attribution.Candidate>, e: Raw, maxMs: nat, inserted: nat)
      returns (maxMs': nat, inserted': nat)
      requires Usable(e)
      modifies this`rows, this`payments
      ensures Progress(State(), maxMs', inserted') ==
        Enter(Progress(old(State()), maxMs, inserted), hash, x, cands, e)
      ensures inserted' - inserted == |rows| - |old(rows)|
    {
      var i, created := UpsertFundingEvent(x, e);
      inserted' := if created then inserted + 1 else inserted;
      AssignFundingEvent(i, cands);
      maxMs' := if rows[i].key.timeMs > maxMs then rows[i].key.timeMs else maxMs;
    }

    /** A failure on the way restores the tables and only counts the retry. */
    method IngestExchangeFundingEvents(c: Call) returns (status: Status, inserted: nat)
      modifies this
      ensures State() == Cycle(old(State()), hash, c)
      ensures status ==
        if c.fetch.Banned? then SkippedBanned else if c.fetch.FetchFailed? then Raised
        else if Commits(c) then Ok else Error
      ensures status.Ok? ==> inserted == |rows| - |old(rows)|
    {
      hide EnterAll, Dedupe;
      inserted := 0;
      if c.fetch.Banned? {
        return SkippedBanned, 0;
      }
      var since: nat := if c.scope in cursors then cursors[c.scope].valueMs else c.lookbackSince;
      if c.fetch.FetchFailed? {
        return Raised, 0;
      }
      var fetched := DedupeFundingRows(c.fetch.raw);
      var snapshot := State();
      var ok, maxMs, n := EnterRows(c.scope.exchangeId, c.cands, fetched, since, c.fetch.failAt);
      if !ok {
        Rollback(snapshot, c);
        return Error, n;
      }
      cursors := cursors[c.scope := Cursor(if fetched != [] then maxMs + 1 else since, Some(c.now), 0)];
      return Ok, n;
    }

    /** Enters and assigns the fetched rows one by one, up to the failure, if any. */
    method EnterRows(x: int, cands: EventKey -> seq<Attribution.Candidate>, fetched: seq<Raw>, since: nat,
                     failAt: Option<nat>)
      returns (ok: bool, maxMs: nat, inserted: nat)
      requires AllUsable(fetched)
      modifies this`rows, this`payments
      ensures ok <==> failAt.None? || failAt.value > |fetched|
      ensures ok ==>
        Progress(State(), maxMs, inserted) == EnterAll(Progress(old(State()), since, 0), hash, x, cands, fetched)
      ensures ok ==> inserted == |rows| - |old(rows)|
    {
      hide Enter;
      maxMs, inserted := since, 0;
      for i := 0 to |fetched|
        invariant failAt.Some? ==> i <= failAt.value
        invariant Progress(State(), maxMs, inserted) ==
          EnterAll(Progress(old(State()), since, 0), hash, x, cands, fetched[..i])
        invariant inserted == |rows| - |old(rows)|
      {
        if failAt == Some(i) {
          return false, maxMs, inserted;
        }
        assert fetched[..i + 1][..i] == fetched[..i];
        maxMs, inserted := EnterRow(x, cands, fetched[i], maxMs, inserted);
      }
      assert fetched[..|fetched|] == fetched;
      ok := failAt != Some(|fetched|);
    }

    method Rollback(snapshot: Tables, c: Call)
      modifies this
      ensures State() == snapshot.(cursors := snapshot.cursors[c.scope := Failed(snapshot, c)])
    {
      rows, payments, cursors := snapshot.rows, snapshot.payments, snapshot.cursors;
      cursors := cursors[c.scope := Failed(snapshot, c)];
    }
  }
}

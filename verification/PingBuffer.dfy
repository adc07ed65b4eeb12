/**
 * The GPS ping buffer: apps/mobile/src/location/buffer.native.ts over the SQLite table of
 * apps/mobile/src/location/bufferStore.native.ts.  Enqueues and any number of flushes
 * interleave; a flush reads the oldest rows, waits for the server, and removes exactly
 * the rows it sent.
 */
module PingBuffer {
  import opened Prelude

  type Ping = string
  type FlushId = nat

  const BATCH_SIZE_MAX: nat := 200
  const MAX_ROUNDS: nat := 25

  datatype Row = Row(id: nat, ping: Ping)

  // ----- the table -----

  function Min(a: nat, b: nat): nat { if a < b then a else b }

  /** `SELECT ... ORDER BY id LIMIT ?`: the table is kept in id order. */
  function Oldest(rows: seq<Row>, limit: nat): seq<Row> {
    rows[..Min(limit, |rows|)]
  }

  predicate Names(sent: seq<Row>, id: nat) {
    exists i :: 0 <= i < |sent| && sent[i].id == id
  }

  /** `DELETE ... WHERE id IN (...)`: what stays. */
  function Kept(rows: seq<Row>, sent: seq<Row>): seq<Row> {
    if rows == [] then []
    else (if Names(sent, rows[0].id) then [] else [rows[0]]) + Kept(rows[1..], sent)
  }

  /** What the delete takes away, in id order. */
  function Taken(rows: seq<Row>, sent: seq<Row>): seq<Row> {
    if rows == [] then []
    else (if Names(sent, rows[0].id) then [rows[0]] else []) + Taken(rows[1..], sent)
  }

  predicate Ascending(rows: seq<Row>) {
    forall i, j :: 0 <= i < j < |rows| ==> rows[i].id < rows[j].id
  }

  /** When exactly the first `k` rows are named, they go and the rest stays. */
  lemma {:induction false} SplitByNames(rows: seq<Row>, k: nat, sent: seq<Row>)
    requires k <= |rows| && forall i :: 0 <= i < |rows| ==> (Names(sent, rows[i].id) <==> i < k)
    ensures Kept(rows, sent) == rows[k..] && Taken(rows, sent) == rows[..k]
  {
    if rows == [] {
    } else {
      assert forall i :: 0 <= i < |rows[1..]| ==> rows[1..][i] == rows[i + 1];
      SplitByNames(rows[1..], if k == 0 then 0 else k - 1, sent);
      FrontAndRest(rows, k);
    }
  }

  lemma FrontAndRest(rows: seq<Row>, k: nat)
    requires rows != [] && k <= |rows|
    ensures k > 0 ==> [] + rows[1..][k - 1..] == rows[k..] && [rows[0]] + rows[1..][..k - 1] == rows[..k]
    ensures k == 0 ==> [rows[0]] + rows[1..][0..] == rows[0..] && [] + rows[1..][..0] == rows[..0]
  {
  }

  function Members(rows: seq<Row>): set<Row> {
    set r | r in rows
  }

  // ----- interleaved flushes -----

  /** A flush between its read and its end; `answered` says that the server answered 200. */
  datatype Flight = Flight(batch: seq<Row>, answered: bool)

  /** `enqueued`, `removed` and `delivered` are the history: every row ever appended, the
      rows deleted since, in that order, and the rows the server ever answered 200 for. */
  datatype State = State(
    rows: seq<Row>,
    lastId: nat,
    flights: map<FlushId, Flight>,
    enqueued: seq<Row>,
    removed: seq<Row>,
    delivered: set<Row>)

  /** `Fail` is a flush that ends without its answer or without its delete, `Die` the end
      of the process: the table survives, the flushes do not. */
  datatype Event =
    | Enqueue(ping: Ping, gap: nat)
    | ReadBatch(f: FlushId, limit: nat)
    | Serve(f: FlushId)
    | Delete(f: FlushId)
    | Fail(f: FlushId)
    | Die

  const INIT := State([], 0, map[], [], [], {})

  /** AUTOINCREMENT never reuses an id; a failed insert may leave a gap. */
  function DoEnqueue(s: State, ping: Ping, gap: nat): State {
    var row := Row(s.lastId + 1 + gap, ping);
    s.(rows := s.rows + [row], lastId := row.id, enqueued := s.enqueued + [row])
  }

  function DoRead(s: State, f: FlushId, limit: nat): State {
    if f in s.flights then s else s.(flights := s.flights[f := Flight(Oldest(s.rows, limit), false)])
  }

  /** The server answers 200 for the whole batch. */
  function DoServe(s: State, f: FlushId): State {
    if f !in s.flights then s
    else s.(flights := s.flights[f := Flight(s.flights[f].batch, true)],
            delivered := s.delivered + Members(s.flights[f].batch))
  }

  /** Only an answered batch is deleted. */
  function DoDelete(s: State, f: FlushId): State {
    if f !in s.flights || !s.flights[f].answered then s
    else s.(rows := Kept(s.rows, s.flights[f].batch),
            removed := s.removed + Taken(s.rows, s.flights[f].batch),
            flights := s.flights - {f})
  }

  function Next(s: State, e: Event): State {
    match e
    case Enqueue(ping, gap) => DoEnqueue(s, ping, gap)
    case ReadBatch(f, limit) => DoRead(s, f, limit)
    case Serve(f) => DoServe(s, f)
    case Delete(f) => DoDelete(s, f)
    case Fail(f) => s.(flights := s.flights - {f})
    case Die => s.(flights := map[])
  }

  function Run(s: State, events: seq<Event>): State
    decreases |events|
  {
    if events == [] then s else Next(Run(s, events[..|events| - 1]), events[|events| - 1])
  }

  /** The first `n` rows ever enqueued are those the server has answered for. */
  ghost predicate DeliveredFirst(s: State, n: nat) {
    |s.removed| <= n <= |s.enqueued| && s.delivered == Members(s.enqueued[..n])
  }

  /** A batch in flight is a stretch of the history that starts no later than the first
      row still stored; once answered it lies within the first `n`. */
  ghost predicate FlightOk(s: State, f: FlushId, n: nat)
    requires f in s.flights
  {
    exists a: nat, b: nat :: IsStretch(s, s.flights[f].batch, a, b) && (s.flights[f].answered ==> b <= n)
  }

  predicate IsStretch(s: State, sent: seq<Row>, a: nat, b: nat) {
    a <= |s.removed| && a <= b <= |s.enqueued| && sent == s.enqueued[a..b]
  }

  ghost predicate FlightsOk(s: State, n: nat) {
    forall f :: f in s.flights ==> FlightOk(s, f, n)
  }

  ghost predicate Inv(s: State, n: nat) {
    && s.removed + s.rows == s.enqueued
    && Ascending(s.enqueued)
    && (s.enqueued != [] ==> s.enqueued[|s.enqueued| - 1].id <= s.lastId)
    && DeliveredFirst(s, n)
    && FlightsOk(s, n)
  }

  /** Flights that were in order stay so while the history only grows. */
  lemma FlightsStayOk(s: State, s': State, n: nat, m: nat)
    requires FlightsOk(s, n) && n <= m && |s.removed| <= |s'.removed| && s.enqueued <= s'.enqueued
    requires forall f :: f in s'.flights ==> f in s.flights && s'.flights[f] == s.flights[f]
    ensures FlightsOk(s', m)
  {
    forall f | f in s'.flights
      ensures FlightOk(s', f, m)
    {
      FlightStaysOk(s, s', f, n, m);
    }
  }

  lemma FlightStaysOk(s: State, s': State, f: FlushId, n: nat, m: nat)
    requires f in s.flights && f in s'.flights && s'.flights[f] == s.flights[f] && FlightOk(s, f, n)
    requires n <= m && |s.removed| <= |s'.removed| && s.enqueued <= s'.enqueued
    ensures FlightOk(s', f, m)
  {
    var a: nat, b: nat :| IsStretch(s, s.flights[f].batch, a, b) && (s.flights[f].answered ==> b <= n);
    assert s'.enqueued[a..b] == s.enqueued[a..b];
    assert IsStretch(s', s'.flights[f].batch, a, b);
  }

  lemma EnqueueKeepsInv(s: State, n: nat, ping: Ping, gap: nat)
    requires Inv(s, n)
    ensures Inv(DoEnqueue(s, ping, gap), n)
  {
    var s' := DoEnqueue(s, ping, gap);
    assert s.removed + s.rows + [s'.rows[|s.rows|]] == s.removed + s'.rows;
    assert s'.enqueued[..n] == s.enqueued[..n];
    FlightsStayOk(s, s', n, n);
  }

  /** A fresh batch is the front of what is stored. */
  lemma FreshFlightIsOk(s: State, n: nat, f: FlushId, limit: nat)
    requires s.removed + s.rows == s.enqueued && f !in s.flights
    ensures FlightOk(DoRead(s, f, limit), f, n)
  {
    var s' := DoRead(s, f, limit);
    FrontIsStretch(s, Min(limit, |s.rows|));
    assert IsStretch(s', s'.flights[f].batch, |s.removed|, |s.removed| + Min(limit, |s.rows|));
  }

  lemma ReadKeepsInv(s: State, n: nat, f: FlushId, limit: nat)
    requires Inv(s, n)
    ensures Inv(DoRead(s, f, limit), n)
  {
    if f !in s.flights {
      var s' := DoRead(s, f, limit);
      FreshFlightIsOk(s, n, f, limit);
      forall g | g in s'.flights
        ensures FlightOk(s', g, n)
      {
        if g != f { FlightStaysOk(s, s', g, n, n); }
      }
    }
  }

  lemma FrontIsStretch(s: State, k: nat)
    requires s.removed + s.rows == s.enqueued && k <= |s.rows|
    ensures s.enqueued[|s.removed|..|s.removed| + k] == s.rows[..k]
  {
  }

  /** A batch starts within what was delivered, so it can only extend that prefix. */
  lemma PrefixExtends(all: seq<Row>, n: nat, a: nat, b: nat)
    requires a <= n <= |all| && a <= b <= |all|
    ensures Members(all[..n]) + Members(all[a..b]) == Members(all[..if n < b then b else n])
  {
    var m := if n < b then b else n;
    forall r | r in all[..m]
      ensures r in all[..n] || r in all[a..b]
    {
      var i :| 0 <= i < m && all[i] == r;
      if i < n { assert all[..n][i] == r; } else { assert all[a..b][i - a] == r; }
    }
    SliceMembers(all, 0, n, m);
    SliceMembers(all, a, b, m);
    assert all[0..n] == all[..n];
  }

  lemma SliceMembers(all: seq<Row>, a: nat, b: nat, m: nat)
    requires a <= b <= m <= |all|
    ensures Members(all[a..b]) <= Members(all[..m])
  {
    forall r | r in all[a..b]
      ensures r in all[..m]
    {
      var i :| 0 <= i < b - a && all[a..b][i] == r;
      assert all[..m][a + i] == r;
    }
  }

  lemma ServeKeepsInv(s: State, n: nat, f: FlushId) returns (m: nat)
    requires Inv(s, n)
    ensures n <= m && Inv(DoServe(s, f), m)
  {
    m := n;
    if f in s.flights {
      m := ServeExtends(s, n, f);
    }
  }

  lemma ServeExtends(s: State, n: nat, f: FlushId) returns (m: nat)
    requires DeliveredFirst(s, n) && FlightsOk(s, n) && f in s.flights
    ensures n <= m && DeliveredFirst(DoServe(s, f), m) && FlightsOk(DoServe(s, f), m)
  {
    assert FlightOk(s, f, n);
    var a: nat, b: nat :| IsStretch(s, s.flights[f].batch, a, b) && (s.flights[f].answered ==> b <= n);
    m := if n < b then b else n;
    ServedIsDelivered(s, n, f, a, b);
    ServedFlightOk(s, n, f, a, b, m);
    ServedFlightsOk(s, n, f, m);
  }

  lemma ServedIsDelivered(s: State, n: nat, f: FlushId, a: nat, b: nat)
    requires DeliveredFirst(s, n) && f in s.flights && IsStretch(s, s.flights[f].batch, a, b)
    ensures DeliveredFirst(DoServe(s, f), if n < b then b else n)
  {
    PrefixExtends(s.enqueued, n, a, b);
  }

  lemma ServedFlightOk(s: State, n: nat, f: FlushId, a: nat, b: nat, m: nat)
    requires f in s.flights && IsStretch(s, s.flights[f].batch, a, b) && b <= m
    ensures FlightOk(DoServe(s, f), f, m)
  {
    assert IsStretch(DoServe(s, f), DoServe(s, f).flights[f].batch, a, b);
  }

  lemma ServedFlightsOk(s: State, n: nat, f: FlushId, m: nat)
    requires FlightsOk(s, n) && f in s.flights && n <= m && FlightOk(DoServe(s, f), f, m)
    ensures FlightsOk(DoServe(s, f), m)
  {
    forall g | g in s.flights
      ensures FlightOk(DoServe(s, f), g, m)
    {
      if g != f { FlightStaysOk(s, DoServe(s, f), g, n, m); }
    }
  }

  lemma NotNamed(sent: seq<Row>, id: nat)
    requires forall j :: 0 <= j < |sent| ==> sent[j].id != id
    ensures !Names(sent, id)
  {
  }

  /** The rows of a stretch name exactly what is left of the stretch in the table. */
  lemma StretchNames(s: State, sent: seq<Row>, a: nat, b: nat, k: nat, i: nat)
    requires s.removed + s.rows == s.enqueued && Ascending(s.enqueued) && IsStretch(s, sent, a, b) && i < |s.rows|
    requires k == if b <= |s.removed| then 0 else b - |s.removed|
    ensures Names(sent, s.rows[i].id) <==> i < k
  {
    var m := |s.removed|;
    assert s.rows[i] == s.enqueued[m + i];
    if i < k {
      assert sent[m + i - a] == s.rows[i];
    } else {
      forall j | 0 <= j < |sent|
        ensures sent[j].id != s.rows[i].id
      {
        assert sent[j] == s.enqueued[a + j];
      }
      NotNamed(sent, s.rows[i].id);
    }
  }

  /** Deleting a batch, whenever it was read, takes the front of the table and nothing else. */
  lemma DeleteTakesTheFront(s: State, n: nat, f: FlushId) returns (k: nat)
    requires Inv(s, n) && f in s.flights
    ensures k <= |s.rows| && (s.flights[f].answered ==> |s.removed| + k <= n)
    ensures Taken(s.rows, s.flights[f].batch) == s.rows[..k] && Kept(s.rows, s.flights[f].batch) == s.rows[k..]
  {
    var sent := s.flights[f].batch;
    var a: nat, b: nat :| IsStretch(s, sent, a, b) && (s.flights[f].answered ==> b <= n);
    k := if b <= |s.removed| then 0 else b - |s.removed|;
    forall i | 0 <= i < |s.rows|
      ensures Names(sent, s.rows[i].id) <==> i < k
    {
      StretchNames(s, sent, a, b, k, i);
    }
    SplitByNames(s.rows, k, sent);
  }

  lemma FrontMoves(removed: seq<Row>, rows: seq<Row>, k: nat)
    requires k <= |rows|
    ensures removed + rows[..k] + rows[k..] == removed + rows
  {
  }

  lemma DeleteKeepsInv(s: State, n: nat, f: FlushId)
    requires Inv(s, n)
    ensures Inv(DoDelete(s, f), n)
  {
    if f in s.flights && s.flights[f].answered {
      var k := DeleteTakesTheFront(s, n, f);
      FrontMoves(s.removed, s.rows, k);
      FlightsStayOk(s, DoDelete(s, f), n, n);
    }
  }

  /** Every event keeps the invariant, and what was delivered stays delivered. */
  lemma NextKeepsInv(s: State, n: nat, e: Event) returns (m: nat)
    requires Inv(s, n)
    ensures n <= m && Inv(Next(s, e), m)
  {
    m := n;
    match e
    case Enqueue(ping, gap) => EnqueueKeepsInv(s, n, ping, gap);
    case ReadBatch(f, limit) => ReadKeepsInv(s, n, f, limit);
    case Serve(f) => m := ServeKeepsInv(s, n, f);
    case Delete(f) => DeleteKeepsInv(s, n, f);
    case Fail(f) => FlightsStayOk(s, Next(s, e), n, n);
    case Die => FlightsStayOk(s, Next(s, e), n, n);
  }

  lemma {:induction false} RunKeepsInv(events: seq<Event>) returns (n: nat)
    ensures Inv(Run(INIT, events), n)
    decreases |events|
  {
    if events == [] {
      n := 0;
    } else {
      n := RunKeepsInv(events[..|events| - 1]);
      n := NextKeepsInv(Run(INIT, events[..|events| - 1]), n, events[|events| - 1]);
    }
  }

  // ----- the theorems -----

  /** Whatever the interleaving, and wherever the app dies: the rows the server answered 200
      for are the first `n` ever enqueued, those removed are a prefix of them, and the table
      holds exactly the rest of the history, in order. */
  lemma {:induction false} NoPingIsLost(events: seq<Event>) returns (n: nat)
    ensures var s := Run(INIT, events);
            && s.removed + s.rows == s.enqueued && Ascending(s.enqueued)
            && |s.removed| <= n <= |s.enqueued| && s.delivered == Members(s.enqueued[..n])
  {
    n := RunKeepsInv(events);
  }

  lemma FirstAreDelivered(s: State, n: nat)
    requires DeliveredFirst(s, n)
    ensures forall i :: 0 <= i < n ==> s.enqueued[i] in s.delivered
  {
    forall i | 0 <= i < n
      ensures s.enqueued[i] in s.delivered
    {
      assert s.enqueued[..n][i] == s.enqueued[i];
    }
  }

  /** In particular a row is stored until the server has answered for it. */
  lemma {:induction false} UnansweredRowsStay(events: seq<Event>, row: Row)
    requires row in Run(INIT, events).enqueued && row !in Run(INIT, events).delivered
    ensures row in Run(INIT, events).rows
  {
    var n := RunKeepsInv(events);
    var s := Run(INIT, events);
    var i :| 0 <= i < |s.enqueued| && s.enqueued[i] == row;
    FirstAreDelivered(s, n);
    assert (s.removed + s.rows)[i] == s.rows[i - |s.removed|];
  }

  /** Deleting a batch never removes a row that came in after the batch was read. */
  lemma {:induction false} LaterRowsSurvive(before: seq<Event>, f: FlushId, limit: nat, during: seq<Event>, row: Row)
    requires f !in Run(INIT, before).flights
    requires var s := Run(INIT, before + [ReadBatch(f, limit)] + during);
             && f in s.flights && s.flights[f].batch == Oldest(Run(INIT, before).rows, limit)
             && row in s.rows && row.id > Run(INIT, before).lastId
    ensures row in DoDelete(Run(INIT, before + [ReadBatch(f, limit)] + during), f).rows
  {
    var s0 := Run(INIT, before);
    var s := Run(INIT, before + [ReadBatch(f, limit)] + during);
    var n := RunKeepsInv(before);
    forall i | 0 <= i < |s.flights[f].batch|
      ensures s.flights[f].batch[i].id <= s0.lastId
    {
      assert s.flights[f].batch[i] == s0.rows[i] == s0.enqueued[|s0.removed| + i];
    }
    UnnamedStays(s.rows, s.flights[f].batch, row);
  }

  lemma {:induction false} UnnamedStays(rows: seq<Row>, sent: seq<Row>, row: Row)
    requires row in rows && !Names(sent, row.id)
    ensures row in Kept(rows, sent)
  {
    if rows[0] != row {
      UnnamedStays(rows[1..], sent, row);
    }
  }

  // ----- the engine in its own form -----

  datatype Answer = TransportError | NotOk | Acknowledged(accepted: nat, codes: seq<string>)

  datatype FlushResult = FlushResult(completed: bool, sent: nat, accepted: nat, rejected: nat, codes: seq<string>)

  /** `Math.min(deps.batchSize ?? BATCH_SIZE_MAX, BATCH_SIZE_MAX)`. */
  function BatchSize(requested: Option<nat>): nat {
    Min(if requested.Some? then requested.value else BATCH_SIZE_MAX, BATCH_SIZE_MAX)
  }

  /** One undisturbed flush. */
  function FlushOutcome(n: nat, batch: nat, answer: Answer): FlushResult {
    var sent := Min(batch, n);
    if sent == 0 then FlushResult(true, 0, 0, 0, [])
    else match answer
      case TransportError => FlushResult(false, sent, 0, 0, [])
      case NotOk => FlushResult(false, sent, 0, 0, [])
      case Acknowledged(accepted, codes) => FlushResult(true, sent, accepted, |codes|, codes)
  }

  /** How many rows an undisturbed flushAll still removes from its round `round` on. */
  function Drained(n: nat, batch: nat, answers: seq<Answer>, round: nat): (d: nat)
    requires round <= |answers|
    ensures d <= n
    decreases |answers| - round
  {
    var sent := Min(batch, n);
    if round == |answers| || sent == 0 || !answers[round].Acknowledged? then 0
    else sent + Drained(n - sent, batch, answers, round + 1)
  }

  /** What flushAll reports: the last round that carried rows. */
  function LastRound(n: nat, batch: nat, answers: seq<Answer>, round: nat, last: FlushResult): FlushResult
    requires round <= |answers|
    decreases |answers| - round
  {
    if round == |answers| then last
    else
      var one := FlushOutcome(n, batch, answers[round]);
      if one.sent == 0 then last
      else if !one.completed then one
      else LastRound(n - one.sent, batch, answers, round + 1, one)
  }

  function LeadingAcknowledgements(answers: seq<Answer>, round: nat): nat
    requires round <= |answers|
    decreases |answers| - round
  {
    if round == |answers| || !answers[round].Acknowledged? then 0 else 1 + LeadingAcknowledgements(answers, round + 1)
  }

  /** It removes one full batch per acknowledged round until the table is empty. */
  lemma {:induction false} DrainsWholeBatches(n: nat, batch: nat, answers: seq<Answer>, round: nat)
    requires round <= |answers|
    ensures Drained(n, batch, answers, round) == Min(n, LeadingAcknowledgements(answers, round) * batch)
    decreases |answers| - round
  {
    if round < |answers| && answers[round].Acknowledged? {
      var k := LeadingAcknowledgements(answers, round + 1);
      assert (1 + k) * batch == batch + k * batch;
      if Min(batch, n) > 0 {
        DrainsWholeBatches(n - Min(batch, n), batch, answers, round + 1);
      }
      if batch == 0 { assert (1 + k) * batch == 0; }
    }
  }

  class Buffer {
    var rows: seq<Row>
    var lastId: nat
    const batchSize: nat

    constructor (requested: Option<nat>)
      ensures rows == [] && lastId == 0 && batchSize == BatchSize(requested)
    {
      rows, lastId := [], 0;
      batchSize := BatchSize(requested);
    }

    method Append(ping: Ping)
      modifies this
      ensures lastId == old(lastId) + 1 && rows == old(rows) + [Row(lastId, ping)]
    {
      lastId := lastId + 1;
      rows := rows + [Row(lastId, ping)];
    }

    method Remove(sent: seq<Row>)
      modifies this`rows
      ensures rows == Kept(old(rows), sent)
    {
      var kept, i := [], 0;
      while i < |rows|
        invariant 0 <= i <= |rows| && rows == old(rows)
        invariant Kept(rows, sent) == kept + Kept(rows[i..], sent)
      {
        KeptStep(rows, i, sent, kept);
        if !Names(sent, rows[i].id) {
          kept := kept + [rows[i]];
        }
        i := i + 1;
      }
      rows := kept;
    }

    /** flush: read, post, and on any 200 remove what was sent. */
    method Flush(answer: Answer) returns (result: FlushResult)
      requires Ascending(rows)
      modifies this`rows
      ensures result == FlushOutcome(|old(rows)|, batchSize, answer)
      ensures rows == if result.completed then old(rows)[result.sent..] else old(rows)
      ensures Ascending(rows)
    {
      var batch := Oldest(rows, batchSize);
      if |batch| == 0 {
        return FlushResult(true, 0, 0, 0, []);
      }
      if !answer.Acknowledged? {
        return FlushResult(false, |batch|, 0, 0, []);
      }
      RemovesTheBatch(rows, batchSize);
      Remove(batch);
      return FlushResult(true, |batch|, answer.accepted, |answer.codes|, answer.codes);
    }

    /** One round of flushAll, seen from the table it started with. */
    method Round(answer: Answer, ghost start: seq<Row>, ghost gone: nat) returns (one: FlushResult)
      requires gone <= |start| && Remaining(start, gone, rows)
      modifies this`rows
      ensures one == FlushOutcome(|start| - gone, batchSize, answer)
      ensures Remaining(start, gone + if one.completed then one.sent else 0, rows)
    {
      one := Flush(answer);
    }

    /** flushAll: at most 25 rounds, ended by an empty table or an incomplete round. */
    method FlushAll(answers: seq<Answer>) returns (last: FlushResult)
      requires |answers| == MAX_ROUNDS && Ascending(rows)
      modifies this`rows
      ensures Remaining(old(rows), Drained(|old(rows)|, batchSize, answers, 0), rows)
      ensures last == LastRound(|old(rows)|, batchSize, answers, 0, NOTHING)
    {
      last := NOTHING;
      var round := 0;
      ghost var start, gone: nat := rows, 0;
      while round < MAX_ROUNDS
        invariant 0 <= round <= MAX_ROUNDS && gone <= |start| && Remaining(start, gone, rows)
        invariant Drained(|start|, batchSize, answers, 0) == gone + Drained(|start| - gone, batchSize, answers, round)
        invariant LastRound(|start|, batchSize, answers, 0, NOTHING) ==
            LastRound(|start| - gone, batchSize, answers, round, last)
      {
        var one := Round(answers[round], start, gone);
        if one.sent > 0 {
          last := one;
        }
        if !one.completed || one.sent == 0 {
          return;
        }
        gone := gone + one.sent;
        round := round + 1;
      }
    }
  }

  lemma KeptStep(rows: seq<Row>, i: nat, sent: seq<Row>, kept: seq<Row>)
    requires i < |rows|
    ensures kept + Kept(rows[i..], sent) ==
            (if Names(sent, rows[i].id) then kept else kept + [rows[i]]) + Kept(rows[i + 1..], sent)
  {
    assert rows[i..][1..] == rows[i + 1..];
    Regroup(kept, if Names(sent, rows[i].id) then [] else [rows[i]], Kept(rows[i + 1..], sent));
  }

  const NOTHING := FlushResult(true, 0, 0, 0, [])

  /** `rows` is what is left of `start` once its first `gone` rows are away. */
  ghost predicate Remaining(start: seq<Row>, gone: nat, rows: seq<Row>) {
    gone <= |start| && rows == start[gone..] && Ascending(rows)
  }

  lemma PrefixNames(rows: seq<Row>, k: nat, i: nat)
    requires Ascending(rows) && k <= |rows| && i < |rows|
    ensures Names(rows[..k], rows[i].id) <==> i < k
  {
    if i < k {
      assert rows[..k][i].id == rows[i].id;
    } else {
      NotNamed(rows[..k], rows[i].id);
    }
  }

  /** Deleting a batch just read deletes exactly the front of the table. */
  lemma {:induction false} RemovesTheBatch(rows: seq<Row>, limit: nat)
    requires Ascending(rows)
    ensures Kept(rows, Oldest(rows, limit)) == rows[Min(limit, |rows|)..]
  {
    var k := Min(limit, |rows|);
    forall i | 0 <= i < |rows|
      ensures Names(rows[..k], rows[i].id) <==> i < k
    {
      PrefixNames(rows, k, i);
    }
    SplitByNames(rows, k, rows[..k]);
  }

  /** With every round acknowledged, flushAll removes min(n, 25 batches). */
  lemma FlushAllDrains(n: nat, batch: nat, answers: seq<Answer>)
    requires |answers| == MAX_ROUNDS && forall i :: 0 <= i < |answers| ==> answers[i].Acknowledged?
    ensures Drained(n, batch, answers, 0) == Min(n, 25 * batch)
  {
    AllLeading(answers, 0);
    DrainsWholeBatches(n, batch, answers, 0);
  }

  lemma {:induction false} AllLeading(answers: seq<Answer>, round: nat)
    requires round <= |answers| && forall i :: 0 <= i < |answers| ==> answers[i].Acknowledged?
    ensures LeadingAcknowledgements(answers, round) == |answers| - round
    decreases |answers| - round
  {
    if round < |answers| {
      AllLeading(answers, round + 1);
    }
  }

  // ----- what every event does, and nothing else -----

  /** In every reachable state: an enqueue adds one row at the end under an id no row ever
      had; a read takes the oldest rows, as many as asked for or all there are; a 200 marks
      the flush and its rows; the delete of an answered flush takes away its rows and no
      others; nothing else changes the table. */
  lemma {:induction false} EventsAreDecided(events: seq<Event>, e: Event)
    ensures var s := Run(INIT, events); var s' := Next(s, e);
            match e
            case Enqueue(ping, gap) =>
              && s'.rows != [] && s'.rows[..|s'.rows| - 1] == s.rows && s'.rows[|s.rows|].ping == ping
              && (forall row :: row in s.enqueued ==> row.id < s'.rows[|s.rows|].id)
              && s'.flights == s.flights && s'.delivered == s.delivered
            case ReadBatch(f, limit) =>
              && s'.rows == s.rows && s'.delivered == s.delivered && f in s'.flights
              && (f in s.flights ==> s' == s)
              && (f !in s.flights ==>
                    && s'.flights == s.flights[f := s'.flights[f]] && !s'.flights[f].answered
                    && s'.flights[f].batch <= s.rows && |s'.flights[f].batch| <= limit
                    && (|s'.flights[f].batch| < limit ==> s'.flights[f].batch == s.rows))
            case Serve(f) =>
              && s'.rows == s.rows && s'.flights.Keys == s.flights.Keys
              && (forall g :: g in s.flights ==>
                    s'.flights[g].batch == s.flights[g].batch
                    && s'.flights[g].answered == (g == f || s.flights[g].answered))
              && (forall row :: row in s'.delivered <==>
                    row in s.delivered || (f in s.flights && row in s.flights[f].batch))
            case Delete(f) =>
              && (f !in s.flights || !s.flights[f].answered ==> s' == s)
              && (f in s.flights && s.flights[f].answered ==>
                    && s'.flights == s.flights - {f} && s'.delivered == s.delivered
                    && (forall row :: row in s'.rows <==> row in s.rows && row !in s.flights[f].batch))
            case Fail(f) => s'.rows == s.rows && s'.flights == s.flights - {f} && s'.delivered == s.delivered
            case Die => s'.rows == s.rows && s'.flights == map[] && s'.delivered == s.delivered
  {
    var n := RunKeepsInv(events);
    var s := Run(INIT, events);
    match e
    case Enqueue(ping, gap) =>
      forall row | row in s.enqueued
        ensures row.id <= s.lastId
      {
        var i :| 0 <= i < |s.enqueued| && s.enqueued[i] == row;
        assert i < |s.enqueued| - 1 ==> s.enqueued[i].id < s.enqueued[|s.enqueued| - 1].id;
      }
    case Delete(f) =>
      if f in s.flights && s.flights[f].answered {
        DeleteTakesItsBatch(s, n, f);
      }
    case ReadBatch(f, limit) =>
    case Serve(f) =>
    case Fail(f) =>
    case Die =>
  }

  lemma DeleteTakesItsBatch(s: State, n: nat, f: FlushId)
    requires Inv(s, n) && f in s.flights && s.flights[f].answered
    ensures forall row :: row in DoDelete(s, f).rows <==> row in s.rows && row !in s.flights[f].batch
  {
    var sent := s.flights[f].batch;
    var a: nat, b: nat :| IsStretch(s, sent, a, b);
    forall row
      ensures row in Kept(s.rows, sent) <==> row in s.rows && row !in sent
    {
      KeptMembers(s.rows, sent, row);
      if row in s.rows {
        NamesItself(s, sent, a, b, row);
      }
    }
  }

  /** Among the rows of the history an id names one row. */
  lemma NamesItself(s: State, sent: seq<Row>, a: nat, b: nat, row: Row)
    requires s.removed + s.rows == s.enqueued && Ascending(s.enqueued) && IsStretch(s, sent, a, b) && row in s.rows
    ensures Names(sent, row.id) <==> row in sent
  {
    if Names(sent, row.id) {
      var i :| 0 <= i < |sent| && sent[i].id == row.id;
      var j :| 0 <= j < |s.rows| && s.rows[j] == row;
      assert sent[i] == s.enqueued[a + i] && row == s.enqueued[|s.removed| + j];
    }
  }

  lemma {:induction false} KeptMembers(rows: seq<Row>, sent: seq<Row>, row: Row)
    ensures row in Kept(rows, sent) <==> row in rows && !Names(sent, row.id)
  {
    if rows != [] {
      KeptMembers(rows[1..], sent, row);
    }
  }

  /** The events that end a flush. */
  predicate Spares(e: Event, f: FlushId) { e != Delete(f) && e != Fail(f) && e != Die }

  /** An answered flush stays answered, under its batch, until one of them. */
  lemma {:induction false} AnsweredStays(s: State, f: FlushId, during: seq<Event>)
    requires f in s.flights && s.flights[f].answered
    requires forall i :: 0 <= i < |during| ==> Spares(during[i], f)
    ensures f in Run(s, during).flights && Run(s, during).flights[f] == s.flights[f]
    decreases |during|
  {
    if during != [] {
      AnsweredStays(s, f, during[..|during| - 1]);
      assert Spares(during[|during| - 1], f);
    }
  }

  lemma {:induction false} RunSplits(s: State, a: seq<Event>, b: seq<Event>)
    ensures Run(s, a + b) == Run(Run(s, a), b)
    decreases |b|
  {
    if b == [] {
      assert a + b == a;
    } else {
      assert (a + b)[..|a + b| - 1] == a + b[..|b| - 1];
      RunSplits(s, a, b[..|b| - 1]);
    }
  }

  /** Acknowledged means pruned: once the server has answered 200 for a batch, and whatever
      else goes on before this flush reaches its delete, the delete leaves none of the
      batch in the table. */
  lemma {:induction false} AcknowledgedIsPruned(events: seq<Event>, f: FlushId, during: seq<Event>)
    requires f in Run(INIT, events).flights
    requires forall i :: 0 <= i < |during| ==> Spares(during[i], f)
    ensures var batch := Run(INIT, events).flights[f].batch;
            forall row :: row in Run(INIT, events + [Serve(f)] + during + [Delete(f)]).rows ==> row !in batch
  {
    var s := Run(INIT, events);
    var past := events + [Serve(f)];
    assert past[..|past| - 1] == events;
    RunSplits(INIT, past, during);
    AnsweredStays(Run(INIT, past), f, during);
    EventsAreDecided(past + during, Delete(f));
    assert (past + during + [Delete(f)])[..|past + during|] == past + during;
  }

  // ----- what is reported -----

  /** The batch is 200 rows unless fewer were asked for. */
  lemma BatchesHoldTwoHundred(requested: Option<nat>)
    ensures requested.None? ==> BatchSize(requested) == 200
    ensures requested.Some? && requested.value <= 200 ==> BatchSize(requested) == requested.value
    ensures requested.Some? && requested.value > 200 ==> BatchSize(requested) == 200
  {
  }

  /** A flush completes exactly when there was nothing to send or the server answered 200;
      only then are its verdicts reported, and always the number of rows offered. */
  lemma FlushReportIsDecided(n: nat, batch: nat, answer: Answer)
    ensures var one := FlushOutcome(n, batch, answer);
            && (one.completed <==> n == 0 || batch == 0 || answer.Acknowledged?)
            && one.sent <= n && one.sent <= batch && (one.sent == n || one.sent == batch)
            && (one.sent > 0 && answer.Acknowledged? ==>
                  one.accepted == answer.accepted && one.codes == answer.codes)
            && (one.sent == 0 || !answer.Acknowledged? ==> one.accepted == 0 && one.codes == [])
            && one.rejected == |one.codes|
  {
  }

  /** flushAll over `n` rows, when exactly the first `k` of its 25 requests are answered 200:
      it removes `k` batches or all there are.  With nothing to send it reports a completed
      round without rows.  If the rows last longer than the answers it reports the failed
      round, and with all 25 answered, or the table empty before, the last round that
      carried rows. */
  lemma FlushAllIsDecided(n: nat, batch: nat, answers: seq<Answer>, k: nat)
    requires |answers| == 25 && k <= 25 && (k < 25 ==> !answers[k].Acknowledged?)
    requires forall i :: 0 <= i < k ==> answers[i].Acknowledged?
    ensures Drained(n, batch, answers, 0) == if k * batch < n then k * batch else n
    ensures var last := LastRound(n, batch, answers, 0, NOTHING);
            && (n == 0 || batch == 0 ==> last == FlushResult(true, 0, 0, 0, []))
            && (0 < batch && k * batch < n && k < 25 ==>
                  last == FlushResult(false, if batch < n - k * batch then batch else n - k * batch, 0, 0, []))
            && (0 < batch && k * batch < n && k == 25 ==>
                  last == FlushResult(true, batch, answers[24].accepted, |answers[24].codes|, answers[24].codes))
            && (forall i: nat :: i < k && 0 < n - i * batch <= batch ==>
                  last == FlushResult(true, n - i * batch, answers[i].accepted, |answers[i].codes|, answers[i].codes))
  {
    BatchesAre(k, batch);
    DrainedByRounds(n, batch, answers, 0, k);
    if 0 < batch && k * batch < n {
      RowsOutlast(n, batch, answers, k);
    }
    forall i: nat | i < k && 0 < n - i * batch <= batch
      ensures LastRound(n, batch, answers, 0, NOTHING)
              == FlushResult(true, n - i * batch, answers[i].accepted, |answers[i].codes|, answers[i].codes)
    {
      RowsEnd(n, batch, answers, i);
    }
  }

  lemma RowsOutlast(n: nat, batch: nat, answers: seq<Answer>, k: nat)
    requires |answers| == 25 && k <= 25 && (k < 25 ==> !answers[k].Acknowledged?)
    requires forall i :: 0 <= i < k ==> answers[i].Acknowledged?
    requires 0 < batch && k * batch < n
    ensures LastRound(n, batch, answers, 0, NOTHING) ==
            if k < 25 then FlushResult(false, Min(batch, n - k * batch), 0, 0, [])
            else FlushResult(true, batch, answers[24].accepted, |answers[24].codes|, answers[24].codes)
  {
    BatchesAre(k, batch);
    LastByRounds(n - k * batch, batch, answers, 0, k, NOTHING);
  }

  lemma RowsEnd(n: nat, batch: nat, answers: seq<Answer>, i: nat)
    requires i < |answers| && 0 < n - i * batch <= batch
    requires forall j :: 0 <= j <= i ==> answers[j].Acknowledged?
    ensures LastRound(n, batch, answers, 0, NOTHING)
            == FlushResult(true, n - i * batch, answers[i].accepted, |answers[i].codes|, answers[i].codes)
  {
    BatchesAre(i, batch);
    LastCarries(n - i * batch, batch, answers, 0, i, NOTHING);
  }

  /** `k` batches, counted one by one. */
  function Batches(k: nat, batch: nat): nat {
    if k == 0 then 0 else batch + Batches(k - 1, batch)
  }

  lemma {:induction false} BatchesAre(k: nat, batch: nat)
    ensures Batches(k, batch) == k * batch
  {
    if k > 0 {
      BatchesAre(k - 1, batch);
      assert (k - 1) * batch + batch == k * batch;
    }
  }

  lemma {:induction false} DrainedByRounds(n: nat, batch: nat, answers: seq<Answer>, round: nat, k: nat)
    requires round <= k <= |answers| && (k < |answers| ==> !answers[k].Acknowledged?)
    requires forall i :: round <= i < k ==> answers[i].Acknowledged?
    ensures Drained(n, batch, answers, round) == Min(n, Batches(k - round, batch))
    decreases k - round
  {
    if round < k {
      DrainedByRounds(n - Min(batch, n), batch, answers, round + 1, k);
    }
  }

  lemma OneMoreRound(rest: nat, batch: nat, answers: seq<Answer>, round: nat, last: FlushResult)
    requires round < |answers| && answers[round].Acknowledged? && 0 < batch
    ensures LastRound(rest + batch, batch, answers, round, last) ==
            LastRound(rest, batch, answers, round + 1, FlushOutcome(batch, batch, answers[round]))
  {
  }

  lemma NothingLeft(batch: nat, answers: seq<Answer>, round: nat, last: FlushResult)
    requires round <= |answers|
    ensures LastRound(0, batch, answers, round, last) == last
  {
  }

  /** The rows outlast the answers: `left` are still stored after the last one. */
  lemma {:induction false} LastByRounds(left: nat, batch: nat, answers: seq<Answer>, round: nat, k: nat,
      last: FlushResult)
    requires round <= k <= |answers| && (k < |answers| ==> !answers[k].Acknowledged?)
    requires forall i :: round <= i < k ==> answers[i].Acknowledged?
    requires 0 < batch && 0 < left
    ensures LastRound(left + Batches(k - round, batch), batch, answers, round, last) ==
            if k < |answers| then FlushResult(false, Min(batch, left), 0, 0, [])
            else if round < k then FlushOutcome(batch, batch, answers[k - 1])
            else last
    decreases k - round
  {
    if round < k {
      LastByRounds(left, batch, answers, round + 1, k, FlushOutcome(batch, batch, answers[round]));
      OneMoreRound(left + Batches(k - round - 1, batch), batch, answers, round, last);
    }
  }

  /** The rows end in round `i`, which carries the last `left` of them. */
  lemma {:induction false} LastCarries(left: nat, batch: nat, answers: seq<Answer>, round: nat, i: nat,
      last: FlushResult)
    requires round <= i < |answers| && 0 < left <= batch
    requires forall j :: round <= j <= i ==> answers[j].Acknowledged?
    ensures LastRound(left + Batches(i - round, batch), batch, answers, round, last) ==
            FlushOutcome(left, batch, answers[i])
    decreases i - round
  {
    if round < i {
      LastCarries(left, batch, answers, round + 1, i, FlushOutcome(batch, batch, answers[round]));
      OneMoreRound(left + Batches(i - round - 1, batch), batch, answers, round, last);
    } else {
      NothingLeft(batch, answers, i + 1, FlushOutcome(left, batch, answers[i]));
    }
  }
}

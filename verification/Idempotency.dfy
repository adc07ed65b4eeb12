/**
 * The idempotency protocol of apps/api/src/plugins/idempotency.ts for one
 * (employee, key) pair.  Every SQL statement and every lifecycle hook is one
 * atomic event; any number of requests interleave.  `Next` is the meaning of
 * one event, `Run` of a whole history; the class at the end is the plugin in
 * its own step-by-step form, proved to perform exactly these events.
 */
module Idempotency {
  import opened Prelude
  import N = NestedTransactions

  type Rid = nat
  type Hash = string
  type Write = N.Row

  const IN_FLIGHT_WINDOW_MS: int := 30 * 1000
  const RETENTION_MS: nat := 30 * 24 * 60 * 60 * 1000

  datatype Response = Response(status: nat, body: string)

  /** One row of `idempotency_keys`; `lockedAt` is the ownership token. */
  datatype Row = Row(hash: Hash, lockedAt: Option<nat>, response: Option<Response>, expiresAt: nat)

  /** How a request ended.  `Vanished`: the client went away; `Died`: the process did. */
  datatype Answer =
    | Fresh(sent: Response)
    | Replayed(stored: Response)
    | InFlight
    | KeyReused
    | Failed(status: nat)
    | Vanished
    | Died

  /** Where a request stands between two awaits. */
  datatype Phase =
    | Arrived
    | ClaimLost
    | RowGone
    | Stale(seen: Option<nat>)
    | Claimed(token: nat)
    | Working(token: nat)
    | Stored(token: nat, response: Response)
    | Releasing(token: nat, verdict: Answer, connected: bool)
    | Done(answer: Answer)

  /** What the database says of a connection: no transaction, one that accepts statements,
      one that refuses them until it is rolled back; or the connection is broken. */
  datatype Session = Idle | Open | Aborted | Lost

  /** `handler` is the text of the handler as far as it has run, `pending` what its
      transaction has written and not yet committed, `session` the state of its connection,
      after the release the one it came back in, and `replied` the status of the reply that
      settle began with. */
  datatype Request = Request(
    hash: Hash,
    phase: Phase,
    handler: N.Program,
    pending: seq<Write>,
    session: Session,
    replied: Option<nat>,
    connects: nat,
    releases: nat)

  /** One committed request transaction. */
  datatype Commit = Commit(rid: Rid, hash: Hash, writes: seq<Write>, response: Response)

  /** `holder` is the request whose STORE holds the row lock until COMMIT.
      `prunedAnswers` counts prunes that removed a stored response. */
  datatype State = State(
    row: Option<Row>,
    holder: Option<Rid>,
    requests: map<Rid, Request>,
    commits: seq<Commit>,
    prunedAnswers: nat,
    clock: nat)

  /** BEGIN is refused on a connection inside an aborted transaction. */
  datatype BeginOutcome = Opened | BeginRefused | BeginLost | ConnectFailed

  /** Why the first statement of settle throws: the database refuses STORE, which aborts
      the transaction, or the connection breaks. */
  datatype Fault = Refused | Disconnected

  /** What became of a COMMIT: answered, applied but reported as an error, applied while
      the process died, refused, or cut off before it was applied. */
  datatype CommitFate = Answered | Misreported | DiedAfter | RolledBack | Severed

  datatype Event =
    | Arrive(rid: Rid, hash: Hash)
    | Claim(rid: Rid)
    | Fetch(rid: Rid, appNow: int)
    | Reclaim(rid: Rid)
    | Begin(rid: Rid, outcome: BeginOutcome)
    | LookupFails(rid: Rid)
    | Handle(rid: Rid, part: N.Program)
    | Send(rid: Rid, reply: Response)
    | StoreFails(rid: Rid, fault: Fault)
    | CommitWork(rid: Rid, fate: CommitFate)
    | Abort(rid: Rid, rolledBack: bool)
    | Release(rid: Rid, executed: bool)
    | Crash(rid: Rid)
    | Prune
    | Tick(ms: nat)

  const INIT := State(None, None, map[], [], 0, 0)

  // ----- the SQL predicates -----

  predicate HasAnswer(row: Option<Row>) {
    row.Some? && row.value.response.Some?
  }

  /** The `WHERE response_status IS NULL AND locked_at = $token` of STORE, RECLAIM and RELEASE. */
  predicate Owns(row: Option<Row>, token: Option<nat>) {
    row.Some? && row.value.response.None? && token.Some? && row.value.lockedAt == token
  }

  /** CLAIM succeeds on a missing row or on an expired row without a response. */
  predicate Claimable(row: Option<Row>, clock: nat) {
    row.None? || (row.value.expiresAt < clock && row.value.response.None?)
  }

  function Move(s: State, rid: Rid, phase: Phase): State
    requires rid in s.requests
  {
    s.(requests := s.requests[rid := s.requests[rid].(phase := phase)])
  }

  // ----- one function per event -----

  function DoArrive(s: State, rid: Rid, hash: Hash): State {
    if rid in s.requests then s
    else s.(requests := s.requests[rid := Newcomer(hash)])
  }

  function Newcomer(hash: Hash): Request {
    Request(hash, Arrived, N.Skip, [], Idle, None, 0, 0)
  }

  predicate MayClaim(p: Phase) { p.Arrived? || p.RowGone? }

  /** CLAIM waits for a row lock before it looks at the row. */
  function DoClaim(s: State, rid: Rid): State {
    if rid !in s.requests || !MayClaim(s.requests[rid].phase) || s.holder.Some? then s
    else if Claimable(s.row, s.clock) then
      Move(s, rid, Claimed(s.clock)).(
        row := Some(Row(s.requests[rid].hash, Some(s.clock), None, s.clock + RETENTION_MS)),
        clock := s.clock + 1)
    else if s.requests[rid].phase.Arrived? then Move(s, rid, ClaimLost)
    else Move(s, rid, Done(InFlight))
  }

  /** FETCH takes no lock: it reads the committed row. */
  function DoFetch(s: State, rid: Rid, appNow: int): State {
    if rid !in s.requests || !s.requests[rid].phase.ClaimLost? then s
    else if s.row.None? then Move(s, rid, RowGone)
    else
      var row := s.row.value;
      if row.hash != s.requests[rid].hash then Move(s, rid, Done(KeyReused))
      else if row.response.Some? then Move(s, rid, Done(Replayed(row.response.value)))
      else if row.lockedAt.Some? && appNow - row.lockedAt.value < IN_FLIGHT_WINDOW_MS then Move(s, rid, Done(InFlight))
      else Move(s, rid, Stale(row.lockedAt))
  }

  function DoReclaim(s: State, rid: Rid): State {
    if rid !in s.requests || !s.requests[rid].phase.Stale? || s.holder.Some? then s
    else if Owns(s.row, s.requests[rid].phase.seen) then
      Move(s, rid, Claimed(s.clock)).(
        row := Some(s.row.value.(lockedAt := Some(s.clock))),
        clock := s.clock + 1)
    else Move(s, rid, Done(InFlight))
  }

  function DoBegin(s: State, rid: Rid, outcome: BeginOutcome): State {
    if rid !in s.requests || !s.requests[rid].phase.Claimed? then s
    else
      var r := s.requests[rid];
      var r' := match outcome
        case Opened => r.(phase := Working(r.phase.token), session := Open, connects := r.connects + 1)
        case ConnectFailed => r.(phase := Done(Failed(500)))
        case _ =>
          r.(phase := Releasing(r.phase.token, Failed(500), false), connects := r.connects + 1,
              releases := r.releases + 1, session := if outcome.BeginLost? then Lost else Aborted);
      s.(requests := s.requests[rid := r'])
  }

  predicate LooksUp(p: Phase) { p.Arrived? || p.ClaimLost? || p.RowGone? || p.Stale? }

  /** A CLAIM, FETCH or RECLAIM that throws ends the request before it holds anything. */
  function DoLookupFails(s: State, rid: Rid): State {
    if rid !in s.requests || !LooksUp(s.requests[rid].phase) then s else Move(s, rid, Done(Failed(500)))
  }

  /** The handler has thrown, and runs no further. */
  predicate Threw(r: Request) {
    N.Meaning(r.handler, [], false).outcome.Throws?
  }

  /** The next part of the handler, with its nested blocks, on the request transaction. */
  function DoHandle(s: State, rid: Rid, part: N.Program): State {
    if rid !in s.requests || !s.requests[rid].phase.Working? || Threw(s.requests[rid]) then s
    else
      var r := s.requests[rid];
      var m := N.Meaning(part, r.pending, r.session.Aborted?);
      s.(requests := s.requests[rid := r.(
           handler := N.Then(r.handler, part), pending := m.work, session := if m.poisoned then Aborted else Open)])
  }

  /** onSend, when STORE (or the ROLLBACK in its place) throws: the client gets a 500, the
      claim is left to age, and `finally` gives the connection back as it is. */
  function DoStoreFails(s: State, rid: Rid, fault: Fault): State {
    if rid !in s.requests || !s.requests[rid].phase.Working? then s
    else
      var r := s.requests[rid];
      s.(requests := s.requests[rid := r.(
           phase := Done(Failed(500)), pending := [], releases := r.releases + 1,
           session := if fault.Refused? then Aborted else Lost)])
  }

  /** An error that leaves the handler is rendered with a status of 400 or more. */
  predicate MayReply(r: Request, reply: Response) {
    r.phase.Working? && (Threw(r) ==> reply.status >= 400)
  }

  /** onSend: STORE keeps the row locked; a lost claim or a failure rolls back.  On an
      aborted transaction STORE throws. */
  function DoSend(s: State, rid: Rid, reply: Response): State {
    if rid !in s.requests || !MayReply(s.requests[rid], reply) then s
    else
      var r := s.requests[rid].(replied := Some(reply.status));
      if reply.status >= 400 then
        s.(requests := s.requests[rid :=
            r.(phase := Releasing(r.phase.token, Failed(reply.status), true), pending := [], session := Idle)])
      else if r.session.Aborted? then
        s.(requests := s.requests[rid := r.(phase := Done(Failed(500)), pending := [], releases := r.releases + 1)])
      else if !Owns(s.row, Some(r.phase.token)) then
        s.(requests := s.requests[rid :=
            r.(phase := Done(InFlight), pending := [], session := Idle, releases := r.releases + 1)])
      else if s.holder.Some? then s
      else s.(requests := s.requests[rid := r.(phase := Stored(r.phase.token, reply))], holder := Some(rid))
  }

  function AnswerOf(fate: CommitFate, response: Response): Answer {
    match fate
    case Answered => Fresh(response)
    case Misreported => Failed(500)
    case DiedAfter => Died
    case _ => Failed(500)
  }

  /** A COMMIT the database answered, yes or no, ends the transaction. */
  function SessionAfter(fate: CommitFate): Session {
    if fate.Answered? || fate.RolledBack? then Idle else Lost
  }

  predicate Applied(fate: CommitFate) {
    !fate.RolledBack? && !fate.Severed?
  }

  /** COMMIT publishes the business writes and the stored response together. */
  function DoCommit(s: State, rid: Rid, fate: CommitFate): State {
    if rid !in s.requests || !s.requests[rid].phase.Stored? || s.row.None? then s
    else
      var r := s.requests[rid];
      var response := r.phase.response;
      var closed := s.(
        requests := s.requests[rid :=
            r.(phase := Done(AnswerOf(fate, response)), pending := [], session := SessionAfter(fate),
                releases := r.releases + if fate.DiedAfter? then 0 else 1)],
        holder := None);
      if !Applied(fate) then closed
      else closed.(
        row := Some(s.row.value.(response := Some(response), lockedAt := None)),
        commits := s.commits + [Commit(rid, r.hash, r.pending, response)])
  }

  function DoAbort(s: State, rid: Rid, rolledBack: bool): State {
    if rid !in s.requests || !s.requests[rid].phase.Working? then s
    else
      var r := s.requests[rid];
      s.(requests := s.requests[rid :=
        if rolledBack then r.(phase := Releasing(r.phase.token, Vanished, true), pending := [], session := Idle)
        else r.(phase := Done(Vanished), pending := [], session := Lost, releases := r.releases + 1)])
  }

  function DoRelease(s: State, rid: Rid, executed: bool): State {
    if rid !in s.requests || !s.requests[rid].phase.Releasing? then s
    else
      var r := s.requests[rid];
      var owned := executed && Owns(s.row, Some(r.phase.token));
      if owned && s.holder.Some? then s
      else
        s.(requests := s.requests[rid :=
             r.(phase := Done(r.phase.verdict), releases := r.releases + if r.phase.connected then 1 else 0)],
           row := if owned then None else s.row)
  }

  /** A dead process drops its transaction and with it any row lock. */
  function DoCrash(s: State, rid: Rid): State {
    if rid !in s.requests || s.requests[rid].phase.Done? then s
    else
      s.(requests := s.requests[rid := s.requests[rid].(phase := Done(Died), pending := [], session := Lost)],
         holder := if s.holder == Some(rid) then None else s.holder)
  }

  function DoPrune(s: State): State {
    if s.row.None? || s.holder.Some? || s.clock <= s.row.value.expiresAt then s
    else s.(row := None, prunedAnswers := s.prunedAnswers + if HasAnswer(s.row) then 1 else 0)
  }

  function Next(s: State, e: Event): State {
    match e
    case Arrive(rid, hash) => DoArrive(s, rid, hash)
    case Claim(rid) => DoClaim(s, rid)
    case Fetch(rid, appNow) => DoFetch(s, rid, appNow)
    case Reclaim(rid) => DoReclaim(s, rid)
    case Begin(rid, outcome) => DoBegin(s, rid, outcome)
    case LookupFails(rid) => DoLookupFails(s, rid)
    case Handle(rid, part) => DoHandle(s, rid, part)
    case Send(rid, reply) => DoSend(s, rid, reply)
    case StoreFails(rid, fault) => DoStoreFails(s, rid, fault)
    case CommitWork(rid, fate) => DoCommit(s, rid, fate)
    case Abort(rid, rolledBack) => DoAbort(s, rid, rolledBack)
    case Release(rid, executed) => DoRelease(s, rid, executed)
    case Crash(rid) => DoCrash(s, rid)
    case Prune => DoPrune(s)
    case Tick(ms) => s.(clock := s.clock + ms)
  }

  function Run(s: State, events: seq<Event>): State
    decreases |events|
  {
    if events == [] then s else Run(Next(s, events[0]), events[1..])
  }

  // ----- the invariant -----

  function TokenOf(p: Phase): Option<nat> {
    match p
    case Claimed(t) => Some(t)
    case Working(t) => Some(t)
    case Stored(t, _) => Some(t)
    case Releasing(t, _, _) => Some(t)
    case _ => None
  }

  /** The lock token a request holds, or has seen and may try to reclaim. */
  function Interest(p: Phase): Option<nat> {
    if p.Stale? then p.seen else TokenOf(p)
  }

  /** The commit made by `rid`, if there is one. */
  function CommitOf(commits: seq<Commit>, rid: Rid): Option<Commit> {
    if commits == [] then None
    else if commits[|commits| - 1].rid == rid then Some(commits[|commits| - 1])
    else CommitOf(commits[..|commits| - 1], rid)
  }

  /** Some request with this hash committed this response. */
  predicate WasAnswered(commits: seq<Commit>, hash: Hash, response: Response) {
    commits != [] &&
    var last := commits[|commits| - 1];
    (last.hash == hash && last.response == response) || WasAnswered(commits[..|commits| - 1], hash, response)
  }

  /** A row is either locked or answered, never both and never neither. */
  ghost predicate RowShape(s: State) {
    s.row.Some? ==>
      && (s.row.value.response.Some? <==> s.row.value.lockedAt.None?)
      && (s.row.value.lockedAt.Some? ==> s.row.value.lockedAt.value < s.clock)
  }

  /** Conservation: every commit is either the stored answer or one pruned since. */
  ghost predicate Conservation(s: State) {
    && |s.commits| == s.prunedAnswers + (if HasAnswer(s.row) then 1 else 0)
    && (HasAnswer(s.row) ==>
          var last := s.commits[|s.commits| - 1];
          last.hash == s.row.value.hash && last.response == s.row.value.response.value)
  }

  /** A connection is open exactly while work is open, and given back exactly once. */
  ghost predicate ConnectionShape(r: Request) {
    match r.phase
    case Working(_) => r.connects == 1 && r.releases == 0
    case Stored(_, _) => r.connects == 1 && r.releases == 0
    case Releasing(_, v, open) => r.connects == 1 && r.releases == (if open then 0 else 1) && (v.Failed? || v.Vanished?)
    case Done(a) => r.connects <= 1 && r.releases <= r.connects && (!a.Died? ==> r.releases == r.connects)
    case _ => r.connects == 0 && r.releases == 0
  }

  /** The answers a request that committed can end with. */
  predicate MayFollowCommit(a: Answer, response: Response) {
    a == Fresh(response) || a == Failed(500) || a.Died?
  }

  /** What the handler has done so far is what its text means, and the session says so:
      a request settles, or ends, with nothing pending and no transaction that still
      accepts statements. */
  ghost predicate HandlerShape(r: Request) {
    match r.phase
    case Working(_) =>
      && N.Meaning(r.handler, [], false).work == r.pending && r.replied.None?
      && r.session == (if N.Meaning(r.handler, [], false).poisoned then Aborted else Open)
    case Stored(_, _) =>
      && N.Meaning(r.handler, [], false) == N.Result(r.pending, false, N.Returns) && r.session.Open?
      && r.replied.Some?
    case Releasing(_, _, open) =>
      && r.pending == [] && (if open then r.session.Idle? else !r.session.Open?)
      && (r.replied.Some? ==> r.replied.value >= 400)
    case Done(_) => r.pending == [] && !r.session.Open?
    case _ => r.handler.Skip? && r.pending == [] && r.session.Idle? && r.replied.None?
  }

  /** A commit is what the handler's text means, all of it. */
  ghost predicate CommitShape(c: Commit, r: Request) {
    && c.hash == r.hash && c.response.status < 400 && !r.session.Aborted?
    && N.Meaning(r.handler, [], false) == N.Result(c.writes, false, N.Returns)
  }

  /** What a finished request was told agrees with what it committed. */
  ghost predicate AnswerShape(commits: seq<Commit>, rid: Rid, r: Request) {
    var c := CommitOf(commits, rid);
    && (c.Some? ==> r.phase.Done? && MayFollowCommit(r.phase.answer, c.value.response))
    && (c.Some? ==> CommitShape(c.value, r))
    && (r.phase.Done? && r.phase.answer.Fresh? ==> c.Some? && c.value.response == r.phase.answer.sent)
    && (r.phase.Done? && r.phase.answer.Replayed? ==> WasAnswered(commits, r.hash, r.phase.answer.stored))
  }

  /** Everything the invariant says about one request, given the shared state around it. */
  ghost predicate RequestOk(s: State, rid: Rid, r: Request) {
    && (Interest(r.phase).Some? ==> Interest(r.phase).value < s.clock)
    && (s.row.Some? && Interest(r.phase).Some? && s.row.value.lockedAt == Interest(r.phase) ==>
        r.hash == s.row.value.hash)
    && (r.phase.Stored? <==> s.holder == Some(rid))
    && (r.phase.Stored? ==> Owns(s.row, Some(r.phase.token)) && r.phase.response.status < 400)
    && (r.phase.Releasing? && r.phase.verdict.Failed? ==> r.phase.verdict.status >= 400)
    && (r.phase.Done? && r.phase.answer.Failed? ==> r.phase.answer.status >= 400)
    && ConnectionShape(r)
    && HandlerShape(r)
    && AnswerShape(s.commits, rid, r)
  }

  ghost predicate RequestsOk(s: State) {
    forall r :: r in s.requests ==> RequestOk(s, r, s.requests[r])
  }

  /** No two requests hold the same lock token. */
  ghost predicate TokensDistinct(s: State) {
    forall a, b :: a in s.requests && b in s.requests && a != b && TokenOf(s.requests[a].phase).Some? ==>
      TokenOf(s.requests[a].phase) != TokenOf(s.requests[b].phase)
  }

  /** No request commits twice. */
  ghost predicate CommitsDistinct(s: State) {
    && (forall i :: 0 <= i < |s.commits| ==> s.commits[i].rid in s.requests)
    && (forall i, j :: 0 <= i < j < |s.commits| ==> s.commits[i].rid != s.commits[j].rid)
  }

  ghost predicate Inv(s: State) {
    && RowShape(s)
    && Conservation(s)
    && RequestsOk(s)
    && TokensDistinct(s)
    && CommitsDistinct(s)
    && (s.holder.Some? ==> s.holder.value in s.requests)
  }

  lemma {:induction false} CommitOfFound(commits: seq<Commit>, rid: Rid)
    ensures CommitOf(commits, rid).None? <==> forall i :: 0 <= i < |commits| ==> commits[i].rid != rid
    ensures CommitOf(commits, rid).Some? ==>
        CommitOf(commits, rid).value in commits && CommitOf(commits, rid).value.rid == rid
  {
    if commits == [] {
    } else {
      CommitOfFound(commits[..|commits| - 1], rid);
    }
  }

  lemma CommitOfAppend(commits: seq<Commit>, c: Commit, rid: Rid)
    ensures CommitOf(commits + [c], rid) == if c.rid == rid then Some(c) else CommitOf(commits, rid)
  {
    assert (commits + [c])[..|commits|] == commits;
  }

  lemma WasAnsweredAppend(commits: seq<Commit>, c: Commit, hash: Hash, response: Response)
    requires WasAnswered(commits, hash, response) || (c.hash == hash && c.response == response)
    ensures WasAnswered(commits + [c], hash, response)
  {
    assert (commits + [c])[..|commits|] == commits;
  }

  lemma NewcomerIsOk(s: State, rid: Rid, hash: Hash)
    requires Inv(s) && rid !in s.requests
    ensures RequestOk(DoArrive(s, rid, hash), rid, Newcomer(hash))
  {
    CommitOfFound(s.commits, rid);
  }

  lemma ArriveKeepsInv(s: State, rid: Rid, hash: Hash)
    requires Inv(s)
    ensures Inv(DoArrive(s, rid, hash))
  {
    if rid !in s.requests {
      var s' := DoArrive(s, rid, hash);
      forall q | q in s'.requests
        ensures RequestOk(s', q, s'.requests[q])
      {
        if q == rid {
          NewcomerIsOk(s, rid, hash);
        } else {
          assert RequestOk(s, q, s.requests[q]);
        }
      }
    }
  }

  /** What an event that moves only `rid` may do to the shared state: keep the row,
      delete it, or stamp it with a lock newer than every lock seen so far. */
  ghost predicate SharedStep(s: State, s': State, rid: Rid) {
    && s'.commits == s.commits
    && s.clock <= s'.clock
    && (s'.row == s.row || s'.row.None?
        || (s'.row.value.lockedAt.Some? && s.clock <= s'.row.value.lockedAt.value))
    && (s'.row != s.row ==> s.holder.None? || s.holder == Some(rid))
    && (s'.holder == s.holder || (s.holder.None? && s'.holder == Some(rid))
        || (s.holder == Some(rid) && s'.holder.None?))
  }

  /** What the shared state and one request must satisfy for that request to move. */
  ghost predicate Local(s: State, rid: Rid) {
    && rid in s.requests && RowShape(s) && Conservation(s) && RequestOk(s, rid, s.requests[rid])
  }

  ghost predicate Moved(s: State, s': State, rid: Rid)
    requires rid in s.requests
  {
    && rid in s'.requests && s'.requests == s.requests[rid := s'.requests[rid]]
    && SharedStep(s, s', rid)
    && RowShape(s') && Conservation(s')
    && RequestOk(s', rid, s'.requests[rid])
    && TokenStep(s, rid, s'.requests[rid])
  }

  /** A request keeps its token, drops it, or takes a stamp newer than any token held. */
  ghost predicate TokenStep(s: State, rid: Rid, r': Request)
    requires rid in s.requests
  {
    TokenOf(r'.phase).None? || TokenOf(r'.phase) == TokenOf(s.requests[rid].phase) || s.clock <= TokenOf(r'.phase).value
  }

  lemma TokensStayDistinct(s: State, s': State, rid: Rid)
    requires RequestsOk(s) && TokensDistinct(s) && rid in s.requests && rid in s'.requests
    requires s'.requests == s.requests[rid := s'.requests[rid]]
    requires TokenStep(s, rid, s'.requests[rid])
    ensures TokensDistinct(s')
  {
    forall q | q in s.requests
      ensures TokenOf(s.requests[q].phase).Some? ==> TokenOf(s.requests[q].phase).value < s.clock
    {
      assert RequestOk(s, q, s.requests[q]);
    }
  }

  /** The frame of the protocol: the other requests never notice. */
  lemma MovedKeepsInv(s: State, s': State, rid: Rid)
    requires Inv(s) && rid in s.requests
    requires Moved(s, s', rid)
    ensures Inv(s')
  {
    forall q | q in s'.requests
      ensures RequestOk(s', q, s'.requests[q])
    {
      if q != rid {
        OthersUnmoved(s, s', rid, q);
      }
    }
    TokensStayDistinct(s, s', rid);
  }

  lemma OthersUnmoved(s: State, s': State, rid: Rid, q: Rid)
    requires q in s.requests && q != rid && RequestOk(s, q, s.requests[q])
    requires SharedStep(s, s', rid)
    ensures RequestOk(s', q, s.requests[q])
  {
  }

  lemma ClaimMoves(s: State, rid: Rid)
    requires Local(s, rid)
    ensures Moved(s, DoClaim(s, rid), rid)
  {
  }

  lemma FetchMoves(s: State, rid: Rid, appNow: int)
    requires Local(s, rid)
    ensures Moved(s, DoFetch(s, rid, appNow), rid)
  {
  }

  lemma ReclaimMoves(s: State, rid: Rid)
    requires Local(s, rid)
    ensures Moved(s, DoReclaim(s, rid), rid)
  {
  }

  lemma BeginMoves(s: State, rid: Rid, outcome: BeginOutcome)
    requires Local(s, rid)
    ensures Moved(s, DoBegin(s, rid, outcome), rid)
  {
  }

  lemma LookupFailsMoves(s: State, rid: Rid)
    requires Local(s, rid)
    ensures Moved(s, DoLookupFails(s, rid), rid)
  {
  }

  lemma HandleMoves(s: State, rid: Rid, part: N.Program)
    requires Local(s, rid)
    ensures Moved(s, DoHandle(s, rid, part), rid)
  {
  }

  lemma StoreFailsMoves(s: State, rid: Rid, fault: Fault)
    requires Local(s, rid)
    ensures Moved(s, DoStoreFails(s, rid, fault), rid)
  {
  }

  lemma FailureMoves(s: State, rid: Rid, reply: Response)
    requires Local(s, rid) && reply.status >= 400
    ensures Moved(s, DoSend(s, rid, reply), rid)
  {
  }

  lemma SuccessMoves(s: State, rid: Rid, reply: Response)
    requires Local(s, rid) && reply.status < 400
    ensures Moved(s, DoSend(s, rid, reply), rid)
  {
  }

  lemma SendMoves(s: State, rid: Rid, reply: Response)
    requires Local(s, rid)
    ensures Moved(s, DoSend(s, rid, reply), rid)
  {
    if reply.status >= 400 { FailureMoves(s, rid, reply); } else { SuccessMoves(s, rid, reply); }
  }

  lemma AbortMoves(s: State, rid: Rid, rolledBack: bool)
    requires Local(s, rid)
    ensures Moved(s, DoAbort(s, rid, rolledBack), rid)
  {
  }

  lemma ReleaseMoves(s: State, rid: Rid, executed: bool)
    requires Local(s, rid)
    ensures Moved(s, DoRelease(s, rid, executed), rid)
  {
  }

  lemma CrashMoves(s: State, rid: Rid)
    requires Local(s, rid)
    ensures Moved(s, DoCrash(s, rid), rid)
  {
  }

  lemma OthersUncommitted(s: State, rid: Rid, fate: CommitFate, q: Rid)
    requires rid in s.requests && s.requests[rid].phase.Stored? && s.holder == Some(rid)
    requires q in s.requests && q != rid && RequestOk(s, q, s.requests[q])
    ensures RequestOk(DoCommit(s, rid, fate), q, s.requests[q])
  {
    var r := s.requests[q];
    var c := Commit(rid, s.requests[rid].hash, s.requests[rid].pending, s.requests[rid].phase.response);
    CommitOfAppend(s.commits, c, q);
    if r.phase.Done? && r.phase.answer.Replayed? {
      WasAnsweredAppend(s.commits, c, r.hash, r.phase.answer.stored);
    }
  }

  lemma OwnCommit(s: State, rid: Rid, fate: CommitFate)
    requires Local(s, rid) && s.requests[rid].phase.Stored?
    ensures RequestOk(DoCommit(s, rid, fate), rid, DoCommit(s, rid, fate).requests[rid])
    ensures RowShape(DoCommit(s, rid, fate)) && Conservation(DoCommit(s, rid, fate))
    ensures CommitOf(s.commits, rid).None?
  {
    var me := s.requests[rid];
    CommitOfAppend(s.commits, Commit(rid, me.hash, me.pending, me.phase.response), rid);
  }

  lemma CommitKeepsInv(s: State, rid: Rid, fate: CommitFate)
    requires Inv(s) && rid in s.requests && s.requests[rid].phase.Stored?
    ensures Inv(DoCommit(s, rid, fate))
  {
    var s' := DoCommit(s, rid, fate);
    assert Local(s, rid);
    OwnCommit(s, rid, fate);
    forall q | q in s'.requests
      ensures RequestOk(s', q, s'.requests[q])
    {
      if q != rid { OthersUncommitted(s, rid, fate, q); }
    }
    TokensStayDistinct(s, s', rid);
    CommitsStayDistinct(s, rid, fate);
  }

  lemma CommitsStayDistinct(s: State, rid: Rid, fate: CommitFate)
    requires CommitsDistinct(s) && rid in s.requests && CommitOf(s.commits, rid).None?
    ensures CommitsDistinct(DoCommit(s, rid, fate))
  {
    CommitOfFound(s.commits, rid);
  }

  lemma PruneKeepsInv(s: State)
    requires Inv(s)
    ensures Inv(DoPrune(s))
  {
  }

  /** The events in which one request moves without committing. */
  predicate Moves(e: Event) {
    !e.Arrive? && !e.CommitWork? && !e.Prune? && !e.Tick?
  }

  lemma EventMoves(s: State, e: Event, rid: Rid)
    requires Moves(e) && e.rid == rid && Local(s, rid)
    ensures Moved(s, Next(s, e), rid)
  {
    match e
    case Claim(_) => ClaimMoves(s, rid);
    case Fetch(_, appNow) => FetchMoves(s, rid, appNow);
    case Reclaim(_) => ReclaimMoves(s, rid);
    case Begin(_, outcome) => BeginMoves(s, rid, outcome);
    case LookupFails(_) => LookupFailsMoves(s, rid);
    case Handle(_, part) => HandleMoves(s, rid, part);
    case Send(_, reply) => SendMoves(s, rid, reply);
    case StoreFails(_, fault) => StoreFailsMoves(s, rid, fault);
    case Abort(_, rolledBack) => AbortMoves(s, rid, rolledBack);
    case Release(_, executed) => ReleaseMoves(s, rid, executed);
    case Crash(_) => CrashMoves(s, rid);
  }

  lemma NextKeepsInv(s: State, e: Event)
    requires Inv(s)
    ensures Inv(Next(s, e))
  {
    if Moves(e) {
      if e.rid in s.requests {
        EventMoves(s, e, e.rid);
        MovedKeepsInv(s, Next(s, e), e.rid);
      }
    } else if e.Arrive? {
      ArriveKeepsInv(s, e.rid, e.hash);
    } else if e.CommitWork? {
      if e.rid in s.requests && s.requests[e.rid].phase.Stored? {
        CommitKeepsInv(s, e.rid, e.fate);
      }
    } else if e.Prune? {
      PruneKeepsInv(s);
    }
  }

  lemma {:induction false} RunKeepsInv(s: State, events: seq<Event>)
    requires Inv(s)
    ensures Inv(Run(s, events))
    decreases |events|
  {
    if events == [] {
    } else {
      NextKeepsInv(s, events[0]);
      RunKeepsInv(Next(s, events[0]), events[1..]);
    }
  }

  // ----- the theorems: every history from the empty table -----

  /** Business work commits once per stored answer, and one answer exists at a time:
      two commits for one key need a prune of a stored answer between them. */
  lemma CommitsAreConserved(events: seq<Event>)
    ensures var s := Run(INIT, events);
            |s.commits| == s.prunedAnswers + (if HasAnswer(s.row) then 1 else 0)
    ensures var s := Run(INIT, events);
            forall i, j :: 0 <= i < j < |s.commits| ==> s.commits[i].rid != s.commits[j].rid
  {
    RunKeepsInv(INIT, events);
  }

  /** A stored answer is the answer of the last commit and carries that request's hash. */
  lemma StoredAnswerIsCommitted(events: seq<Event>)
    ensures var s := Run(INIT, events);
            HasAnswer(s.row) ==>
              && s.commits != []
              && var last := s.commits[|s.commits| - 1];
                 && s.row.value.response == Some(last.response) && last.response.status < 400
                 && s.row.value.hash == last.hash
                 && last.rid in s.requests && s.requests[last.rid].hash == last.hash
  {
    RunKeepsInv(INIT, events);
    var s := Run(INIT, events);
    if HasAnswer(s.row) {
      var last := s.commits[|s.commits| - 1];
      assert RequestOk(s, last.rid, s.requests[last.rid]);
    }
  }

  /** What each kind of answer tells its client about the database. */
  lemma AnswersTellTheTruth(events: seq<Event>, rid: Rid)
    requires var s := Run(INIT, events); rid in s.requests && s.requests[rid].phase.Done?
    ensures var s := Run(INIT, events); var r := s.requests[rid]; var c := CommitOf(s.commits, rid);
            match r.phase.answer
            case Fresh(p) => c.Some? && c.value.hash == r.hash && c.value.response == p
            case Replayed(p) => c.None? && WasAnswered(s.commits, r.hash, p)
            case Failed(status) => c.Some? ==> status == 500
            case Died => true
            case _ => c.None?
    ensures Run(INIT, events).requests[rid].pending == []
  {
    RunKeepsInv(INIT, events);
    assert RequestOk(Run(INIT, events), rid, Run(INIT, events).requests[rid]);
  }

  /** Exactly one release for one connect, whichever of send and abort came first, also
      when a statement of either throws; only a dead process keeps its connection. */
  lemma ConnectionsReturnOnce(events: seq<Event>, rid: Rid)
    requires rid in Run(INIT, events).requests
    ensures var r := Run(INIT, events).requests[rid];
            && r.releases <= r.connects <= 1
            && (r.phase.Done? && !r.phase.answer.Died? ==> r.releases == r.connects)
            && (r.phase.Working? || r.phase.Stored? ==> r.connects == 1 && r.releases == 0)
  {
    RunKeepsInv(INIT, events);
    assert RequestOk(Run(INIT, events), rid, Run(INIT, events).requests[rid]);
  }

  // ----- how a connection comes back -----

  /** What is not the doing of the request: a first statement of settle refused or cut off,
      a BEGIN that failed. */
  predicate OutsideFault(e: Event, rid: Rid) {
    || (e.StoreFails? && e.rid == rid)
    || (e.Begin? && e.rid == rid && (e.outcome.BeginRefused? || e.outcome.BeginLost?))
  }

  predicate Swallows(r: Request) {
    N.FateOf(r.handler).Swallowed? && r.replied.Some? && r.replied.value < 400
  }

  /** At its end the session of a request is still inside a transaction exactly when its
      handler swallowed a failure and the reply was no failure. */
  ghost predicate EndsIdle(r: Request) {
    && (r.phase.Releasing? ==> r.session.Idle? && !Swallows(r))
    && (r.phase.Done? ==> (r.session.Aborted? <==> Swallows(r)))
  }

  lemma FaultlessSend(s: State, rid: Rid, reply: Response)
    requires rid in s.requests && HandlerShape(s.requests[rid]) && EndsIdle(s.requests[rid])
    ensures EndsIdle(DoSend(s, rid, reply).requests[rid])
  {
    N.FateIsDecided(s.requests[rid].handler, []);
  }

  lemma FaultlessCommit(s: State, rid: Rid, fate: CommitFate)
    requires rid in s.requests && HandlerShape(s.requests[rid]) && EndsIdle(s.requests[rid])
    ensures EndsIdle(DoCommit(s, rid, fate).requests[rid])
  {
    N.FateIsDecided(s.requests[rid].handler, []);
  }

  /** Every other step of a request, without a fault, ends nothing or rolls back. */
  lemma FaultlessMove(s: State, e: Event, rid: Rid)
    requires Moves(e) && e.rid == rid && !e.Send? && !OutsideFault(e, rid)
    requires rid in s.requests && HandlerShape(s.requests[rid]) && EndsIdle(s.requests[rid])
    ensures EndsIdle(Next(s, e).requests[rid])
  {
    if e.Crash? { N.FateIsDecided(s.requests[rid].handler, []); }
  }

  lemma OthersKeep(s: State, e: Event, rid: Rid)
    requires rid in s.requests && (e.Arrive? || e.Prune? || e.Tick? || e.rid != rid)
    ensures rid in Next(s, e).requests && Next(s, e).requests[rid] == s.requests[rid]
  {
  }

  lemma FaultlessStep(s: State, e: Event, rid: Rid)
    requires Inv(s) && rid in s.requests && EndsIdle(s.requests[rid]) && !OutsideFault(e, rid)
    ensures rid in Next(s, e).requests && EndsIdle(Next(s, e).requests[rid])
  {
    assert HandlerShape(s.requests[rid]) by { assert RequestOk(s, rid, s.requests[rid]); }
    if e.Arrive? || e.Prune? || e.Tick? || e.rid != rid {
      OthersKeep(s, e, rid);
    } else if e.Send? {
      FaultlessSend(s, rid, e.reply);
    } else if e.CommitWork? {
      FaultlessCommit(s, rid, e.fate);
    } else {
      FaultlessMove(s, e, rid);
    }
  }

  lemma NewcomersStart(s: State, e: Event, rid: Rid)
    requires rid !in s.requests && rid in Next(s, e).requests
    ensures Next(s, e).requests[rid].phase.Arrived? && Next(s, e).requests[rid].handler.Skip?
    ensures Next(s, e).requests[rid].replied.None? && Next(s, e).requests[rid].connects == 0
  {
  }

  lemma {:induction false} FaultlessRun(s: State, events: seq<Event>, rid: Rid)
    requires Inv(s) && (rid in s.requests ==> EndsIdle(s.requests[rid]))
    requires forall e :: e in events ==> !OutsideFault(e, rid)
    ensures rid in Run(s, events).requests ==> EndsIdle(Run(s, events).requests[rid])
    decreases |events|
  {
    if events == [] {
    } else {
      if rid in s.requests {
        FaultlessStep(s, events[0], rid);
      } else if rid in Next(s, events[0]).requests {
        NewcomersStart(s, events[0], rid);
      }
      NextKeepsInv(s, events[0]);
      FaultlessRun(Next(s, events[0]), events[1..], rid);
    }
  }

  /** The status of the reply that settle began with, read off the history. */
  function Replied(s: State, events: seq<Event>, rid: Rid): Option<nat>
    decreases |events|
  {
    if events == [] then None
    else if Settles(s, events[0], rid) then Some(events[0].reply.status)
    else Replied(Next(s, events[0]), events[1..], rid)
  }

  /** The reply of `rid` is sent, and does not wait for the row lock. */
  predicate Settles(s: State, e: Event, rid: Rid) {
    && e.Send? && e.rid == rid && rid in s.requests && MayReply(s.requests[rid], e.reply)
    && (e.reply.status >= 400 || s.requests[rid].session.Aborted? || s.holder.None?
        || !Owns(s.row, Some(s.requests[rid].phase.token)))
  }

  lemma {:induction false} RepliedStays(s: State, events: seq<Event>, rid: Rid)
    requires rid in s.requests && (s.requests[rid].phase.Stored? || s.requests[rid].phase.Releasing?
                                   || s.requests[rid].phase.Done?)
    ensures rid in Run(s, events).requests && Run(s, events).requests[rid].replied == s.requests[rid].replied
    decreases |events|
  {
    if events == [] {
    } else {
      RepliedStays(Next(s, events[0]), events[1..], rid);
    }
  }

  lemma {:induction false} RepliedIsRecorded(s: State, events: seq<Event>, rid: Rid)
    requires rid in s.requests ==> s.requests[rid].replied.None?
    requires rid in Run(s, events).requests
    ensures Run(s, events).requests[rid].replied == Replied(s, events, rid)
    decreases |events|
  {
    if events == [] {
    } else if Settles(s, events[0], rid) {
      RepliedStays(Next(s, events[0]), events[1..], rid);
    } else {
      RepliedIsRecorded(Next(s, events[0]), events[1..], rid);
    }
  }

  /** A connection comes back inside a transaction exactly when the text of the handler
      swallows a failed statement and its reply was a success; an open transaction never
      comes back at all, and what a fault from outside broke is no connection any more. */
  lemma ConnectionsComeBackIdleExactly(events: seq<Event>, rid: Rid)
    requires rid in Run(INIT, events).requests && Run(INIT, events).requests[rid].releases == 1
    requires forall e :: e in events ==> !OutsideFault(e, rid)
    ensures var r := Run(INIT, events).requests[rid]; var replied := Replied(INIT, events, rid);
            && !r.session.Open?
            && (r.session.Aborted? <==> N.FateOf(r.handler).Swallowed? && replied.Some? && replied.value < 400)
  {
    RunKeepsInv(INIT, events);
    assert RequestOk(Run(INIT, events), rid, Run(INIT, events).requests[rid]);
    FaultlessRun(INIT, events, rid);
    RepliedIsRecorded(INIT, events, rid);
  }

  /** Every handler that swallows a failed statement and answers with a success is such a
      case, from every state: its client gets a 500, nothing is saved, the row stays
      locked until the window has passed, and the connection comes back aborted. */
  lemma SwallowedFailureComesBackAborted(s: State, rid: Rid, part: N.Program, reply: Response)
    requires Inv(s) && rid in s.requests && s.requests[rid].phase.Working? && s.requests[rid].handler.Skip?
    requires N.FateOf(part).Swallowed? && reply.status < 400
    ensures var s' := Next(Next(s, Handle(rid, part)), Send(rid, reply)); var r := s'.requests[rid];
            && Inv(s') && s'.row == s.row && s'.commits == s.commits
            && r.phase == Done(Failed(500)) && r.releases == 1 && r.session.Aborted?
  {
    NextKeepsInv(s, Handle(rid, part));
    SwallowingAborts(s, rid, part);
    AbortedSettles(Next(s, Handle(rid, part)), rid, reply);
    NextKeepsInv(Next(s, Handle(rid, part)), Send(rid, reply));
  }

  lemma SwallowingAborts(s: State, rid: Rid, part: N.Program)
    requires rid in s.requests && RequestOk(s, rid, s.requests[rid])
    requires s.requests[rid].phase.Working? && s.requests[rid].handler.Skip? && N.FateOf(part).Swallowed?
    ensures var s' := DoHandle(s, rid, part);
            && s' == s.(requests := s'.requests) && rid in s'.requests && s'.requests[rid].phase.Working?
            && s'.requests[rid].session.Aborted? && !Threw(s'.requests[rid]) && s'.requests[rid].releases == 0
  {
    var r := s.requests[rid];
    assert r.pending == [] && r.session.Open?;
    N.FateIsDecided(part, []);
    N.FateIsDecided(N.Then(r.handler, part), []);
  }

  lemma AbortedSettles(s: State, rid: Rid, reply: Response)
    requires rid in s.requests && s.requests[rid].phase.Working? && s.requests[rid].session.Aborted?
    requires !Threw(s.requests[rid]) && reply.status < 400
    ensures var s' := DoSend(s, rid, reply); var r := s'.requests[rid];
            && s' == s.(requests := s'.requests) && r.phase == Done(Failed(500)) && r.session.Aborted?
            && r.releases == s.requests[rid].releases + 1
  {
  }

  // ----- a claim that was taken over -----

  /** `rid` no longer owns the row, or has ended without committing. */
  ghost predicate CannotCommit(s: State, rid: Rid) {
    && rid in s.requests
    && CommitOf(s.commits, rid).None?
    && (s.requests[rid].phase.Done? || s.requests[rid].phase.Releasing?
        || (TokenOf(s.requests[rid].phase).Some? && !Owns(s.row, TokenOf(s.requests[rid].phase))))
  }

  lemma CannotCommitOwnStep(s: State, e: Event, rid: Rid)
    requires Moves(e) && e.rid == rid && Local(s, rid) && CannotCommit(s, rid)
    ensures CannotCommit(Next(s, e), rid)
  {
  }

  lemma CannotCommitOthersCommit(s: State, other: Rid, fate: CommitFate, rid: Rid)
    requires other != rid && CannotCommit(s, rid)
    ensures CannotCommit(DoCommit(s, other, fate), rid)
  {
    if other in s.requests && s.requests[other].phase.Stored? {
      var r := s.requests[other];
      CommitOfAppend(s.commits, Commit(other, r.hash, r.pending, r.phase.response), rid);
    }
  }

  lemma CannotCommitOthersMove(s: State, s': State, other: Rid, rid: Rid)
    requires other != rid && other in s.requests && RowShape(s)
    requires rid in s.requests && RequestOk(s, rid, s.requests[rid])
    requires CannotCommit(s, rid) && Moved(s, s', other)
    ensures CannotCommit(s', rid)
  {
  }

  lemma LocalOf(s: State, rid: Rid)
    requires Inv(s) && rid in s.requests
    ensures Local(s, rid)
  {
    assert RequestOk(s, rid, s.requests[rid]);
  }

  lemma CannotCommitStays(s: State, e: Event, rid: Rid)
    requires Inv(s) && CannotCommit(s, rid)
    ensures CannotCommit(Next(s, e), rid)
  {
    LocalOf(s, rid);
    if Moves(e) && e.rid == rid {
      CannotCommitOwnStep(s, e, rid);
    } else if Moves(e) && e.rid in s.requests {
      LocalOf(s, e.rid);
      EventMoves(s, e, e.rid);
      CannotCommitOthersMove(s, Next(s, e), e.rid, rid);
    } else if e.CommitWork? && e.rid != rid {
      CannotCommitOthersCommit(s, e.rid, e.fate, rid);
    }
  }

  /** A request whose claim was reclaimed, expired away or pruned rolls back in every future. */
  lemma {:induction false} TakenOverNeverCommits(s: State, events: seq<Event>, rid: Rid)
    requires Inv(s) && CannotCommit(s, rid)
    ensures CannotCommit(Run(s, events), rid)
    decreases |events|
  {
    if events == [] {
    } else {
      CannotCommitStays(s, events[0], rid);
      NextKeepsInv(s, events[0]);
      TakenOverNeverCommits(Next(s, events[0]), events[1..], rid);
    }
  }

  // ----- a stored answer -----

  lemma {:induction false} PrunesOnlyGrow(s: State, events: seq<Event>)
    ensures s.prunedAnswers <= Run(s, events).prunedAnswers
    decreases |events|
  {
    if events == [] {
    } else {
      PrunesOnlyGrow(Next(s, events[0]), events[1..]);
    }
  }

  /** The one answer a newcomer may get while `row` holds a response. */
  function Verdict(row: Row, hash: Hash): Answer
    requires row.response.Some?
  {
    if row.hash == hash then Replayed(row.response.value) else KeyReused
  }

  /** `row` is stored, and every request outside `known` is on its way to its verdict. */
  ghost predicate Serving(s: State, row: Row, known: set<Rid>)
    requires row.response.Some?
  {
    && s.row == Some(row)
    && forall r :: r in s.requests && r !in known ==> OnItsWay(row, s.requests[r])
  }

  ghost predicate OnItsWay(row: Row, r: Request)
    requires row.response.Some?
  {
    || r.phase.Arrived? || r.phase.ClaimLost?
    || r.phase == Done(Verdict(row, r.hash)) || r.phase == Done(Failed(500)) || r.phase == Done(Died)
  }

  lemma ServingStays(s: State, e: Event, row: Row, known: set<Rid>)
    requires Inv(s) && row.response.Some? && Serving(s, row, known)
    requires Next(s, e).prunedAnswers == s.prunedAnswers
    ensures Serving(Next(s, e), row, known)
    ensures Next(s, e).commits == s.commits
  {
    if Moves(e) && e.rid in s.requests {
      assert RequestOk(s, e.rid, s.requests[e.rid]);
      ServingMoves(s, e, row, known);
    } else if e.CommitWork? && e.rid in s.requests {
      assert RequestOk(s, e.rid, s.requests[e.rid]);
    }
  }

  lemma ServingMoves(s: State, e: Event, row: Row, known: set<Rid>)
    requires Moves(e) && e.rid in s.requests && RequestOk(s, e.rid, s.requests[e.rid])
    requires row.response.Some? && Serving(s, row, known)
    ensures Serving(Next(s, e), row, known) && Next(s, e).commits == s.commits
  {
  }

  /** Until it is pruned a stored answer never changes, and every later request is
      replayed exactly those bytes, or refused if its body hashes differently, unless one
      of its statements throws (a 500) or its process dies. */
  lemma {:induction false} StoredAnswerServesEveryone(s: State, events: seq<Event>, row: Row, known: set<Rid>)
    requires Inv(s) && row.response.Some? && Serving(s, row, known)
    requires Run(s, events).prunedAnswers == s.prunedAnswers
    ensures Serving(Run(s, events), row, known)
    ensures Run(s, events).commits == s.commits
    decreases |events|
  {
    if events == [] {
    } else {
      var s1 := Next(s, events[0]);
      PrunesOnlyGrow(s, events[..1]);
      PrunesOnlyGrow(s1, events[1..]);
      ServingStays(s, events[0], row, known);
      NextKeepsInv(s, events[0]);
      StoredAnswerServesEveryone(s1, events[1..], row, known);
    }
  }

  // ----- progress -----

  /** The row may be taken by a request with this hash at application time `appNow`. */
  predicate Takeable(row: Option<Row>, hash: Hash, appNow: int) {
    row.None?
    || (&& row.value.response.None? && row.value.hash == hash && row.value.lockedAt.Some?
        && appNow - row.value.lockedAt.value >= IN_FLIGHT_WINDOW_MS)
  }

  /** The whole preHandler with nothing in between; a step that does not apply changes
      nothing. */
  function Undisturbed(rid: Rid, hash: Hash, appNow: int): seq<Event> {
    [Arrive(rid, hash), Claim(rid), Fetch(rid, appNow), Claim(rid), Reclaim(rid), Begin(rid, Opened)]
  }

  /** The same, with or without a prune between its CLAIM and its FETCH. */
  function PreHandling(rid: Rid, hash: Hash, appNow: int, pruned: bool): seq<Event> {
    if pruned
    then [Arrive(rid, hash), Claim(rid), Prune, Fetch(rid, appNow), Claim(rid), Reclaim(rid), Begin(rid, Opened)]
    else Undisturbed(rid, hash, appNow)
  }

  /** The preHandler as the functions of its events. */
  function PreHandled(s: State, rid: Rid, hash: Hash, appNow: int, pruned: bool): State {
    var claimed := DoClaim(DoArrive(s, rid, hash), rid);
    Continued(if pruned then DoPrune(claimed) else claimed, rid, appNow)
  }

  function Continued(s: State, rid: Rid, appNow: int): State {
    DoBegin(DoReclaim(DoClaim(DoFetch(s, rid, appNow), rid), rid), rid, Opened)
  }

  lemma PreHandlingRuns(s: State, rid: Rid, hash: Hash, appNow: int, pruned: bool)
    ensures Run(s, PreHandling(rid, hash, appNow, pruned)) == PreHandled(s, rid, hash, appNow, pruned)
  {
    if pruned {
      PrunedRuns(s, PreHandling(rid, hash, appNow, true), rid, hash, appNow);
    } else {
      UndisturbedRuns(s, Undisturbed(rid, hash, appNow), rid, hash, appNow);
    }
  }

  lemma PrunedRuns(s: State, es: seq<Event>, rid: Rid, hash: Hash, appNow: int)
    requires |es| == 7 && es[0] == Arrive(rid, hash) && es[1] == Claim(rid) && es[2] == Prune
    requires es[3] == Fetch(rid, appNow) && es[4] == Claim(rid) && es[5] == Reclaim(rid) && es[6] == Begin(rid, Opened)
    ensures Run(s, es) == PreHandled(s, rid, hash, appNow, true)
  {
    var claimed := DoClaim(DoArrive(s, rid, hash), rid);
    ClaimingRuns(s, es, rid, hash);
    UnrollOne(claimed, es, 2);
    ContinuingRuns(DoPrune(claimed), es, 3, rid, appNow);
  }

  lemma UndisturbedRuns(s: State, es: seq<Event>, rid: Rid, hash: Hash, appNow: int)
    requires |es| == 6 && es[0] == Arrive(rid, hash) && es[1] == Claim(rid)
    requires es[2] == Fetch(rid, appNow) && es[3] == Claim(rid) && es[4] == Reclaim(rid) && es[5] == Begin(rid, Opened)
    ensures Run(s, es) == PreHandled(s, rid, hash, appNow, false)
  {
    ClaimingRuns(s, es, rid, hash);
    ContinuingRuns(DoClaim(DoArrive(s, rid, hash), rid), es, 2, rid, appNow);
  }

  lemma ClaimingRuns(s: State, es: seq<Event>, rid: Rid, hash: Hash)
    requires |es| >= 2 && es[0] == Arrive(rid, hash) && es[1] == Claim(rid)
    ensures Run(s, es) == Run(DoClaim(DoArrive(s, rid, hash), rid), es[2..])
  {
    UnrollOne(s, es, 0);
    UnrollOne(DoArrive(s, rid, hash), es, 1);
  }

  lemma ContinuingRuns(s: State, es: seq<Event>, k: nat, rid: Rid, appNow: int)
    requires |es| == k + 4 && es[k] == Fetch(rid, appNow) && es[k + 1] == Claim(rid) && es[k + 2] == Reclaim(rid)
    requires es[k + 3] == Begin(rid, Opened)
    ensures Run(s, es[k..]) == Continued(s, rid, appNow)
  {
    var s4 := DoFetch(s, rid, appNow);
    var s5 := DoClaim(s4, rid);
    UnrollOne(s, es, k);
    UnrollOne(s4, es, k + 1);
    UnrollOne(s5, es, k + 2);
    UnrollOne(DoReclaim(s5, rid), es, k + 3);
  }

  /** Once a request has claimed or ended, the remaining lookups do not apply to it. */
  lemma ClaimedSkips(s: State, rid: Rid, appNow: int)
    requires rid in s.requests && (s.requests[rid].phase.Claimed? || s.requests[rid].phase.Done?)
    ensures DoFetch(s, rid, appNow) == s && DoClaim(s, rid) == s && DoReclaim(s, rid) == s
  {
  }

  lemma FreeRowIsClaimed(s: State, rid: Rid, hash: Hash, appNow: int)
    requires rid !in s.requests && s.holder.None? && Claimable(s.row, s.clock)
    ensures var s' := Run(s, Undisturbed(rid, hash, appNow));
            rid in s'.requests && s'.requests[rid].phase == Working(s.clock) && Owns(s'.row, Some(s.clock))
  {
    PreHandlingRuns(s, rid, hash, appNow, false);
    ClaimedSkips(DoClaim(DoArrive(s, rid, hash), rid), rid, appNow);
  }

  lemma StaleRowIsReclaimed(s: State, rid: Rid, hash: Hash, appNow: int)
    requires rid !in s.requests && s.holder.None? && s.row.Some? && !Claimable(s.row, s.clock)
    requires Takeable(s.row, hash, appNow)
    ensures var s' := Run(s, Undisturbed(rid, hash, appNow));
            rid in s'.requests && s'.requests[rid].phase == Working(s.clock) && Owns(s'.row, Some(s.clock))
  {
    PreHandlingRuns(s, rid, hash, appNow, false);
    var s2 := DoClaim(DoArrive(s, rid, hash), rid);
    assert s2.requests[rid].phase.ClaimLost? && s2.row == s.row;
    var s3 := DoFetch(s2, rid, appNow);
    assert s3.requests[rid].phase == Stale(s.row.value.lockedAt) && s3.row == s.row;
    assert DoClaim(s3, rid) == s3;
  }

  /** No crash, abort or failed release poisons a key: from every state that keeps the
      invariant, so from every reachable one, once the in-flight window has passed one
      undisturbed request with the same hash gets to work. */
  lemma NoKeyIsPoisoned(s: State, rid: Rid, hash: Hash, appNow: int)
    requires Inv(s) && rid !in s.requests && s.holder.None? && !HasAnswer(s.row) && Takeable(s.row, hash, appNow)
    ensures var s' := Run(s, Undisturbed(rid, hash, appNow));
            rid in s'.requests && s'.requests[rid].phase == Working(s.clock) && Owns(s'.row, Some(s.clock)) && Inv(s')
  {
    if Claimable(s.row, s.clock) {
      FreeRowIsClaimed(s, rid, hash, appNow);
    } else {
      StaleRowIsReclaimed(s, rid, hash, appNow);
    }
    RunKeepsInv(s, Undisturbed(rid, hash, appNow));
  }

  lemma UnrollOne(s: State, es: seq<Event>, i: nat)
    requires i < |es|
    ensures Run(s, es[i..]) == Run(Next(s, es[i]), es[i + 1..])
    ensures i == 0 ==> Run(s, es) == Run(Next(s, es[0]), es[1..])
    ensures i == |es| - 1 ==> Run(s, es[i..]) == Next(s, es[i])
  {
    assert es[i..][1..] == es[i + 1..];
  }

  // ----- what a commit contains -----

  /** The parts of the handler of `rid` that ran, in order. */
  function Ran(s: State, events: seq<Event>, rid: Rid): seq<N.Program>
    decreases |events|
  {
    if events == [] then []
    else (if Runs(s, events[0], rid) then [events[0].part] else []) + Ran(Next(s, events[0]), events[1..], rid)
  }

  predicate Runs(s: State, e: Event, rid: Rid) {
    e.Handle? && e.rid == rid && rid in s.requests && s.requests[rid].phase.Working? && !Threw(s.requests[rid])
  }

  /** The parts as one program. */
  function InSequence(first: N.Program, parts: seq<N.Program>): N.Program
    decreases |parts|
  {
    if parts == [] then first else InSequence(N.Then(first, parts[0]), parts[1..])
  }

  function HandlerOf(s: State, rid: Rid): N.Program {
    if rid in s.requests then s.requests[rid].handler else N.Skip
  }

  lemma HandlerStep(s: State, e: Event, rid: Rid)
    ensures HandlerOf(Next(s, e), rid) ==
            if Runs(s, e, rid) then N.Then(HandlerOf(s, rid), e.part) else HandlerOf(s, rid)
  {
    if rid in s.requests && (e.Arrive? || e.Prune? || e.Tick? || e.rid != rid) {
      OthersKeep(s, e, rid);
    }
  }

  lemma InSequenceStep(first: N.Program, part: N.Program, rest: seq<N.Program>)
    ensures InSequence(first, [part] + rest) == InSequence(N.Then(first, part), rest)
    ensures [] + rest == rest
  {
    assert ([part] + rest)[1..] == rest;
  }

  lemma {:induction false} HandlersGrow(s: State, events: seq<Event>, rid: Rid)
    ensures HandlerOf(Run(s, events), rid) == InSequence(HandlerOf(s, rid), Ran(s, events, rid))
    decreases |events|
  {
    if events == [] {
    } else {
      HandlersGrow(Next(s, events[0]), events[1..], rid);
      HandlerStep(s, events[0], rid);
      if Runs(s, events[0], rid) {
        InSequenceStep(HandlerOf(s, rid), events[0].part, Ran(Next(s, events[0]), events[1..], rid));
      } else {
        InSequenceStep(HandlerOf(s, rid), N.Skip, Ran(Next(s, events[0]), events[1..], rid));
      }
    }
  }

  lemma DoneStays(s: State, e: Event, rid: Rid)
    requires rid in s.requests && s.requests[rid].phase.Done?
    ensures rid in Next(s, e).requests && Next(s, e).requests[rid].phase.Done?
    ensures CommitOf(Next(s, e).commits, rid) == CommitOf(s.commits, rid)
  {
    if e.CommitWork? && Next(s, e).commits != s.commits {
      var r := s.requests[e.rid];
      CommitOfAppend(s.commits, Commit(e.rid, r.hash, r.pending, r.phase.response), rid);
    }
  }

  /** All or nothing: a commit is what the handler's text means.  It contains, in order,
      every write outside nested blocks and every write of the blocks that returned, none
      of a block that failed, and the text ends clean. */
  lemma CommitsAreWhole(events: seq<Event>, rid: Rid)
    ensures var c := CommitOf(Run(INIT, events).commits, rid);
            var handler := InSequence(N.Skip, Ran(INIT, events, rid));
            c.Some? ==> N.FateOf(handler).Clean? && c.value.writes == N.Saved(handler)
  {
    RunKeepsInv(INIT, events);
    HandlersGrow(INIT, events, rid);
    var s := Run(INIT, events);
    CommitOfFound(s.commits, rid);
    if CommitOf(s.commits, rid).Some? {
      assert RequestOk(s, rid, s.requests[rid]);
      N.FateIsDecided(s.requests[rid].handler, []);
    }
  }

  // ----- the plugin in its own form -----

  /** The table, the open transactions and the requests, changed statement by statement. */
  class Plugin {
    var row: Option<Row>
    var holder: Option<Rid>
    var requests: map<Rid, Request>
    var commits: seq<Commit>
    var prunedAnswers: nat
    var clock: nat

    function View(): State
      reads this
    {
      State(row, holder, requests, commits, prunedAnswers, clock)
    }

    constructor ()
      ensures View() == INIT
    {
      row, holder, requests, commits, prunedAnswers, clock := None, None, map[], [], 0, 0;
    }

    method SetPhase(rid: Rid, phase: Phase)
      requires rid in requests
      modifies this`requests
      ensures requests == old(requests)[rid := old(requests)[rid].(phase := phase)]
    {
      requests := requests[rid := requests[rid].(phase := phase)];
    }

    /** CLAIM_SQL, first or second time. */
    method ClaimRow(rid: Rid)
      modifies this
      ensures View() == DoClaim(old(View()), rid)
    {
      if rid !in requests || holder.Some? { return; }
      var phase := requests[rid].phase;
      if !phase.Arrived? && !phase.RowGone? { return; }
      if row.None? || (row.value.expiresAt < clock && row.value.response.None?) {
        row := Some(Row(requests[rid].hash, Some(clock), None, clock + RETENTION_MS));
        SetPhase(rid, Claimed(clock));
        clock := clock + 1;
      } else if phase.Arrived? {
        SetPhase(rid, ClaimLost);
      } else {
        SetPhase(rid, Done(InFlight));
      }
    }

    /** FETCH_SQL and the branches on what it returned. */
    method FetchRow(rid: Rid, appNow: int)
      modifies this
      ensures View() == DoFetch(old(View()), rid, appNow)
    {
      if rid !in requests || !requests[rid].phase.ClaimLost? { return; }
      if row.None? {
        SetPhase(rid, RowGone);
        return;
      }
      var existing := row.value;
      if existing.hash != requests[rid].hash {
        SetPhase(rid, Done(KeyReused));
      } else if existing.response.Some? {
        SetPhase(rid, Done(Replayed(existing.response.value)));
      } else if existing.lockedAt.Some? && appNow - existing.lockedAt.value < IN_FLIGHT_WINDOW_MS {
        SetPhase(rid, Done(InFlight));
      } else {
        SetPhase(rid, Stale(existing.lockedAt));
      }
    }

    /** RECLAIM_SQL. */
    method ReclaimRow(rid: Rid)
      modifies this
      ensures View() == DoReclaim(old(View()), rid)
    {
      if rid !in requests || !requests[rid].phase.Stale? || holder.Some? { return; }
      var seen := requests[rid].phase.seen;
      if row.Some? && row.value.response.None? && seen.Some? && row.value.lockedAt == seen {
        row := Some(row.value.(lockedAt := Some(clock)));
        SetPhase(rid, Claimed(clock));
        clock := clock + 1;
      } else {
        SetPhase(rid, Done(InFlight));
      }
    }

    /** A CLAIM, FETCH or RECLAIM throws. */
    method FailLookup(rid: Rid)
      modifies this
      ensures View() == DoLookupFails(old(View()), rid)
    {
      if rid !in requests { return; }
      match requests[rid].phase
      case Arrived => SetPhase(rid, Done(Failed(500)));
      case ClaimLost => SetPhase(rid, Done(Failed(500)));
      case RowGone => SetPhase(rid, Done(Failed(500)));
      case Stale(_) => SetPhase(rid, Done(Failed(500)));
      case _ =>
    }

    /** beginWork: take a connection, then BEGIN. */
    method BeginWork(rid: Rid, outcome: BeginOutcome)
      modifies this
      ensures View() == DoBegin(old(View()), rid, outcome)
    {
      if rid !in requests || !requests[rid].phase.Claimed? { return; }
      var r := requests[rid];
      if outcome.ConnectFailed? {
        SetPhase(rid, Done(Failed(500)));
        return;
      }
      r := r.(connects := r.connects + 1);
      if outcome.Opened? {
        r := r.(phase := Working(r.phase.token), session := Open);
      } else {
        r := r.(session := if outcome.BeginLost? then Lost else Aborted, releases := r.releases + 1,
                phase := Releasing(r.phase.token, Failed(500), false));
      }
      requests := requests[rid := r];
    }

    /** A request comes in and tries its CLAIM. */
    method Enter(rid: Rid, hash: Hash)
      requires rid !in requests && holder.None?
      modifies this
      ensures View() == DoClaim(DoArrive(old(View()), rid, hash), rid)
      ensures rid in requests && holder.None? && (requests[rid].phase.Claimed? || requests[rid].phase.ClaimLost?)
    {
      requests := requests[rid := Request(hash, Arrived, N.Skip, [], Idle, None, 0, 0)];
      ClaimRow(rid);
    }

    /** The preHandler performs exactly the events of `PreHandling`, also when the row it
        lost to is pruned before it looks. */
    method PreHandler(rid: Rid, hash: Hash, appNow: int, pruned: bool)
      requires rid !in requests && holder.None?
      modifies this
      ensures View() == Run(old(View()), PreHandling(rid, hash, appNow, pruned))
    {
      PreHandlingRuns(View(), rid, hash, appNow, pruned);
      Enter(rid, hash);
      if pruned {
        PruneExpired();
      }
      LookUp(rid, appNow);
    }

    /** What follows the first CLAIM. */
    method LookUp(rid: Rid, appNow: int)
      requires rid in requests && holder.None? && (requests[rid].phase.Claimed? || requests[rid].phase.ClaimLost?)
      modifies this
      ensures View() == Continued(old(View()), rid, appNow)
    {
      if requests[rid].phase.Claimed? {
        ClaimedSkips(View(), rid, appNow);
        BeginWork(rid, Opened);
        return;
      }
      FetchRow(rid, appNow);
      if requests[rid].phase.RowGone? {
        ClaimRow(rid);
        ClaimedSkips(View(), rid, appNow);
        BeginWork(rid, Opened);
      } else if requests[rid].phase.Stale? {
        ReclaimRow(rid);
        BeginWork(rid, Opened);
      }
    }

    /** runInRequestTx: the handler's statements and blocks go to the request's connection. */
    method RunHandler(rid: Rid, part: N.Program)
      modifies this
      ensures View() == DoHandle(old(View()), rid, part)
    {
      if rid !in requests || !requests[rid].phase.Working? || Threw(requests[rid]) { return; }
      var r := requests[rid];
      var connection := new N.Connection();
      connection.work, connection.aborted := r.pending, r.session.Aborted?;
      var outcome := connection.Execute(part);
      requests := requests[rid := r.(
        handler := N.Then(r.handler, part), pending := connection.work,
        session := if connection.aborted then Aborted else Open)];
    }

    /** settle, from onSend: STORE, or ROLLBACK and answer; STORE throws on an aborted
        transaction, and `finally` releases once. */
    method Settle(rid: Rid, reply: Response)
      modifies this
      ensures View() == DoSend(old(View()), rid, reply)
    {
      if rid !in requests || !requests[rid].phase.Working? { return; }
      if Threw(requests[rid]) && reply.status < 400 { return; }
      var r := requests[rid].(replied := Some(reply.status));
      var token := r.phase.token;
      if reply.status < 400 {
        if r.session.Aborted? {
          r := r.(phase := Done(Failed(500)), pending := [], releases := r.releases + 1);
        } else if row.Some? && row.value.response.None? && row.value.lockedAt == Some(token) {
          if holder.Some? { return; }
          holder := Some(rid);
          r := r.(phase := Stored(token, reply));
        } else {
          r := r.(phase := Done(InFlight), pending := [], session := Idle, releases := r.releases + 1);
        }
      } else {
        r := r.(phase := Releasing(token, Failed(reply.status), true), pending := [], session := Idle);
      }
      requests := requests[rid := r];
    }

    /** settle, when its first statement throws although the transaction was sound. */
    method FailSettle(rid: Rid, fault: Fault)
      modifies this
      ensures View() == DoStoreFails(old(View()), rid, fault)
    {
      if rid !in requests || !requests[rid].phase.Working? { return; }
      var r := requests[rid];
      requests := requests[rid := r.(
        phase := Done(Failed(500)), pending := [], releases := r.releases + 1,
        session := if fault.Refused? then Aborted else Lost)];
    }

    /** COMMIT: the stored response and the business rows become visible together. */
    method CommitTransaction(rid: Rid, fate: CommitFate)
      modifies this
      ensures View() == DoCommit(old(View()), rid, fate)
    {
      if rid !in requests || !requests[rid].phase.Stored? || row.None? { return; }
      var r := requests[rid];
      var response := r.phase.response;
      if Applied(fate) {
        row := Some(row.value.(response := Some(response), lockedAt := None));
        commits := commits + [Commit(rid, r.hash, r.pending, response)];
      }
      holder := None;
      requests := requests[rid :=
          r.(phase := Done(AnswerOf(fate, response)), pending := [], session := SessionAfter(fate),
              releases := r.releases + if fate.DiedAfter? then 0 else 1)];
    }

    /** onRequestAbort. */
    method AbortRequest(rid: Rid, rolledBack: bool)
      modifies this
      ensures View() == DoAbort(old(View()), rid, rolledBack)
    {
      if rid !in requests || !requests[rid].phase.Working? { return; }
      var r := requests[rid].(pending := []);
      if rolledBack {
        r := r.(phase := Releasing(r.phase.token, Vanished, true), session := Idle);
      } else {
        r := r.(phase := Done(Vanished), session := Lost, releases := r.releases + 1);
      }
      requests := requests[rid := r];
    }

    /** RELEASE_CLAIM_SQL, which may itself fail, and the end of the request. */
    method ReleaseClaim(rid: Rid, executed: bool)
      modifies this
      ensures View() == DoRelease(old(View()), rid, executed)
    {
      if rid !in requests || !requests[rid].phase.Releasing? { return; }
      var r := requests[rid];
      if executed && row.Some? && row.value.response.None? && row.value.lockedAt == Some(r.phase.token) {
        if holder.Some? { return; }
        row := None;
      }
      var closed := if r.phase.connected then 1 else 0;
      requests := requests[rid := r.(phase := Done(r.phase.verdict), releases := r.releases + closed)];
    }

    /** pruneExpiredKeys. */
    method PruneExpired()
      modifies this
      ensures View() == DoPrune(old(View()))
    {
      if row.Some? && holder.None? && row.value.expiresAt < clock {
        if row.value.response.Some? {
          prunedAnswers := prunedAnswers + 1;
        }
        row := None;
      }
    }
  }
}

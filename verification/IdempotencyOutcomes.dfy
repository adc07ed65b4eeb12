/**
 * What the requests of apps/api/src/plugins/idempotency.ts come to, case by case and with
 * the periods written out: when a row may go, which of the five answers a request gets,
 * and what its reply leaves behind.  `Idempotency` proves what holds whatever happens;
 * here each outcome has its exact condition.
 */
module IdempotencyOutcomes {
  import opened Prelude
  import opened Idempotency
  import N = NestedTransactions

  // ----- how long a row lives -----

  /** The CLAIM of this event succeeds. */
  predicate TakesRow(s: State, e: Event) {
    && e.Claim? && e.rid in s.requests && !s.requests[e.rid].phase.Claimed?
    && e.rid in Next(s, e).requests && Next(s, e).requests[e.rid].phase.Claimed?
  }

  /** The clock at the last CLAIM that took the row, `seen` if there was none since. */
  function LastClaim(s: State, events: seq<Event>, seen: Option<nat>): Option<nat>
    decreases |events|
  {
    if events == [] then seen
    else LastClaim(Next(s, events[0]), events[1..], if TakesRow(s, events[0]) then Some(s.clock) else seen)
  }

  /** The row was taken at `seen` and expires thirty days after. */
  predicate Aged(s: State, seen: Option<nat>) {
    s.row.Some? ==> seen.Some? && s.row.value.expiresAt == seen.value + 2592000000
  }

  lemma AgedStep(s: State, e: Event, seen: Option<nat>)
    requires Aged(s, seen)
    ensures Aged(Next(s, e), if TakesRow(s, e) then Some(s.clock) else seen)
  {
  }

  lemma {:induction false} AgedRun(s: State, events: seq<Event>, seen: Option<nat>)
    requires Aged(s, seen)
    ensures Aged(Run(s, events), LastClaim(s, events, seen))
    decreases |events|
  {
    if events == [] {
    } else {
      AgedStep(s, events[0], seen);
      AgedRun(Next(s, events[0]), events[1..], if TakesRow(s, events[0]) then Some(s.clock) else seen);
    }
  }

  /** In every history: a prune takes the row away exactly when its thirty days, counted
      from the last CLAIM that took it, are over and no STORE holds it; until then it
      changes nothing. */
  lemma PruneActsExactlyAfterThirtyDays(events: seq<Event>)
    requires Run(INIT, events).row.Some?
    ensures var s := Run(INIT, events); var claimed := LastClaim(INIT, events, None);
            && claimed.Some?
            && (s.clock > claimed.value + 2592000000 && s.holder.None? ==>
                  Next(s, Prune) == s.(row := None,
                                       prunedAnswers := s.prunedAnswers + if HasAnswer(s.row) then 1 else 0))
            && (s.clock <= claimed.value + 2592000000 || s.holder.Some? ==> Next(s, Prune) == s)
  {
    AgedRun(INIT, events, None);
  }

  /** The row changes hands, or goes, only through the statements that may do it. */
  lemma RowsChangeExactly(s: State, e: Event)
    requires s.row.Some?
    ensures Next(s, e).row.None? ==> e.Prune? || e.Release?
    ensures Next(s, e).row.Some? && Next(s, e).row.value.expiresAt != s.row.value.expiresAt ==> TakesRow(s, e)
    ensures Next(s, e).row.Some? && Next(s, e).row.value.hash != s.row.value.hash ==> TakesRow(s, e)
    ensures Next(s, e).row.Some? && Next(s, e).row.value.response != s.row.value.response ==> e.CommitWork?
  {
  }

  lemma ClockAdvances(s: State, e: Event)
    ensures s.clock <= Next(s, e).clock
  {
  }

  lemma {:induction false} ClockRuns(s: State, events: seq<Event>)
    ensures s.clock <= Run(s, events).clock
    decreases |events|
  {
    if events == [] {
    } else {
      ClockAdvances(s, events[0]);
      ClockRuns(Next(s, events[0]), events[1..]);
    }
  }

  lemma UnexpiredIsNotPruned(s: State, e: Event)
    requires s.row.Some? && s.clock <= s.row.value.expiresAt
    ensures Next(s, e).prunedAnswers == s.prunedAnswers
  {
  }

  /** Up to its expiry a stored answer stays as it is, nothing more commits, and every
      newcomer is on its way to it, whatever happens: no assumption about prunes is left. */
  lemma {:induction false} UnexpiredAnswerStays(s: State, events: seq<Event>, row: Row, known: set<Rid>)
    requires Inv(s) && row.response.Some? && Serving(s, row, known) && Run(s, events).clock <= row.expiresAt
    ensures Serving(Run(s, events), row, known)
    ensures Run(s, events).commits == s.commits && Run(s, events).prunedAnswers == s.prunedAnswers
    decreases |events|
  {
    if events == [] {
    } else {
      var s1 := Next(s, events[0]);
      ClockRuns(s, events);
      UnexpiredIsNotPruned(s, events[0]);
      ServingStays(s, events[0], row, known);
      NextKeepsInv(s, events[0]);
      UnexpiredAnswerStays(s1, events[1..], row, known);
    }
  }

  /** Within thirty days of the CLAIM under which it was stored, an answer is never lost and
      never doubled, and a request that comes later with the same body gets exactly it,
      once it is answered and unless one of its own statements throws. */
  lemma AnswersLastThirtyDays(before: seq<Event>, after: seq<Event>, rid: Rid)
    requires HasAnswer(Run(INIT, before).row)
    requires var claimed := LastClaim(INIT, before, None);
             claimed.Some? ==> Run(Run(INIT, before), after).clock <= claimed.value + 2592000000
    ensures var s, t := Run(INIT, before), Run(Run(INIT, before), after);
            && t.row == s.row && t.commits == s.commits
            && (rid in t.requests && rid !in s.requests && t.requests[rid].phase.Done?
                && t.requests[rid].hash == s.row.value.hash ==>
                  var a := t.requests[rid].phase.answer;
                  a == Replayed(s.row.value.response.value) || a == Failed(500) || a == Died)
  {
    var s := Run(INIT, before);
    RunKeepsInv(INIT, before);
    AgedRun(INIT, before, None);
    UnexpiredAnswerStays(s, after, s.row.value, s.requests.Keys);
    var t := Run(s, after);
    if rid in t.requests && rid !in s.requests {
      assert OnItsWay(s.row.value, t.requests[rid]);
    }
  }

  // ----- which answer a request gets -----

  /** The row is there for the taking: there is none, or it has expired without an answer. */
  predicate Free(row: Option<Row>, clock: nat) {
    row.None? || (row.value.response.None? && row.value.expiresAt < clock)
  }

  /** Its owner has been silent for thirty seconds, by the application's clock. */
  predicate Abandoned(row: Row, appNow: int) {
    row.lockedAt.None? || appNow - row.lockedAt.value >= 30000
  }

  lemma FreeRowWorks(s: State, rid: Rid, hash: Hash, appNow: int)
    requires rid !in s.requests && s.holder.None? && Free(s.row, s.clock)
    ensures var s' := PreHandled(s, rid, hash, appNow, false);
            && rid in s'.requests && s'.requests[rid].phase == Working(s.clock)
            && s'.row == Some(Row(hash, Some(s.clock), None, s.clock + 2592000000)) && s'.commits == s.commits
  {
    ClaimedSkips(DoClaim(DoArrive(s, rid, hash), rid), rid, appNow);
  }

  lemma TakenRowAnswers(s: State, rid: Rid, hash: Hash, appNow: int)
    requires rid !in s.requests && s.holder.None? && !Free(s.row, s.clock) && RowShape(s)
    ensures var s' := PreHandled(s, rid, hash, appNow, false); var row := s.row.value;
            && rid in s'.requests && s'.commits == s.commits
            && var phase := s'.requests[rid].phase;
            && (row.hash != hash ==> phase == Done(KeyReused) && s'.row == s.row)
            && (row.hash == hash && row.response.Some? ==>
                  phase == Done(Replayed(row.response.value)) && s'.row == s.row)
            && (row.hash == hash && row.response.None? && !Abandoned(row, appNow) ==>
                  phase == Done(InFlight) && s'.row == s.row)
            && (row.hash == hash && row.response.None? && Abandoned(row, appNow) ==>
                  phase == Working(s.clock) && s'.row == Some(row.(lockedAt := Some(s.clock))))
  {
    var s2 := DoClaim(DoArrive(s, rid, hash), rid);
    assert s2.requests[rid].phase.ClaimLost? && s2.row == s.row && s2.clock == s.clock;
    var s3 := DoFetch(s2, rid, appNow);
    assert s3.row == s.row && s3.clock == s.clock && DoClaim(s3, rid) == s3;
  }

  /** The whole preHandler of a request that nobody interrupts, from every state: it works
      exactly on a free row and on a row of the same body whose owner has been silent for
      thirty seconds; it is refused exactly for another body; it gets the stored answer
      exactly when there is one for its body; and otherwise it is told to wait.  A free row
      is taken for thirty days, an abandoned one keeps its expiry, and any other is left
      alone. */
  lemma UndisturbedIsDecided(s: State, rid: Rid, hash: Hash, appNow: int)
    requires Inv(s) && rid !in s.requests && s.holder.None?
    ensures var s' := Run(s, Undisturbed(rid, hash, appNow));
            rid in s'.requests && s'.commits == s.commits
    ensures var s' := Run(s, Undisturbed(rid, hash, appNow)); var phase := s'.requests[rid].phase;
            var free := Free(s.row, s.clock);
            && (phase.Working? <==>
                  free || (s.row.value.hash == hash && s.row.value.response.None? && Abandoned(s.row.value, appNow)))
            && (phase == Done(KeyReused) <==> !free && s.row.value.hash != hash)
            && (phase == Done(InFlight) <==>
                  !free && s.row.value.hash == hash && s.row.value.response.None? && !Abandoned(s.row.value, appNow))
            && (!free && s.row.value.hash == hash && s.row.value.response.Some? <==>
                  phase.Done? && phase.answer.Replayed?)
            && (phase.Done? && phase.answer.Replayed? ==> Some(phase.answer.stored) == s.row.value.response)
            && (!phase.Working? ==> s'.row == s.row)
            && (phase.Working? ==> phase.token == s.clock)
            && (phase.Working? ==>
                  s'.row == Some(Row(hash, Some(s.clock), None,
                                     if free then s.clock + 2592000000 else s.row.value.expiresAt)))
  {
    PreHandlingRuns(s, rid, hash, appNow, false);
    if Free(s.row, s.clock) {
      FreeRowWorks(s, rid, hash, appNow);
    } else {
      TakenRowAnswers(s, rid, hash, appNow);
    }
  }

  // ----- what a reply leaves behind -----

  /** settle with nothing in between: the reply, and the COMMIT or the release it leads to. */
  function Settled(s: State, rid: Rid, reply: Response): State {
    DoRelease(DoCommit(DoSend(s, rid, reply), rid, Answered), rid, true)
  }

  /** The whole of settle when nobody interrupts, from every state.  A success under the
      request's own claim is stored with the writes, in one commit, and sent; under a claim
      that was lost it is a 409, on an aborted transaction a 500, and both leave everything
      as it was; a failure is sent and frees the key, if it is still the request's. */
  lemma SettleIsDecided(s: State, rid: Rid, reply: Response)
    requires Inv(s) && rid in s.requests && s.holder.None? && MayReply(s.requests[rid], reply)
    ensures var s', r := Settled(s, rid, reply), s.requests[rid]; var owned := Owns(s.row, Some(r.phase.token));
            && rid in s'.requests && s'.requests[rid].releases == 1 && s'.requests[rid].pending == []
            && var phase := s'.requests[rid].phase;
            && (reply.status >= 400 ==>
                  phase == Done(Failed(reply.status)) && s'.commits == s.commits
                  && s'.row == if owned then None else s.row)
            && (reply.status < 400 && r.session.Aborted? ==>
                  phase == Done(Failed(500)) && s'.commits == s.commits && s'.row == s.row)
            && (reply.status < 400 && !r.session.Aborted? && !owned ==>
                  phase == Done(InFlight) && s'.commits == s.commits && s'.row == s.row)
            && (reply.status < 400 && !r.session.Aborted? && owned ==>
                  phase == Done(Fresh(reply)) && s'.commits == s.commits + [Commit(rid, r.hash, r.pending, reply)]
                  && s'.row == Some(Row(r.hash, None, Some(reply), s.row.value.expiresAt)))
  {
    assert RequestOk(s, rid, s.requests[rid]);
  }

  /** An abort when nobody interrupts: nothing is committed, and the key is free again if it
      is still the request's and the ROLLBACK got through. */
  lemma AbortIsDecided(s: State, rid: Rid, rolledBack: bool)
    requires Inv(s) && rid in s.requests && s.requests[rid].phase.Working? && s.holder.None?
    ensures var s', r := DoRelease(DoAbort(s, rid, rolledBack), rid, true), s.requests[rid];
            && rid in s'.requests && s'.requests[rid].phase == Done(Vanished) && s'.requests[rid].releases == 1
            && s'.requests[rid].session == (if rolledBack then Idle else Lost) && s'.requests[rid].pending == []
            && s'.commits == s.commits
            && s'.row == if rolledBack && Owns(s.row, Some(r.phase.token)) then None else s.row
  {
    assert RequestOk(s, rid, s.requests[rid]);
  }

  /** A failed BEGIN when nobody interrupts frees the key; without a connection at all the
      claim is left to age. */
  lemma BeginIsDecided(s: State, rid: Rid, outcome: BeginOutcome)
    requires Inv(s) && rid in s.requests && s.requests[rid].phase.Claimed? && s.holder.None?
    ensures var s', token := DoRelease(DoBegin(s, rid, outcome), rid, true), s.requests[rid].phase.token;
            && rid in s'.requests && s'.commits == s.commits
            && var r', failed := s'.requests[rid], outcome.BeginRefused? || outcome.BeginLost?;
            && r'.phase == (if outcome.Opened? then Working(token) else Done(Failed(500)))
            && r'.connects == (if outcome.ConnectFailed? then 0 else 1) && r'.releases == (if failed then 1 else 0)
            && (outcome.Opened? <==> r'.session.Open?)
            && s'.row == if failed && Owns(s.row, Some(token)) then None else s.row
  {
    assert RequestOk(s, rid, s.requests[rid]);
  }

  /** The end of a COMMIT, for each fate. */
  lemma CommitIsDecided(s: State, rid: Rid, fate: CommitFate)
    requires Inv(s) && rid in s.requests && s.requests[rid].phase.Stored?
    ensures var s', r := DoCommit(s, rid, fate), s.requests[rid];
            var applied := fate.Answered? || fate.Misreported? || fate.DiedAfter?;
            && rid in s'.requests && s'.holder.None?
            && s'.commits == (if applied then s.commits + [Commit(rid, r.hash, r.pending, r.phase.response)]
                              else s.commits)
            && s'.row == (if applied then Some(Row(r.hash, None, Some(r.phase.response), s.row.value.expiresAt))
                          else s.row)
            && s'.requests[rid].phase.Done?
            && (s'.requests[rid].phase.answer == Fresh(r.phase.response) <==> fate.Answered?)
            && (s'.requests[rid].phase.answer == Died <==> fate.DiedAfter?)
            && (s'.requests[rid].phase.answer == Failed(500) <==> !fate.Answered? && !fate.DiedAfter?)
            && s'.requests[rid].pending == []
            && s'.requests[rid].releases == r.releases + (if fate.DiedAfter? then 0 else 1)
            && s'.requests[rid].session == (if fate.Answered? || fate.RolledBack? then Idle else Lost)
  {
    assert RequestOk(s, rid, s.requests[rid]);
  }

  /** A handler that failed has freed its key: the very next request works, whatever its
      body, and its claim lasts thirty days again. */
  lemma RetryAfterFailureWorks(s: State, rid: Rid, reply: Response, next: Rid, hash: Hash, appNow: int)
    requires Inv(s) && rid in s.requests && s.holder.None? && MayReply(s.requests[rid], reply) && reply.status >= 400
    requires Owns(s.row, Some(s.requests[rid].phase.token)) && next !in s.requests
    ensures var s1 := Settled(s, rid, reply); var s2 := Run(s1, Undisturbed(next, hash, appNow));
            && Inv(s1) && next in s2.requests && s2.requests[next].phase == Working(s1.clock)
            && s2.row == Some(Row(hash, Some(s1.clock), None, s1.clock + 2592000000))
  {
    SettleIsDecided(s, rid, reply);
    SettledKeepsInv(s, rid, reply);
    FailureLeavesNoLock(s, rid, reply);
    UndisturbedIsDecided(Settled(s, rid, reply), next, hash, appNow);
  }

  lemma SameStep(s: State, e: Event, s': State)
    requires Inv(s) && Next(s, e) == s'
    ensures Inv(s')
  {
    NextKeepsInv(s, e);
  }

  lemma SettledKeepsInv(s: State, rid: Rid, reply: Response)
    requires Inv(s)
    ensures Inv(Settled(s, rid, reply))
  {
    var s1 := DoSend(s, rid, reply);
    var s2 := DoCommit(s1, rid, Answered);
    SameStep(s, Send(rid, reply), s1);
    SameStep(s1, CommitWork(rid, Answered), s2);
    SameStep(s2, Release(rid, true), DoRelease(s2, rid, true));
  }

  lemma FailureLeavesNoLock(s: State, rid: Rid, reply: Response)
    requires rid in s.requests && s.holder.None? && MayReply(s.requests[rid], reply) && reply.status >= 400
    ensures var s1 := Settled(s, rid, reply); s1.holder.None? && s1.requests.Keys == s.requests.Keys
  {
  }

  // ----- where the thirty days start -----

  /** A reclaim in the last millisecond of a row does not renew it, and neither does the
      commit of the request that reclaimed it. */
  lemma ReclaimDoesNotRenew(s: State, rid: Rid, appNow: int, reply: Response)
    requires Inv(s) && rid !in s.requests && s.holder.None? && s.row.Some?
    requires s.row.value.response.None? && s.row.value.expiresAt == s.clock && Abandoned(s.row.value, appNow)
    requires reply.status < 400
    ensures var hash := s.row.value.hash; var s2 := Settled(Run(s, Undisturbed(rid, hash, appNow)), rid, reply);
            && Inv(s2) && s2.holder.None? && s2.requests.Keys == s.requests.Keys + {rid} && s2.clock == s.clock + 1
            && s2.commits == s.commits + [Commit(rid, hash, [], reply)]
            && s2.row == Some(Row(hash, None, Some(reply), s.clock))
  {
    var hash := s.row.value.hash;
    var s1 := Run(s, Undisturbed(rid, hash, appNow));
    UndisturbedIsDecided(s, rid, hash, appNow);
    RunKeepsInv(s, Undisturbed(rid, hash, appNow));
    ReclaimedIsClean(s, rid, hash, appNow);
    SettleIsDecided(s1, rid, reply);
    SettledKeepsInv(s1, rid, reply);
    SettledLeavesTheRest(s1, rid, reply);
  }

  /** So its answer may be pruned as soon as it is committed, and the next request of the
      same body works and can commit a second time.  This is the input; nothing of the kind
      happens earlier, by `AnswersLastThirtyDays`. */
  lemma ReclaimedAnswersMayGoAtOnce(s: State, rid: Rid, appNow: int, reply: Response, next: Rid)
    requires Inv(s) && rid !in s.requests && next !in s.requests && next != rid && s.holder.None? && s.row.Some?
    requires s.row.value.response.None? && s.row.value.expiresAt == s.clock && Abandoned(s.row.value, appNow)
    requires reply.status < 400
    ensures var hash := s.row.value.hash; var s2 := Settled(Run(s, Undisturbed(rid, hash, appNow)), rid, reply);
            && |s2.commits| == |s.commits| + 1 && HasAnswer(s2.row) && Next(s2, Prune).row.None?
            && var s4 := Run(Next(s2, Prune), Undisturbed(next, hash, appNow));
               next in s4.requests && s4.requests[next].phase.Working? && s4.clock == s.clock + 2
  {
    var hash := s.row.value.hash;
    ReclaimDoesNotRenew(s, rid, appNow, reply);
    NewcomerAfterPrune(Settled(Run(s, Undisturbed(rid, hash, appNow)), rid, reply), next, hash, appNow);
  }

  lemma NewcomerAfterPrune(s: State, next: Rid, hash: Hash, appNow: int)
    requires Inv(s) && next !in s.requests && s.holder.None? && s.row.Some? && s.row.value.expiresAt < s.clock
    ensures Next(s, Prune).row.None?
    ensures var s' := Run(Next(s, Prune), Undisturbed(next, hash, appNow));
            next in s'.requests && s'.requests[next].phase.Working? && s'.clock == s.clock + 1
  {
    NextKeepsInv(s, Prune);
    UndisturbedIsDecided(Next(s, Prune), next, hash, appNow);
    FreeRowTicks(Next(s, Prune), next, hash, appNow);
  }

  lemma ReclaimedIsClean(s: State, rid: Rid, hash: Hash, appNow: int)
    requires Inv(s) && rid !in s.requests && s.holder.None? && s.row.Some? && !Free(s.row, s.clock)
    requires s.row.value.hash == hash && s.row.value.response.None? && Abandoned(s.row.value, appNow)
    ensures var s' := Run(s, Undisturbed(rid, hash, appNow));
            && s'.holder.None? && s'.clock == s.clock + 1 && s'.requests.Keys == s.requests.Keys + {rid}
            && s'.requests[rid] == Newcomer(hash).(phase := Working(s.clock), session := Open, connects := 1)
  {
    PreHandlingRuns(s, rid, hash, appNow, false);
    var s2 := DoClaim(DoArrive(s, rid, hash), rid);
    assert s2.requests[rid] == Newcomer(hash).(phase := ClaimLost) && s2.row == s.row;
    var s3 := DoFetch(s2, rid, appNow);
    assert s3.requests[rid].phase.Stale? && DoClaim(s3, rid) == s3;
  }

  lemma FreeRowTicks(s: State, rid: Rid, hash: Hash, appNow: int)
    requires rid !in s.requests && s.holder.None? && s.row.None?
    ensures Run(s, Undisturbed(rid, hash, appNow)).clock == s.clock + 1
  {
    PreHandlingRuns(s, rid, hash, appNow, false);
    ClaimedSkips(DoClaim(DoArrive(s, rid, hash), rid), rid, appNow);
  }

  lemma SettledLeavesTheRest(s: State, rid: Rid, reply: Response)
    requires rid in s.requests && s.holder.None? && MayReply(s.requests[rid], reply) && s.row.Some?
    ensures var s' := Settled(s, rid, reply);
            s'.holder.None? && s'.clock == s.clock && s'.requests.Keys == s.requests.Keys
  {
  }

  // ----- one statement at a time, with anything in between -----

  /** The step moves this request to this phase and does nothing else. */
  predicate Moves(s: State, s': State, rid: Rid, phase: Phase)
    requires rid in s.requests
  {
    s' == s.(requests := s.requests[rid := s.requests[rid].(phase := phase)])
  }

  /** The step gives the row to this request, under a token nobody had. */
  predicate Takes(s: State, s': State, rid: Rid, row: Row)
    requires rid in s.requests
  {
    && s'.row == Some(row) && s'.clock > s.clock
    && s' == s.(requests := s.requests[rid := s.requests[rid].(phase := Claimed(s.clock))], row := s'.row,
                clock := s'.clock)
  }

  /** A CLAIM takes a row that is missing, or expired without an answer, for thirty days.
      Otherwise the first one of a request is lost and the second one, after the row had
      gone, is told to wait.  It waits for a STORE that holds the row. */
  lemma ClaimIsDecided(s: State, rid: Rid)
    requires rid in s.requests
    ensures var s', r := Next(s, Claim(rid)), s.requests[rid];
            if s.holder.Some? || (r.phase != Arrived && r.phase != RowGone) then s' == s
            else if s.row.None? || (s.row.value.response.None? && s.row.value.expiresAt < s.clock)
            then Takes(s, s', rid, Row(r.hash, Some(s.clock), None, s.clock + 2592000000))
            else Moves(s, s', rid, if r.phase == Arrived then ClaimLost else Done(InFlight))
  {
  }

  /** A FETCH finds the row gone, of another body, answered, locked less than thirty seconds
      ago, or stale, in this order. */
  lemma FetchIsDecided(s: State, rid: Rid, appNow: int)
    requires rid in s.requests
    ensures var s', r := Next(s, Fetch(rid, appNow)), s.requests[rid];
            if r.phase != ClaimLost then s' == s
            else if s.row.None? then Moves(s, s', rid, RowGone)
            else
              var row := s.row.value;
              var unanswered := row.hash == r.hash && row.response.None?;
              var recent := row.lockedAt.Some? && appNow < row.lockedAt.value + 30000;
              && (row.hash != r.hash ==> Moves(s, s', rid, Done(KeyReused)))
              && (row.hash == r.hash && row.response.Some? ==> Moves(s, s', rid, Done(Replayed(row.response.value))))
              && (unanswered && recent ==> Moves(s, s', rid, Done(InFlight)))
              && (unanswered && !recent ==> Moves(s, s', rid, Stale(row.lockedAt)))
  {
  }

  /** A RECLAIM takes a row that still carries the lock it saw, and leaves hash and expiry;
      if anybody was faster the request is told to wait. */
  lemma ReclaimIsDecided(s: State, rid: Rid)
    requires rid in s.requests && s.requests[rid].phase.Stale?
    ensures var s', seen := Next(s, Reclaim(rid)), s.requests[rid].phase.seen;
            if s.holder.Some? then s' == s
            else if s.row.Some? && s.row.value.response.None? && s.row.value.lockedAt == seen && seen.Some?
            then Takes(s, s', rid, Row(s.row.value.hash, Some(s.clock), None, s.row.value.expiresAt))
            else Moves(s, s', rid, Done(InFlight))
  {
  }

  /** A lookup that throws is a 500 while the request is looking up, and nothing later. */
  lemma LookupFailureIsDecided(s: State, rid: Rid)
    requires rid in s.requests
    ensures var s', phase := Next(s, LookupFails(rid)), s.requests[rid].phase;
            if phase == Arrived || phase == ClaimLost || phase == RowGone || phase.Stale?
            then Moves(s, s', rid, Done(Failed(500)))
            else s' == s
  {
  }

  /** The state in which BEGIN leaves its connection: inside the request's transaction, as
      it came when BEGIN was refused on it, or broken. */
  lemma SessionAfterBegin(s: State, rid: Rid, outcome: BeginOutcome)
    requires rid in s.requests && s.requests[rid].phase.Claimed?
    ensures var s' := Next(s, Begin(rid, outcome));
            && rid in s'.requests
            && s'.requests[rid].session == match outcome
                                           case Opened => Open
                                           case BeginRefused => Aborted
                                           case BeginLost => Lost
                                           case ConnectFailed => s.requests[rid].session
  {
  }

  /** A STORE, or the ROLLBACK in its place, that throws: a 500, one release, nothing
      committed, the claim left to age, and the connection inside the aborted transaction
      or broken. */
  lemma StoreFailureIsDecided(s: State, rid: Rid, fault: Fault)
    requires rid in s.requests && s.requests[rid].phase.Working?
    ensures var s', r := Next(s, StoreFails(rid, fault)), s.requests[rid];
            s' == s.(requests := s.requests[rid :=
                       r.(phase := Done(Failed(500)), pending := [], releases := r.releases + 1,
                          session := if fault == Refused then Aborted else Lost)])
  {
  }

  /** A working request may answer with any status, and with 400 or more once its handler
      has thrown; otherwise a reply is none. */
  lemma RepliesAreDecided(s: State, rid: Rid, reply: Response)
    requires rid in s.requests
    ensures var r := s.requests[rid];
            MayReply(r, reply) <==>
            r.phase.Working? && (reply.status >= 400 || N.Meaning(r.handler, [], false).outcome == N.Returns)
    ensures !MayReply(s.requests[rid], reply) ==> Next(s, Send(rid, reply)) == s
  {
  }

  /** The end of the process ends the request, drops what was not committed, and gives a
      locked row free; the claim stays. */
  lemma CrashIsDecided(s: State, rid: Rid)
    requires rid in s.requests
    ensures var s', r := Next(s, Crash(rid)), s.requests[rid];
            if r.phase.Done? then s' == s
            else s' == s.(requests := s.requests[rid := r.(phase := Done(Died), pending := [], session := Lost)],
                          holder := if s.holder == Some(rid) then None else s.holder)
  {
  }

  /** What the history says of a replay, read off the commits themselves. */
  lemma {:induction false} WasAnsweredExactly(commits: seq<Commit>, hash: Hash, response: Response)
    ensures WasAnswered(commits, hash, response) <==>
              exists i :: 0 <= i < |commits| && commits[i].hash == hash && commits[i].response == response
  {
    if commits != [] {
      var front := commits[..|commits| - 1];
      WasAnsweredExactly(front, hash, response);
      if i :| 0 <= i < |commits| && commits[i].hash == hash && commits[i].response == response {
        assert i < |front| ==> front[i] == commits[i];
      }
      if WasAnswered(front, hash, response) {
        var i :| 0 <= i < |front| && front[i].hash == hash && front[i].response == response;
        assert commits[i] == front[i];
      }
    }
  }
}

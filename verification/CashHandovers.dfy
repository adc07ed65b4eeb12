/**
 * Cash declarations and their reconciliation: apps/api/src/modules/cash/service.ts over
 * apps/api/src/modules/cash/repo.ts.  Each action runs under the lock of its row and is
 * one event.  `history` records what really happened to a row; the theorem is that the
 * row and the audit trail still tell all of it.
 */
module CashHandovers {
  import opened Prelude

  type Id = nat
  type Employee = nat

  datatype Status = Submitted | Confirmed | Disputed

  datatype Row = Row(
    employee: Employee,
    day: int,
    declared: int,
    note: Option<string>,
    status: Status,
    confirmedAmount: Option<int>,
    ownerNote: Option<string>,
    confirmedBy: Option<Employee>,
    confirmedAt: Option<int>,
    reopenReason: Option<string>,
    version: nat)

  datatype Audit =
    | Amended(id: Id, actor: Employee, previous: int, declared: Option<int>)
    | Reopened(id: Id, actor: Employee, previousStatus: Status, confirmedAmount: Option<int>,
        ownerNote: Option<string>, reason: string)

  datatype Verdict = ConfirmedAs(amount: Option<int>) | DisputedFor(note: Option<string>)

  /** What happened, and by whom; `signer` of a sign-off is None where a reader cannot tell. */
  datatype Fact =
    | DeclaredAs(owner: Employee, amount: int)
    | AmendedTo(editor: Employee, amount: int)
    | SignedOff(signer: Option<Employee>, verdict: Verdict)
    | Undone(opener: Employee, reason: string)

  datatype State = State(rows: map<Id, Row>, audit: seq<Audit>, next: Id, history: map<Id, seq<Fact>>)

  datatype Answer = Done(id: Id) | Validation | DuplicateEntity | NotFound | OutOfScope | ReconciliationConfirmed
                  | VersionConflict | IllegalTransition

  datatype Event =
    | Declare(employee: Employee, day: int, today: int, amount: int, note: Option<string>)
    | Amend(actor: Employee, id: Id, ifMatch: nat, patchAmount: Option<int>, patchNote: Option<string>)
    | Confirm(actor: Employee, id: Id, confirmed: int, now: int)
    | Dispute(actor: Employee, id: Id, ownerNote: string, now: int)
    | Reopen(actor: Employee, id: Id, reason: string)

  const INIT := State(map[], [], 0, map[])
  const OLDEST_DAYS: int := 7

  // ----- the actions -----

  predicate DayTaken(s: State, employee: Employee, day: int) {
    exists i :: i in s.rows && s.rows[i].employee == employee && s.rows[i].day == day
  }

  /** The refusals, in the order the service makes them. */
  function AnswerTo(s: State, e: Event): Answer {
    match e
    case Declare(employee, day, today, _, _) =>
      if day > today || day < today - OLDEST_DAYS then Validation
      else if DayTaken(s, employee, day) then DuplicateEntity
      else Done(s.next)
    case Amend(actor, id, ifMatch, _, _) =>
      if id !in s.rows then NotFound
      else if s.rows[id].employee != actor then OutOfScope
      else if !s.rows[id].status.Submitted? then ReconciliationConfirmed
      else if s.rows[id].version != ifMatch then VersionConflict
      else Done(id)
    case Confirm(_, id, _, _) =>
      if id !in s.rows then NotFound else if !s.rows[id].status.Submitted? then IllegalTransition else Done(id)
    case Dispute(_, id, _, _) =>
      if id !in s.rows then NotFound else if !s.rows[id].status.Submitted? then IllegalTransition else Done(id)
    case Reopen(_, id, _) =>
      if id !in s.rows then NotFound else if s.rows[id].status.Submitted? then IllegalTransition else Done(id)
  }

  function VerdictOf(status: Status, amount: Option<int>, note: Option<string>): Verdict
    requires !status.Submitted?
  {
    if status.Confirmed? then ConfirmedAs(amount) else DisputedFor(note)
  }

  /** The row after an accepted action on it. */
  function NewRow(row: Row, e: Event): Row
    requires !e.Declare?
  {
    var bumped := row.(version := row.version + 1);
    match e
    case Amend(_, _, _, amount, note) =>
      bumped.(declared := if amount.Some? then amount.value else row.declared,
              note := if note.Some? then note else row.note)
    case Confirm(actor, _, confirmed, now) =>
      bumped.(status := Confirmed, confirmedAmount := Some(confirmed), confirmedBy := Some(actor),
          confirmedAt := Some(now))
    case Dispute(actor, _, ownerNote, now) =>
      bumped.(status := Disputed, ownerNote := Some(ownerNote), confirmedBy := Some(actor), confirmedAt := Some(now))
    case Reopen(_, _, reason) =>
      bumped.(status := Submitted, confirmedAmount := None, confirmedAt := None, ownerNote := None,
          reopenReason := Some(reason))
  }

  /** The audit rows an accepted action appends, in its own transaction. */
  function NewAudit(row: Row, e: Event): seq<Audit>
    requires !e.Declare?
  {
    match e
    case Amend(actor, id, _, amount, _) => [Amended(id, actor, row.declared, amount)]
    case Reopen(actor, id, reason) => [Reopened(id, actor, row.status, row.confirmedAmount, row.ownerNote, reason)]
    case _ => []
  }

  /** What really happened. */
  function NewFacts(row: Row, e: Event): seq<Fact>
    requires !e.Declare?
  {
    match e
    case Amend(actor, _, _, amount, _) => [AmendedTo(actor, if amount.Some? then amount.value else row.declared)]
    case Confirm(actor, _, confirmed, _) => [SignedOff(Some(actor), ConfirmedAs(Some(confirmed)))]
    case Dispute(actor, _, ownerNote, _) => [SignedOff(Some(actor), DisputedFor(Some(ownerNote)))]
    case Reopen(actor, _, reason) => [Undone(actor, reason)]
  }

  function Declared(employee: Employee, day: int, amount: int, note: Option<string>): Row {
    Row(employee, day, amount, note, Submitted, None, None, None, None, None, 1)
  }

  function Next(s: State, e: Event): State {
    if !AnswerTo(s, e).Done? then s
    else match e
      case Declare(employee, day, _, amount, note) =>
        s.(rows := s.rows[s.next := Declared(employee, day, amount, note)], next := s.next + 1,
           history := s.history[s.next := [DeclaredAs(employee, amount)]])
      case _ =>
        var row := s.rows[e.id];
        s.(rows := s.rows[e.id := NewRow(row, e)],
           audit := s.audit + NewAudit(row, e),
           history := s.history[e.id := (if e.id in s.history then s.history[e.id] else []) + NewFacts(row, e)])
  }

  function Run(events: seq<Event>): State
    decreases |events|
  {
    if events == [] then INIT else Next(Run(events[..|events| - 1]), events[|events| - 1])
  }

  // ----- reading the story back -----

  function AuditOf(audit: seq<Audit>, id: Id): seq<Audit> {
    if audit == [] then []
    else AuditOf(audit[..|audit| - 1], id) + if audit[|audit| - 1].id == id then [audit[|audit| - 1]] else []
  }

  /** The amount first declared: what the first amendment replaced, or what still stands. */
  function FirstAmount(trail: seq<Audit>, current: int): int {
    if trail == [] then current
    else if trail[0].Amended? then trail[0].previous
    else FirstAmount(trail[1..], current)
  }

  function FactsOf(a: Audit): seq<Fact> {
    match a
    case Amended(_, actor, previous, declared) =>
      [AmendedTo(actor, if declared.Some? then declared.value else previous)]
    case Reopened(_, actor, status, amount, note, reason) =>
      (if status.Submitted? then [] else [SignedOff(None, VerdictOf(status, amount, note))]) + [Undone(actor, reason)]
  }

  function TrailFacts(trail: seq<Audit>): seq<Fact> {
    if trail == [] then [] else TrailFacts(trail[..|trail| - 1]) + FactsOf(trail[|trail| - 1])
  }

  function Standing(row: Row): seq<Fact> {
    if row.status.Submitted? then [] else [SignedOff(None, VerdictOf(row.status, row.confirmedAmount, row.ownerNote))]
  }

  /** Everything but the signers, from the row and the audit trail alone. */
  function Reconstruct(row: Row, trail: seq<Audit>): seq<Fact> {
    [DeclaredAs(row.employee, FirstAmount(trail, row.declared))] + TrailFacts(trail) + Standing(row)
  }

  function Sign(f: Fact, who: Option<Employee>): Fact {
    if f.SignedOff? then f.(signer := who) else f
  }

  /** The same story with one signer throughout. */
  function SignedBy(facts: seq<Fact>, who: Option<Employee>): (r: seq<Fact>)
    ensures |r| == |facts| && forall i :: 0 <= i < |r| ==> r[i] == Sign(facts[i], who)
  {
    seq(|facts|, i requires 0 <= i < |facts| => Sign(facts[i], who))
  }

  /** The best story the record can tell: the one signer the row still names signed all. */
  function Told(row: Row, trail: seq<Audit>): seq<Fact> {
    SignedBy(Reconstruct(row, trail), row.confirmedBy)
  }

  /** Who signed last, as far as the story says. */
  function LastSigner(facts: seq<Fact>): Option<Employee> {
    if facts == [] then None
    else if facts[|facts| - 1].SignedOff? then facts[|facts| - 1].signer
    else LastSigner(facts[..|facts| - 1])
  }

  function Signings(facts: seq<Fact>): nat {
    if facts == [] then 0
    else Signings(facts[..|facts| - 1]) + if facts[|facts| - 1].SignedOff? then 1 else 0
  }

  predicate AllSigned(facts: seq<Fact>) {
    forall i :: 0 <= i < |facts| && facts[i].SignedOff? ==> facts[i].signer.Some?
  }

  // ----- the invariant -----

  /** Status decides exactly which of the answer's fields are null. */
  predicate StatusShape(row: Row) {
    && (row.confirmedAmount.Some? <==> row.status.Confirmed?)
    && (row.ownerNote.Some? <==> row.status.Disputed?)
    && (row.confirmedAt.None? <==> row.status.Submitted?)
  }

  /** The record tells the story but for the signers, of whom it names the last. */
  predicate HistoryOk(facts: seq<Fact>, row: Row, trail: seq<Audit>) {
    SignedBy(facts, None) == Reconstruct(row, trail) && AllSigned(facts) && LastSigner(facts) == row.confirmedBy
  }

  ghost predicate RowOk(s: State, id: Id)
    requires id in s.rows
  {
    && id < s.next && StatusShape(s.rows[id])
    && id in s.history && HistoryOk(s.history[id], s.rows[id], AuditOf(s.audit, id))
  }

  ghost predicate Inv(s: State) {
    && (forall id {:trigger RowOk(s, id)} :: id in s.rows ==> RowOk(s, id))
    && OnePerDay(s.rows)
    && AuditBelow(s.audit, s.next)
  }

  ghost predicate OnePerDay(rows: map<Id, Row>) {
    forall i, j :: i in rows && j in rows && i != j ==>
      rows[i].employee != rows[j].employee || rows[i].day != rows[j].day
  }

  predicate AuditBelow(audit: seq<Audit>, next: Id) {
    forall k :: 0 <= k < |audit| ==> audit[k].id < next
  }

  lemma AuditOfAppend(audit: seq<Audit>, a: Audit, id: Id)
    ensures AuditOf(audit + [a], id) == AuditOf(audit, id) + if a.id == id then [a] else []
  {
    assert (audit + [a])[..|audit|] == audit;
  }

  lemma {:induction false} NoAuditYet(audit: seq<Audit>, id: Id)
    requires forall k :: 0 <= k < |audit| ==> audit[k].id < id
    ensures AuditOf(audit, id) == []
  {
    if audit == [] {
    } else {
      NoAuditYet(audit[..|audit| - 1], id);
    }
  }

  lemma TrailFactsAppend(trail: seq<Audit>, a: Audit)
    ensures TrailFacts(trail + [a]) == TrailFacts(trail) + FactsOf(a)
  {
    assert (trail + [a])[..|trail|] == trail;
  }

  /** Once something was amended the first amount is settled; until then it is the row's. */
  lemma {:induction false} FirstAmountAppend(trail: seq<Audit>, a: Audit, current: int, later: int)
    requires a.Amended? ==> a.previous == current
    requires a.Reopened? ==> later == current
    ensures FirstAmount(trail + [a], later) == FirstAmount(trail, current)
  {
    if trail == [] {
      assert [a][1..] == [];
      assert [] + [a] == [a];
    } else {
      assert (trail + [a])[1..] == trail[1..] + [a];
      FirstAmountAppend(trail[1..], a, current, later);
    }
  }

  /** One accepted action on a row: its story grows by what happened. */
  lemma StoryGrows(row: Row, trail: seq<Audit>, e: Event)
    requires !e.Declare? && StatusShape(row)
    requires if e.Reopen? then !row.status.Submitted? else row.status.Submitted?
    ensures StatusShape(NewRow(row, e))
    ensures Reconstruct(NewRow(row, e), trail + NewAudit(row, e)) ==
            Reconstruct(row, trail) + SignedBy(NewFacts(row, e), None)
  {
    FactsAreFiled(row, e);
    if e.Amend? || e.Reopen? {
      var a := NewAudit(row, e)[0];
      FirstAmountAppend(trail, a, row.declared, NewRow(row, e).declared);
      TrailFactsAppend(trail, a);
    } else {
      assert trail + [] == trail;
    }
    TellOn([DeclaredAs(row.employee, FirstAmount(trail, row.declared))], TrailFacts(trail), Standing(row),
           SignedBy(NewFacts(row, e), None));
  }

  /** What happened is filed either in the audit trail or on the row. */
  lemma FactsAreFiled(row: Row, e: Event)
    requires !e.Declare? && StatusShape(row)
    requires if e.Reopen? then !row.status.Submitted? else row.status.Submitted?
    ensures var more := SignedBy(NewFacts(row, e), None);
            if e.Amend? || e.Reopen?
            then && NewAudit(row, e) == [NewAudit(row, e)[0]]
                 && FactsOf(NewAudit(row, e)[0]) == (if e.Reopen? then Standing(row) + more else more)
                 && Standing(NewRow(row, e)) == []
            else NewAudit(row, e) == [] && Standing(NewRow(row, e)) == more && Standing(row) == []
  {
    OneFact(row, e);
  }

  lemma OneFact(row: Row, e: Event)
    requires !e.Declare?
    ensures NewFacts(row, e) == [NewFacts(row, e)[0]]
    ensures SignedBy(NewFacts(row, e), None) == [Sign(NewFacts(row, e)[0], None)]
  {
  }

  /** The history grows with the record: what a row and a trail tell after one more fact. */
  lemma HistoryGrows(facts: seq<Fact>, row: Row, trail: seq<Audit>, f: Fact, row': Row, trail': seq<Audit>)
    requires HistoryOk(facts, row, trail) && (f.SignedOff? ==> f.signer.Some?)
    requires Reconstruct(row', trail') == Reconstruct(row, trail) + [Sign(f, None)]
    requires row'.confirmedBy == if f.SignedOff? then f.signer else row.confirmedBy
    ensures HistoryOk(facts + [f], row', trail')
  {
    SignedByConcat(facts, [f], None);
    assert SignedBy([f], None) == [Sign(f, None)];
    assert (facts + [f])[..|facts|] == facts;
  }

  lemma SignedByConcat(a: seq<Fact>, b: seq<Fact>, who: Option<Employee>)
    ensures SignedBy(a + b, who) == SignedBy(a, who) + SignedBy(b, who)
  {
  }

  lemma TellOn(first: seq<Fact>, told: seq<Fact>, standing: seq<Fact>, more: seq<Fact>)
    ensures first + (told + (standing + more)) + [] == first + told + standing + more
    ensures first + (told + more) + [] == first + told + [] + more
    ensures first + told + more == first + told + [] + more
  {
  }

  /** No row bears the id of the next one. */
  lemma NextIsFresh(s: State)
    requires Inv(s)
    ensures s.next !in s.rows
  {
    assert s.next in s.rows ==> RowOk(s, s.next);
  }

  lemma DeclaredRowIsOk(s: State, e: Event)
    requires Inv(s) && e.Declare? && AnswerTo(s, e).Done?
    ensures s.next in Next(s, e).rows && RowOk(Next(s, e), s.next)
  {
    NoAuditYet(s.audit, s.next);
  }

  lemma OlderRowStaysOk(s: State, e: Event, id: Id)
    requires Inv(s) && e.Declare? && AnswerTo(s, e).Done? && id in s.rows
    ensures id in Next(s, e).rows && RowOk(Next(s, e), id)
  {
    NextIsFresh(s);
    assert RowOk(s, id);
  }

  lemma DeclareKeepsInv(s: State, e: Event)
    requires Inv(s) && e.Declare?
    ensures Inv(Next(s, e))
  {
    if AnswerTo(s, e).Done? {
      var s' := Next(s, e);
      NextIsFresh(s);
      DeclaredRowIsOk(s, e);
      forall id | id in s'.rows
        ensures RowOk(s', id)
      {
        if id in s.rows { OlderRowStaysOk(s, e, id); }
      }
    }
  }

  lemma ActionAudits(s: State, e: Event, id: Id)
    requires !e.Declare? && e.id in s.rows
    ensures AuditOf(s.audit + NewAudit(s.rows[e.id], e), id) ==
            AuditOf(s.audit, id) + if id == e.id then NewAudit(s.rows[e.id], e) else []
  {
    var added := NewAudit(s.rows[e.id], e);
    if added == [] {
      assert s.audit + [] == s.audit && AuditOf(s.audit, id) + [] == AuditOf(s.audit, id);
    } else {
      AuditOfAppend(s.audit, added[0], id);
      assert added == [added[0]];
    }
  }

  lemma ActedRowIsOk(s: State, e: Event)
    requires Inv(s) && !e.Declare? && AnswerTo(s, e).Done? && e.id in s.rows
    ensures RowOk(Next(s, e), e.id)
  {
    assert RowOk(s, e.id);
    var row := s.rows[e.id];
    var trail := AuditOf(s.audit, e.id);
    ActionAudits(s, e, e.id);
    StoryGrows(row, trail, e);
    OneFact(row, e);
    HistoryGrows(s.history[e.id], row, trail, NewFacts(row, e)[0], NewRow(row, e), trail + NewAudit(row, e));
  }

  lemma OtherRowIsOk(s: State, e: Event, id: Id)
    requires Inv(s) && !e.Declare? && AnswerTo(s, e).Done? && id in s.rows && id != e.id
    ensures RowOk(Next(s, e), id)
  {
    assert RowOk(s, id);
    ActionAudits(s, e, id);
    assert AuditOf(s.audit, id) + [] == AuditOf(s.audit, id);
  }

  lemma ActionKeepsRow(s: State, e: Event, id: Id)
    requires Inv(s) && !e.Declare? && AnswerTo(s, e).Done? && id in s.rows
    ensures RowOk(Next(s, e), id)
  {
    if id == e.id { ActedRowIsOk(s, e); } else { OtherRowIsOk(s, e, id); }
  }

  lemma NextKeepsInv(s: State, e: Event)
    requires Inv(s)
    ensures Inv(Next(s, e))
  {
    if e.Declare? {
      DeclareKeepsInv(s, e);
    } else if AnswerTo(s, e).Done? {
      assert RowOk(s, e.id);
      ActionKeepsKeys(s, e);
      forall id | id in s.rows
        ensures RowOk(Next(s, e), id)
      {
        ActionKeepsRow(s, e, id);
      }
    }
  }

  /** An action changes neither whose day a row is nor which rows there are. */
  lemma ActionKeepsKeys(s: State, e: Event)
    requires !e.Declare? && AnswerTo(s, e).Done? && OnePerDay(s.rows) && AuditBelow(s.audit, s.next) && e.id < s.next
    ensures Next(s, e).rows.Keys == s.rows.Keys && Next(s, e).next == s.next
    ensures OnePerDay(Next(s, e).rows) && AuditBelow(Next(s, e).audit, s.next)
  {
    var rows' := Next(s, e).rows;
    assert forall i :: i in s.rows ==> rows'[i].employee == s.rows[i].employee && rows'[i].day == s.rows[i].day;
  }

  lemma {:induction false} RunKeepsInv(events: seq<Event>)
    ensures Inv(Run(events))
    decreases |events|
  {
    if events == [] {
    } else {
      RunKeepsInv(events[..|events| - 1]);
      NextKeepsInv(Run(events[..|events| - 1]), events[|events| - 1]);
    }
  }

  // ----- the theorems -----

  /** At most one row per employee and day, and status decides the nulls. */
  lemma OneRowPerDay(events: seq<Event>, i: Id, j: Id)
    requires i in Run(events).rows && j in Run(events).rows
    ensures var row := Run(events).rows[i];
            && (row.confirmedAmount.Some? <==> row.status == Confirmed)
            && (row.ownerNote.Some? <==> row.status == Disputed)
            && (row.confirmedAt.Some? <==> row.status == Confirmed || row.status == Disputed)
    ensures var rows := Run(events).rows;
            rows[i].employee == rows[j].employee && rows[i].day == rows[j].day ==> i == j
  {
    RunKeepsInv(events);
    assert RowOk(Run(events), i);
  }

  /** After any history the row and its audit trail give back every amount ever declared
      and by whom it was amended, every sign-off, and who undid it and why, in order; of the
      signers they name the last. */
  lemma {:induction false} TheTrailTellsEverything(events: seq<Event>, id: Id)
    requires id in Run(events).rows
    ensures var s := Run(events);
            && id in s.history
            && SignedBy(s.history[id], None) == Reconstruct(s.rows[id], AuditOf(s.audit, id))
            && LastSigner(s.history[id]) == s.rows[id].confirmedBy
  {
    RunKeepsInv(events);
    assert RowOk(Run(events), id);
  }

  // ----- who signed -----

  /** The record tells the whole story, signers included. */
  predicate Truthful(s: State, id: Id)
    requires id in s.rows && id in s.history
  {
    s.history[id] == Told(s.rows[id], AuditOf(s.audit, id))
  }

  /** The sign-off `e` would replace the name of somebody else. */
  predicate Overwrites(row: Row, e: Event) {
    (e.Confirm? || e.Dispute?) && row.confirmedBy.Some? && row.confirmedBy != Some(e.actor)
  }

  lemma SignedTwice(facts: seq<Fact>, a: Option<Employee>, b: Option<Employee>)
    ensures SignedBy(SignedBy(facts, a), b) == SignedBy(facts, b)
  {
  }

  predicate OnlySigner(facts: seq<Fact>, who: Option<Employee>) {
    forall i :: 0 <= i < |facts| && facts[i].SignedOff? ==> facts[i].signer == who
  }

  lemma OneMoreFact(facts: seq<Fact>, f: Fact, who: Option<Employee>)
    ensures OnlySigner(facts + [f], who) <==> OnlySigner(facts, who) && (f.SignedOff? ==> f.signer == who)
  {
    assert forall i :: 0 <= i < |facts| ==> (facts + [f])[i] == facts[i];
    assert (facts + [f])[|facts|] == f;
  }

  /** The record is truthful exactly when all sign-offs bear the name the row names. */
  lemma TruthfulMeansOneSigner(facts: seq<Fact>, row: Row, trail: seq<Audit>)
    requires HistoryOk(facts, row, trail)
    ensures facts == Told(row, trail) <==> OnlySigner(facts, row.confirmedBy)
  {
    SignedTwice(facts, None, row.confirmedBy);
  }

  /** The last signer is one of the signers. */
  lemma {:induction false} LastSignerSigned(facts: seq<Fact>)
    requires AllSigned(facts)
    ensures LastSigner(facts).None? <==> forall i :: 0 <= i < |facts| ==> !facts[i].SignedOff?
    ensures LastSigner(facts).Some? ==>
              exists i :: 0 <= i < |facts| && facts[i].SignedOff? && facts[i].signer == LastSigner(facts)
    ensures Signings(facts) == 0 <==> LastSigner(facts).None?
  {
    if facts == [] {
    } else {
      var front := facts[..|facts| - 1];
      LastSignerSigned(front);
      if LastSigner(front).Some? {
        var i :| 0 <= i < |front| && front[i].SignedOff? && front[i].signer == LastSigner(front);
        assert facts[i] == front[i];
      }
    }
  }

  lemma AnswerForgets(facts: seq<Fact>, row: Row, trail: seq<Audit>, e: Event)
    requires HistoryOk(facts, row, trail) && StatusShape(row) && row.status.Submitted? && (e.Confirm? || e.Dispute?)
    ensures facts + NewFacts(row, e) == Told(NewRow(row, e), trail + NewAudit(row, e)) <==>
            facts == Told(row, trail) && !Overwrites(row, e)
  {
    var more := NewFacts(row, e);
    StoryGrows(row, trail, e);
    OneFact(row, e);
    HistoryGrows(facts, row, trail, more[0], NewRow(row, e), trail + NewAudit(row, e));
    TruthfulMeansOneSigner(facts, row, trail);
    TruthfulMeansOneSigner(facts + more, NewRow(row, e), trail + NewAudit(row, e));
    LastSignerSigned(facts);
    OneMoreFact(facts, more[0], Some(e.actor));
    assert more == [more[0]];
  }

  /** An accepted confirmation or dispute makes a truthful record forget an earlier signer
      exactly when the row names somebody else before it; nothing makes it truthful again. */
  lemma {:induction false} AnswerForgetsExactlyWhenOverwriting(events: seq<Event>, e: Event)
    requires (e.Confirm? || e.Dispute?) && AnswerTo(Run(events), e).Done?
    ensures var s, s' := Run(events), Next(Run(events), e);
            && e.id in s.history && e.id in s'.rows && e.id in s'.history
            && LastSigner(s.history[e.id]) == s.rows[e.id].confirmedBy
            && s'.rows[e.id].confirmedBy == Some(e.actor)
            && (Truthful(s', e.id) <==> Truthful(s, e.id) && !Overwrites(s.rows[e.id], e))
  {
    RunKeepsInv(events);
    assert RowOk(Run(events), e.id);
    ActionOnRow(Run(events), e);
  }

  /** `e`, accepted, replaces a signer of this row. */
  predicate OverwritesAt(s: State, e: Event, id: Id) {
    !e.Declare? && AnswerTo(s, e).Done? && e.id == id && Overwrites(s.rows[id], e)
  }

  predicate NothingOverwritten(events: seq<Event>, id: Id)
    decreases |events|
  {
    events == []
    || (&& NothingOverwritten(events[..|events| - 1], id)
        && !OverwritesAt(Run(events[..|events| - 1]), events[|events| - 1], id))
  }

  /** Amending and reopening forget no signer. */
  lemma OthersForgetNothing(facts: seq<Fact>, row: Row, trail: seq<Audit>, e: Event)
    requires HistoryOk(facts, row, trail) && StatusShape(row) && (e.Amend? || e.Reopen?)
    requires if e.Reopen? then !row.status.Submitted? else row.status.Submitted?
    ensures facts + NewFacts(row, e) == Told(NewRow(row, e), trail + NewAudit(row, e)) <==> facts == Told(row, trail)
  {
    var more := NewFacts(row, e);
    StoryGrows(row, trail, e);
    OneFact(row, e);
    HistoryGrows(facts, row, trail, more[0], NewRow(row, e), trail + NewAudit(row, e));
    TruthfulMeansOneSigner(facts, row, trail);
    TruthfulMeansOneSigner(facts + more, NewRow(row, e), trail + NewAudit(row, e));
    OneMoreFact(facts, more[0], row.confirmedBy);
    assert more == [more[0]];
  }

  lemma TruthfulStep(s: State, e: Event, id: Id)
    requires Inv(s) && id in s.rows
    ensures RowOk(s, id) && id in Next(s, e).rows && id in Next(s, e).history
    ensures Truthful(Next(s, e), id) <==> Truthful(s, id) && !OverwritesAt(s, e, id)
  {
    assert RowOk(s, id);
    if !e.Declare? && AnswerTo(s, e).Done? {
      AuditGrows(s, e, id);
      if e.id == id {
        ActionOnRow(s, e);
      }
    }
  }

  lemma ActionOnRow(s: State, e: Event)
    requires !e.Declare? && AnswerTo(s, e).Done? && RowOk(s, e.id)
    ensures e.id in Next(s, e).rows && e.id in Next(s, e).history
    ensures Truthful(Next(s, e), e.id) <==> Truthful(s, e.id) && !Overwrites(s.rows[e.id], e)
  {
    var facts, row, trail := s.history[e.id], s.rows[e.id], AuditOf(s.audit, e.id);
    AuditGrows(s, e, e.id);
    assert Next(s, e).history[e.id] == facts + NewFacts(row, e) && Next(s, e).rows[e.id] == NewRow(row, e);
    if e.Confirm? || e.Dispute? {
      AnswerForgets(facts, row, trail, e);
    } else {
      OthersForgetNothing(facts, row, trail, e);
    }
  }

  lemma AuditGrows(s: State, e: Event, id: Id)
    requires !e.Declare? && AnswerTo(s, e).Done?
    ensures AuditOf(Next(s, e).audit, id) ==
            if e.id == id then AuditOf(s.audit, id) + NewAudit(s.rows[id], e) else AuditOf(s.audit, id)
  {
    assert AuditOf(s.audit, id) + [] == AuditOf(s.audit, id);
    var added := NewAudit(s.rows[e.id], e);
    if added == [] {
      assert s.audit + [] == s.audit;
    } else {
      assert added == [added[0]];
      AuditOfAppend(s.audit, added[0], id);
    }
  }

  /** A freshly declared row has nothing to forget. */
  lemma NewRowIsTruthful(s: State, e: Event)
    requires Inv(s) && e.Declare? && AnswerTo(s, e).Done?
    ensures s.next in Next(s, e).rows && s.next in Next(s, e).history && Truthful(Next(s, e), s.next)
  {
    NoAuditYet(s.audit, s.next);
    assert [DeclaredAs(e.employee, e.amount)] + [] + [] == [DeclaredAs(e.employee, e.amount)];
  }

  /** All signers can be read off the record exactly when no sign-off ever replaced the
      name of another signer. */
  lemma {:induction false} SignersAreToldExactlyWhenNoneIsOverwritten(events: seq<Event>, id: Id)
    requires id in Run(events).rows
    ensures id in Run(events).history
    ensures Truthful(Run(events), id) <==> NothingOverwritten(events, id)
    decreases |events|
  {
    RunKeepsInv(events);
    assert RowOk(Run(events), id);
    if events == [] {
    } else {
      var front, e := events[..|events| - 1], events[|events| - 1];
      RunKeepsInv(front);
      if id in Run(front).rows {
        SignersAreToldExactlyWhenNoneIsOverwritten(front, id);
        TruthfulStep(Run(front), e, id);
      } else {
        NewRowIsTruthful(Run(front), e);
        NothingBeforeTheRow(front, id);
      }
    }
  }

  lemma {:induction false} NothingBeforeTheRow(events: seq<Event>, id: Id)
    requires id !in Run(events).rows
    ensures NothingOverwritten(events, id)
    decreases |events|
  {
    if events == [] {
    } else {
      NothingBeforeTheRow(events[..|events| - 1], id);
    }
  }

  // ----- what no reader could tell -----

  /** No other history leaves this row and this trail. */
  ghost predicate Determined(events: seq<Event>, id: Id)
    requires id in Run(events).rows && id in Run(events).history
  {
    forall other :: SameRecord(events, other, id) ==> Run(other).history[id] == Run(events).history[id]
  }

  ghost predicate SameRecord(events: seq<Event>, other: seq<Event>, id: Id)
    requires id in Run(events).rows
  {
    && id in Run(other).rows && id in Run(other).history
    && Run(other).rows[id] == Run(events).rows[id]
    && AuditOf(Run(other).audit, id) == AuditOf(Run(events).audit, id)
  }

  lemma {:induction false} SigningsIgnoreNames(facts: seq<Fact>, who: Option<Employee>)
    ensures Signings(SignedBy(facts, who)) == Signings(facts)
  {
    if facts == [] {
    } else {
      SigningsIgnoreNames(facts[..|facts| - 1], who);
      assert SignedBy(facts, who)[..|facts| - 1] == SignedBy(facts[..|facts| - 1], who);
    }
  }

  /** With at most one sign-off the last signer is the only one. */
  lemma {:induction false} OneSigningOneSigner(facts: seq<Fact>, i: nat)
    requires Signings(facts) <= 1 && AllSigned(facts) && i < |facts| && facts[i].SignedOff?
    ensures facts[i].signer == LastSigner(facts)
  {
    var front := facts[..|facts| - 1];
    LastSignerSigned(front);
    if i < |front| {
      assert front[i] == facts[i];
      OneSigningOneSigner(front, i);
    }
  }

  lemma OneSigningIsTold(facts: seq<Fact>, row: Row, trail: seq<Audit>)
    requires HistoryOk(facts, row, trail) && Signings(facts) <= 1
    ensures facts == Told(row, trail)
  {
    TruthfulMeansOneSigner(facts, row, trail);
    forall i | 0 <= i < |facts| && facts[i].SignedOff?
      ensures facts[i].signer == row.confirmedBy
    {
      OneSigningOneSigner(facts, i);
    }
  }

  /** Two states that differ in nothing but who signed `id`. */
  ghost predicate Alike(s: State, t: State, id: Id) {
    && id in s.rows && id in s.history && t.rows.Keys == s.rows.Keys && t.history.Keys == s.history.Keys
    && t.audit == s.audit && t.next == s.next
    && t.rows == s.rows[id := s.rows[id].(confirmedBy := t.rows[id].confirmedBy)]
    && |t.history[id]| == |s.history[id]| && t.history[id] != s.history[id]
  }

  predicate Answers(s: State, e: Event, id: Id) {
    (e.Confirm? || e.Dispute?) && e.id == id && AnswerTo(s, e).Done?
  }

  /** Alike states stay alike, and the next sign-off makes their records the same. */
  lemma AlikeStays(s: State, t: State, e: Event, id: Id)
    requires Alike(s, t, id) && id < s.next
    ensures Alike(Next(s, e), Next(t, e), id)
    ensures Answers(s, e, id) ==> Next(s, e).rows == Next(t, e).rows
  {
    AlikeAnswers(s, t, e, id);
    if AnswerTo(s, e).Done? && !e.Declare? {
      AlikeActs(s, t, e, id);
    }
  }

  lemma AlikeActs(s: State, t: State, e: Event, id: Id)
    requires Alike(s, t, id) && !e.Declare? && AnswerTo(s, e).Done? && AnswerTo(t, e).Done?
    ensures Alike(Next(s, e), Next(t, e), id)
    ensures Answers(s, e, id) ==> Next(s, e).rows == Next(t, e).rows
  {
    var more := NewFacts(s.rows[e.id], e);
    assert more == NewFacts(t.rows[e.id], e) && NewAudit(s.rows[e.id], e) == NewAudit(t.rows[e.id], e);
    if e.id == id {
      StillDiffer(s.history[id], t.history[id], more);
      assert Next(t, e).history[id] == t.history[id] + more;
    }
  }

  lemma StillDiffer(a: seq<Fact>, b: seq<Fact>, more: seq<Fact>)
    requires |a| == |b| && a != b
    ensures a + more != b + more
  {
    assert (a + more)[..|a|] == a && (b + more)[..|a|] == b;
  }

  lemma AlikeAnswers(s: State, t: State, e: Event, id: Id)
    requires Alike(s, t, id)
    ensures AnswerTo(t, e) == AnswerTo(s, e)
  {
    if e.Declare? {
      assert forall i :: i in s.rows ==> t.rows[i].employee == s.rows[i].employee && t.rows[i].day == s.rows[i].day;
    }
  }

  lemma RunAppend(events: seq<Event>, e: Event)
    ensures Run(events + [e]) == Next(Run(events), e)
  {
    assert (events + [e])[..|events|] == events;
  }

  lemma SigningsStep(s: State, e: Event, id: Id)
    requires Inv(s) && id in s.rows && id in s.history
    ensures id in Next(s, e).history
    ensures Signings(Next(s, e).history[id]) == Signings(s.history[id]) + if Answers(s, e, id) then 1 else 0
  {
    assert RowOk(s, id);
    if AnswerTo(s, e).Done? && !e.Declare? && e.id == id {
      SigningsAct(s.history[id], s.rows[id], e);
    } else {
      HistoryStays(s, e, id);
    }
  }

  lemma SigningsAct(facts: seq<Fact>, row: Row, e: Event)
    requires !e.Declare?
    ensures Signings(facts + NewFacts(row, e)) == Signings(facts) + if e.Confirm? || e.Dispute? then 1 else 0
  {
    OneFact(row, e);
    SigningsAppend(facts, NewFacts(row, e)[0]);
  }

  lemma HistoryStays(s: State, e: Event, id: Id)
    requires id in s.history && id < s.next && (AnswerTo(s, e).Done? && !e.Declare? ==> e.id != id)
    ensures id in Next(s, e).history && Next(s, e).history[id] == s.history[id]
  {
  }

  lemma SigningsAppend(facts: seq<Fact>, f: Fact)
    ensures Signings(facts + [f]) == Signings(facts) + if f.SignedOff? then 1 else 0
  {
    assert (facts + [f])[..|facts|] == facts;
  }

  function Impostor(e: Event): Event
    requires e.Confirm? || e.Dispute?
  {
    match e
    case Confirm(actor, id, confirmed, now) => Confirm(actor + 1, id, confirmed, now)
    case Dispute(actor, id, ownerNote, now) => Dispute(actor + 1, id, ownerNote, now)
  }

  lemma ImpostorIsAlike(s: State, e: Event, id: Id)
    requires Answers(s, e, id) && id in s.history
    ensures Alike(Next(s, e), Next(s, Impostor(e)), id)
  {
    assert NewFacts(s.rows[id], e)[0] != NewFacts(s.rows[id], Impostor(e))[0];
    assert Next(s, e).history[id][|s.history[id]|] == NewFacts(s.rows[id], e)[0];
    assert Next(s, Impostor(e)).history[id][|s.history[id]|] == NewFacts(s.rows[id], Impostor(e))[0];
  }

  lemma NewRowIsUnsigned(s: State, e: Event, id: Id)
    requires id !in s.rows && id in Next(s, e).rows
    ensures id in Next(s, e).history && Signings(Next(s, e).history[id]) == 0
  {
    var facts := Next(s, e).history[id];
    assert facts[..0] == [] && Signings([]) == 0;
  }

  /** Any signed row could have been signed by somebody else. */
  lemma {:induction false} Forge(events: seq<Event>, id: Id) returns (other: seq<Event>)
    requires id in Run(events).rows && id in Run(events).history && Signings(Run(events).history[id]) >= 1
    ensures Alike(Run(events), Run(other), id)
    decreases |events|
  {
    var front, e := events[..|events| - 1], events[|events| - 1];
    var s := Run(front);
    RunKeepsInv(front);
    if id !in s.rows {
      NewRowIsUnsigned(s, e, id);
      assert false;
    }
    assert RowOk(s, id);
    SigningsStep(s, e, id);
    if Answers(s, e, id) {
      ImpostorIsAlike(s, e, id);
      other := front + [Impostor(e)];
      RunAppend(front, Impostor(e));
    } else {
      other := Forge(front, id);
      AlikeStays(s, Run(other), e, id);
      RunAppend(other, e);
      other := other + [e];
    }
  }

  /** Once a second sign-off was made the first one could have been anybody's. */
  lemma {:induction false} ForgeUnseen(events: seq<Event>, id: Id) returns (other: seq<Event>)
    requires id in Run(events).rows && id in Run(events).history && Signings(Run(events).history[id]) >= 2
    ensures Alike(Run(events), Run(other), id) && Run(other).rows == Run(events).rows
    decreases |events|
  {
    var front, e := events[..|events| - 1], events[|events| - 1];
    var s := Run(front);
    RunKeepsInv(front);
    if id !in s.rows {
      NewRowIsUnsigned(s, e, id);
      assert false;
    }
    assert RowOk(s, id);
    SigningsStep(s, e, id);
    if Answers(s, e, id) {
      other := Forge(front, id);
    } else {
      other := ForgeUnseen(front, id);
      AlikeAnswers(s, Run(other), e, id);
    }
    AlikeStays(s, Run(other), e, id);
    RunAppend(other, e);
    other := other + [e];
  }

  /** Row and trail determine who signed exactly as long as only one sign-off was made:
      after the second, a history with another first signer leaves the same record. */
  lemma {:induction false} SignersAreDeterminedExactlyByOneSigning(events: seq<Event>, id: Id)
    requires id in Run(events).rows
    ensures id in Run(events).history
    ensures Determined(events, id) <==> Signings(Run(events).history[id]) <= 1
  {
    RunKeepsInv(events);
    var s := Run(events);
    assert RowOk(s, id);
    if Signings(s.history[id]) >= 2 {
      var other := ForgeUnseen(events, id);
      assert SameRecord(events, other, id);
    } else {
      forall other | SameRecord(events, other, id)
        ensures Run(other).history[id] == s.history[id]
      {
        RunKeepsInv(other);
        assert RowOk(Run(other), id);
        SigningsIgnoreNames(s.history[id], None);
        SigningsIgnoreNames(Run(other).history[id], None);
        OneSigningIsTold(s.history[id], s.rows[id], AuditOf(s.audit, id));
        OneSigningIsTold(Run(other).history[id], s.rows[id], AuditOf(s.audit, id));
      }
    }
  }

  /** A day confirmed by `a`, reopened, and confirmed by 9. */
  function ConfirmedTwice(a: Employee): seq<Event> {
    [Declare(1, 5, 5, 100, None)] + [Confirm(a, 0, 100, 7)] + [Reopen(9, 0, "r")] + [Confirm(9, 0, 100, 8)]
  }

  /** Its record is the same whoever `a` was, although the histories differ. */
  lemma TwoSignersOneRecord(a: Employee, b: Employee)
    ensures Run(ConfirmedTwice(a)).rows == Run(ConfirmedTwice(b)).rows
    ensures Run(ConfirmedTwice(a)).audit == Run(ConfirmedTwice(b)).audit
    ensures Run(ConfirmedTwice(a)).history == Run(ConfirmedTwice(b)).history <==> a == b
  {
    ConfirmedTwiceRuns(a);
    ConfirmedTwiceRuns(b);
    assert TwiceState(3, a).history[0][1] == SignedOff(Some(a), ConfirmedAs(Some(100)));
    assert TwiceState(3, b).history[0][1] == SignedOff(Some(b), ConfirmedAs(Some(100)));
  }

  lemma Follow(events: seq<Event>, s: State, e: Event, s': State)
    requires Run(events) == s && Next(s, e) == s'
    ensures Run(events + [e]) == s'
  {
    RunAppend(events, e);
  }

  /** The one row of `ConfirmedTwice`, after each of its events. */
  function TwiceRow(step: nat, a: Employee): Row {
    match step
    case 0 => Declared(1, 5, 100, None)
    case 1 => Row(1, 5, 100, None, Confirmed, Some(100), None, Some(a), Some(7), None, 2)
    case 2 => Row(1, 5, 100, None, Submitted, None, None, Some(a), None, Some("r"), 3)
    case _ => Row(1, 5, 100, None, Confirmed, Some(100), None, Some(9), Some(8), Some("r"), 4)
  }

  function TwiceFacts(a: Employee): seq<Fact> {
    [DeclaredAs(1, 100), SignedOff(Some(a), ConfirmedAs(Some(100))), Undone(9, "r"),
     SignedOff(Some(9), ConfirmedAs(Some(100)))]
  }

  function TwiceState(step: nat, a: Employee): State
    requires step < 4
  {
    State(map[0 := TwiceRow(step, a)], if step < 2 then [] else [Reopened(0, 9, Confirmed, Some(100), None, "r")], 1,
          map[0 := TwiceFacts(a)[..step + 1]])
  }

  lemma TwiceSteps(a: Employee)
    ensures Next(INIT, Declare(1, 5, 5, 100, None)) == TwiceState(0, a)
    ensures Next(TwiceState(0, a), Confirm(a, 0, 100, 7)) == TwiceState(1, a)
    ensures Next(TwiceState(1, a), Reopen(9, 0, "r")) == TwiceState(2, a)
    ensures Next(TwiceState(2, a), Confirm(9, 0, 100, 8)) == TwiceState(3, a)
  {
    var facts := TwiceFacts(a);
    assert facts[..1] == [facts[0]];
    assert facts[..1] + [facts[1]] == facts[..2];
    assert facts[..2] + [facts[2]] == facts[..3];
    assert facts[..3] + [facts[3]] == facts[..4];
  }

  lemma ConfirmedTwiceRuns(a: Employee)
    ensures Run(ConfirmedTwice(a)) == TwiceState(3, a)
  {
    var e1, e2, e3, e4 := Declare(1, 5, 5, 100, None), Confirm(a, 0, 100, 7), Reopen(9, 0, "r"), Confirm(9, 0, 100, 8);
    TwiceSteps(a);
    Follow([], INIT, e1, TwiceState(0, a));
    assert [] + [e1] == [e1];
    Follow([e1], TwiceState(0, a), e2, TwiceState(1, a));
    Follow([e1] + [e2], TwiceState(1, a), e3, TwiceState(2, a));
    Follow([e1] + [e2] + [e3], TwiceState(2, a), e4, TwiceState(3, a));
  }

  /** After any history an amount moves only while it is submitted, by its own employee,
      on a fresh copy. */
  lemma {:induction false} AmountsMoveOnlyWhileOpen(events: seq<Event>, e: Event, id: Id)
    requires id in Run(events).rows
    ensures id in Next(Run(events), e).rows
    ensures var s := Run(events);
            Next(s, e).rows[id].declared != s.rows[id].declared ==>
              && e.Amend? && e.id == id && s.rows[id].status.Submitted?
              && e.actor == s.rows[id].employee && e.ifMatch == s.rows[id].version
  {
    RunKeepsInv(events);
    assert RowOk(Run(events), id);
  }

  function RunFrom(s: State, events: seq<Event>): State
    decreases |events|
  {
    if events == [] then s else RunFrom(Next(s, events[0]), events[1..])
  }

  lemma {:induction false} VersionsOnlyGrow(s: State, events: seq<Event>, id: Id)
    requires Inv(s) && id in s.rows
    ensures id in RunFrom(s, events).rows && s.rows[id].version <= RunFrom(s, events).rows[id].version
    decreases |events|
  {
    if events == [] {
    } else {
      assert RowOk(s, id);
      NextKeepsInv(s, events[0]);
      VersionsOnlyGrow(Next(s, events[0]), events[1..], id);
    }
  }

  /** Once any action on a row was accepted, a copy taken before it can never be saved
      over it, however much happens in between. */
  lemma {:induction false} StaleCopiesAreRefused(before: seq<Event>, e: Event, between: seq<Event>, stale: Event)
    requires !e.Declare? && AnswerTo(Run(before), e).Done?
    requires stale.Amend? && stale.id == e.id && stale.ifMatch <= Run(before).rows[e.id].version
    ensures !AnswerTo(RunFrom(Next(Run(before), e), between), stale).Done?
  {
    RunKeepsInv(before);
    NextKeepsInv(Run(before), e);
    VersionsOnlyGrow(Next(Run(before), e), between, e.id);
  }

  // ----- what every action answers and stores -----

  /** The day has a declaration of this employee. */
  ghost predicate HasDay(s: State, employee: Employee, day: int) {
    exists id :: id in s.rows && s.rows[id].employee == employee && s.rows[id].day == day
  }

  /** A declaration is accepted exactly for today and the seven days before it, once per
      employee and day, and is stored open, unsigned, at version one, under a new id. */
  lemma {:induction false} DeclareIsDecided(events: seq<Event>, employee: Employee, day: int, today: int, amount: int,
      note: Option<string>)
    ensures var s := Run(events); var e := Declare(employee, day, today, amount, note);
            var s', answer := Next(s, e), AnswerTo(s, e);
            && (answer == Validation <==> !(today - 7 <= day <= today))
            && (answer == DuplicateEntity <==> today - 7 <= day <= today && HasDay(s, employee, day))
            && (answer.Done? <==> today - 7 <= day <= today && !HasDay(s, employee, day))
            && (!answer.Done? ==> s' == s)
            && (answer.Done? ==>
                  answer.id !in s.rows && s'.audit == s.audit
                  && s'.rows == s.rows[answer.id :=
                       Row(employee, day, amount, note, Submitted, None, None, None, None, None, 1)])
  {
    RunKeepsInv(events);
    NextIsFresh(Run(events));
  }

  /** An amendment is refused for a missing row, for a row of somebody else, once the owner
      has answered, and from a copy of another version, in this order; accepted, it stores
      what was sent and keeps the rest, and files the amount it replaced. */
  lemma AmendIsDecided(s: State, actor: Employee, id: Id, ifMatch: nat, amount: Option<int>, note: Option<string>)
    ensures var e := Amend(actor, id, ifMatch, amount, note); var s', answer := Next(s, e), AnswerTo(s, e);
            if id !in s.rows then answer == NotFound && s' == s
            else
              var row := s.rows[id];
              && (row.employee != actor ==> answer == OutOfScope && s' == s)
              && (row.employee == actor && row.status != Submitted ==> answer == ReconciliationConfirmed && s' == s)
              && (row.employee == actor && row.status == Submitted && row.version != ifMatch ==>
                    answer == VersionConflict && s' == s)
              && (row.employee == actor && row.status == Submitted && row.version == ifMatch ==>
                    && answer == Done(id) && id in s'.rows && s'.rows == s.rows[id := s'.rows[id]]
                    && (amount.Some? ==> s'.rows[id].declared == amount.value)
                    && (amount.None? ==> s'.rows[id].declared == row.declared)
                    && (note.Some? ==> s'.rows[id].note == note) && (note.None? ==> s'.rows[id].note == row.note)
                    && s'.rows[id].version == row.version + 1
                    && s'.rows[id] == row.(declared := s'.rows[id].declared, note := s'.rows[id].note,
                                           version := s'.rows[id].version)
                    && s'.audit == s.audit + [Amended(id, actor, row.declared, amount)])
  {
  }

  /** The owner answers a submitted day and no other: a confirmation stores his figure, a
      dispute his note, both his name and the time; the declaration itself stands. */
  lemma AnswerIsDecided(s: State, actor: Employee, id: Id, confirmed: int, ownerNote: string, now: int)
    ensures var confirm, dispute := Confirm(actor, id, confirmed, now), Dispute(actor, id, ownerNote, now);
            if id !in s.rows then
              AnswerTo(s, confirm) == AnswerTo(s, dispute) == NotFound && Next(s, confirm) == Next(s, dispute) == s
            else if s.rows[id].status != Submitted then
              AnswerTo(s, confirm) == AnswerTo(s, dispute) == IllegalTransition
              && Next(s, confirm) == Next(s, dispute) == s
            else
              var row := s.rows[id];
              var signed := row.(confirmedBy := Some(actor), confirmedAt := Some(now), version := row.version + 1);
              && AnswerTo(s, confirm) == AnswerTo(s, dispute) == Done(id)
              && Next(s, confirm).rows ==
                 s.rows[id := signed.(status := Confirmed, confirmedAmount := Some(confirmed))]
              && Next(s, dispute).rows ==
                 s.rows[id := signed.(status := Disputed, ownerNote := Some(ownerNote))]
              && Next(s, confirm).audit == Next(s, dispute).audit == s.audit
  {
  }

  /** A reopen is accepted for an answered day and no other; the figures of the sign-off
      leave the row and go to the audit trail, the reason to both, and the declaration and
      the name of the last signer stay. */
  lemma ReopenIsDecided(s: State, actor: Employee, id: Id, reason: string)
    ensures var e := Reopen(actor, id, reason); var s', answer := Next(s, e), AnswerTo(s, e);
            if id !in s.rows then answer == NotFound && s' == s
            else if s.rows[id].status == Submitted then answer == IllegalTransition && s' == s
            else
              var row := s.rows[id];
              && answer == Done(id)
              && s'.rows == s.rows[id := Row(row.employee, row.day, row.declared, row.note, Submitted, None, None,
                                             row.confirmedBy, None, Some(reason), row.version + 1)]
              && s'.audit == s.audit + [Reopened(id, actor, row.status, row.confirmedAmount, row.ownerNote, reason)]
  {
  }

  /** The fact an accepted action adds, told from the row it leaves. */
  function FactOf(row: Row, e: Event): Fact {
    match e
    case Declare(employee, _, _, amount, _) => DeclaredAs(employee, amount)
    case Amend(actor, _, _, _, _) => AmendedTo(actor, row.declared)
    case Confirm(actor, _, confirmed, _) => SignedOff(Some(actor), ConfirmedAs(Some(confirmed)))
    case Dispute(actor, _, ownerNote, _) => SignedOff(Some(actor), DisputedFor(Some(ownerNote)))
    case Reopen(actor, _, reason) => Undone(actor, reason)
  }

  /** What really happened is recorded action by action, and nothing that was recorded is
      ever changed. */
  lemma {:induction false} HistoryIsDecided(events: seq<Event>, e: Event, id: Id)
    ensures var s, s' := Run(events), Next(Run(events), e);
            && (id in s'.history <==> id in s.history || AnswerTo(s, e) == Done(id))
            && (AnswerTo(s, e) == Done(id) ==> id in s'.rows && (id in s.history <==> !e.Declare?))
            && (AnswerTo(s, e) == Done(id) ==>
                  s'.history[id] == (if id in s.history then s.history[id] else []) + [FactOf(s'.rows[id], e)])
            && (AnswerTo(s, e) != Done(id) && id in s.history ==> s'.history[id] == s.history[id])
  {
    RunKeepsInv(events);
    HistoryBelow(events, id);
    assert id in Run(events).rows ==> RowOk(Run(events), id);
  }

  lemma {:induction false} HistoryBelow(events: seq<Event>, id: Id)
    ensures id in Run(events).history ==> id < Run(events).next
    decreases |events|
  {
    if events != [] {
      HistoryBelow(events[..|events| - 1], id);
      RunKeepsInv(events[..|events| - 1]);
      var s, e := Run(events[..|events| - 1]), events[|events| - 1];
      if !e.Declare? && AnswerTo(s, e).Done? {
        assert RowOk(s, e.id);
      }
    }
  }

  // ----- the service in its own form -----

  class CashDesk {
    var rows: map<Id, Row>
    var audit: seq<Audit>
    var next: Id
    ghost var history: map<Id, seq<Fact>>

    ghost function View(): State
      reads this
    {
      State(rows, audit, next, history)
    }

    constructor ()
      ensures View() == INIT
    {
      rows, audit, next, history := map[], [], 0, map[];
    }

    method DeclareCash(employee: Employee, day: int, today: int, amount: int, note: Option<string>) returns (r: Answer)
      modifies this
      ensures r == AnswerTo(old(View()), Declare(employee, day, today, amount, note))
      ensures View() == Next(old(View()), Declare(employee, day, today, amount, note))
    {
      if day > today || day < today - OLDEST_DAYS {
        return Validation;
      }
      if exists i :: i in rows && rows[i].employee == employee && rows[i].day == day {
        return DuplicateEntity;
      }
      rows := rows[next := Row(employee, day, amount, note, Submitted, None, None, None, None, None, 1)];
      history := history[next := [DeclaredAs(employee, amount)]];
      next := next + 1;
      return Done(next - 1);
    }

    /** UPDATE ... WHERE id, with the version the touch trigger stamps. */
    method Update(id: Id, row: Row, ghost e: Event)
      requires id in rows && !e.Declare?
      modifies this`rows, this`history
      ensures rows == old(rows)[id := row.(version := old(rows)[id].version + 1)]
      ensures var past := if id in old(history) then old(history)[id] else [];
              history == old(history)[id := past + NewFacts(old(rows)[id], e)]
    {
      history := history[id := (if id in history then history[id] else []) + NewFacts(rows[id], e)];
      rows := rows[id := row.(version := rows[id].version + 1)];
    }

    method AmendCash(actor: Employee, id: Id, ifMatch: nat, amount: Option<int>, note: Option<string>)
      returns (r: Answer)
      modifies this
      ensures r == AnswerTo(old(View()), Amend(actor, id, ifMatch, amount, note))
      ensures View() == Next(old(View()), Amend(actor, id, ifMatch, amount, note))
    {
      if id !in rows { return NotFound; }
      var row := rows[id];
      if row.employee != actor { return OutOfScope; }
      if row.status != Submitted { return ReconciliationConfirmed; }
      if row.version != ifMatch { return VersionConflict; }
      var patched := row;
      if amount.Some? {
        patched := patched.(declared := amount.value);
      }
      if note.Some? {
        patched := patched.(note := note);
      }
      Update(id, patched, Amend(actor, id, ifMatch, amount, note));
      audit := audit + [Amended(id, actor, row.declared, amount)];
      return Done(id);
    }

    method ConfirmCash(actor: Employee, id: Id, confirmed: int, now: int) returns (r: Answer)
      modifies this
      ensures r == AnswerTo(old(View()), Confirm(actor, id, confirmed, now))
      ensures View() == Next(old(View()), Confirm(actor, id, confirmed, now))
    {
      if id !in rows { return NotFound; }
      var row := rows[id];
      if row.status != Submitted { return IllegalTransition; }
      Update(id, row.(status := Confirmed, confirmedAmount := Some(confirmed), confirmedBy := Some(actor),
          confirmedAt := Some(now)),
             Confirm(actor, id, confirmed, now));
      assert audit + [] == audit;
      return Done(id);
    }

    method DisputeCash(actor: Employee, id: Id, ownerNote: string, now: int) returns (r: Answer)
      modifies this
      ensures r == AnswerTo(old(View()), Dispute(actor, id, ownerNote, now))
      ensures View() == Next(old(View()), Dispute(actor, id, ownerNote, now))
    {
      if id !in rows { return NotFound; }
      var row := rows[id];
      if row.status != Submitted { return IllegalTransition; }
      Update(id, row.(status := Disputed, ownerNote := Some(ownerNote), confirmedBy := Some(actor),
          confirmedAt := Some(now)),
             Dispute(actor, id, ownerNote, now));
      assert audit + [] == audit;
      return Done(id);
    }

    method ReopenCash(actor: Employee, id: Id, reason: string) returns (r: Answer)
      modifies this
      ensures r == AnswerTo(old(View()), Reopen(actor, id, reason))
      ensures View() == Next(old(View()), Reopen(actor, id, reason))
    {
      if id !in rows { return NotFound; }
      var row := rows[id];
      if row.status == Submitted { return IllegalTransition; }
      Update(id, row.(status := Submitted, confirmedAmount := None, confirmedAt := None, ownerNote := None,
          reopenReason := Some(reason)),
             Reopen(actor, id, reason));
      audit := audit + [Reopened(id, actor, row.status, row.confirmedAmount, row.ownerNote, reason)];
      return Done(id);
    }
  }
}

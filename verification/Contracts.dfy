/**
 * The AMC overlap protocol: apps/api/src/modules/contracts/service.ts over
 * apps/api/src/modules/contracts/repo.ts.  Locking, checking, writing and committing are
 * separate steps of any number of interleaved transactions; uncommitted rows are
 * visible to nobody else, and locks fall with their transaction.
 */
module Contracts {
  import opened Prelude

  type Id = nat
  type Customer = nat
  type TxId = nat

  /** Dates are day numbers; a term includes both its ends. */
  datatype Term = Term(start: int, end: int)

  datatype Contract = Contract(customer: Customer, term: Term, cancelled: bool, version: nat)

  datatype Job =
    | Create(customer: Customer, wanted: Term)
    | Patch(id: Id, ifMatch: nat, startDate: Option<int>, endDate: Option<int>)
    | Cancel(id: Id)

  datatype Outcome =
    | Committed | NotFound | VersionConflict | IllegalTransition | Invalid | Duplicate | LostRace | Crashed

  datatype Stage = Begun | ContractLocked | CustomerLocked | Checked | Numbered | Written | Ended(outcome: Outcome)

  datatype Tx = Tx(
    job: Job,
    stage: Stage,
    contract: Option<Id>,
    customer: Option<Customer>,
    number: bool,
    term: Term,
    pending: Option<(Id, Contract)>)

  datatype State = State(contracts: map<Id, Contract>, customers: map<Customer, bool>, txs: map<TxId, Tx>, next: Id)

  predicate Ordered(t: Term) { t.start <= t.end }

  /** `daterange(a, b, '[]') && daterange(c, d, '[]')`. */
  predicate Overlap(a: Term, b: Term) {
    a.start <= b.end && b.start <= a.end
  }

  predicate MovesDates(job: Job) {
    job.Create? || (job.Patch? && (job.startDate.Some? || job.endDate.Some?))
  }

  // ----- locks -----

  predicate ContractFree(s: State, id: Id) {
    forall t :: t in s.txs ==> s.txs[t].contract != Some(id)
  }

  predicate CustomerFree(s: State, c: Customer) {
    forall t :: t in s.txs ==> s.txs[t].customer != Some(c)
  }

  predicate NumberFree(s: State) {
    forall t :: t in s.txs ==> !s.txs[t].number
  }

  /** COMMIT or ROLLBACK: every lock goes. */
  function Close(tx: Tx, outcome: Outcome): Tx {
    tx.(stage := Ended(outcome), contract := None, customer := None, number := false, pending := None)
  }

  function Put(s: State, t: TxId, tx: Tx): State {
    s.(txs := s.txs[t := tx])
  }

  predicate At(s: State, t: TxId, stage: Stage) {
    t in s.txs && s.txs[t].stage == stage
  }

  // ----- the statements -----

  function DoBegin(s: State, t: TxId, job: Job): State {
    if t in s.txs then s
    else Put(s, t, Tx(job, Begun, None, None, false, if job.Create? then job.wanted else Term(0, 0), None))
  }

  /** lockContract and the checks made on the locked row. */
  function DoLockContract(s: State, t: TxId): State {
    if !At(s, t, Begun) || s.txs[t].job.Create? || !ContractFree(s, s.txs[t].job.id) then s
    else
      var tx := s.txs[t];
      var id := tx.job.id;
      if id !in s.contracts then Put(s, t, Close(tx, NotFound))
      else
        var row := s.contracts[id];
        if tx.job.Patch? && row.version != tx.job.ifMatch then Put(s, t, Close(tx, VersionConflict))
        else if row.cancelled then Put(s, t, Close(tx, IllegalTransition))
        else
          var term := if tx.job.Cancel? then row.term else
                        Term(if tx.job.startDate.Some? then tx.job.startDate.value else row.term.start,
                             if tx.job.endDate.Some? then tx.job.endDate.value else row.term.end);
          if !Ordered(term) then Put(s, t, Close(tx, Invalid))
          else
            var stage := if MovesDates(tx.job) then ContractLocked else Checked;
            Put(s, t, tx.(stage := stage, contract := Some(id), term := term))
  }

  /** The customer a transaction locks; a patch takes it from the locked contract. */
  function CustomerOf(s: State, tx: Tx): Option<Customer> {
    if tx.job.Create? then Some(tx.job.customer)
    else if tx.job.id in s.contracts then Some(s.contracts[tx.job.id].customer)
    else None
  }

  predicate WantsCustomer(tx: Tx) {
    (tx.job.Create? && tx.stage.Begun?) || (tx.job.Patch? && tx.stage.ContractLocked?)
  }

  function DoLockCustomer(s: State, t: TxId): State {
    if t !in s.txs || !WantsCustomer(s.txs[t]) then s
    else
      var tx := s.txs[t];
      var c := CustomerOf(s, tx);
      if c.None? || !CustomerFree(s, c.value) then s
      else if tx.job.Create? && (c.value !in s.customers || !s.customers[c.value]) then Put(s, t, Close(tx, Invalid))
      else Put(s, t, tx.(stage := CustomerLocked, customer := c))
  }

  /** An uncancelled committed term of this customer, other than `exclude`, that meets `term`. */
  predicate Collides(s: State, c: Customer, term: Term, exclude: Option<Id>, id: Id) {
    && id in s.contracts && exclude != Some(id)
    && s.contracts[id].customer == c && !s.contracts[id].cancelled && Overlap(s.contracts[id].term, term)
  }

  predicate Clear(s: State, c: Customer, term: Term, exclude: Option<Id>) {
    forall id :: id in s.contracts ==> !Collides(s, c, term, exclude, id)
  }

  /** findOverlapping; a range whose ends are the wrong way round is a database error. */
  function DoCheck(s: State, t: TxId): State {
    if !At(s, t, CustomerLocked) || s.txs[t].customer.None? then s
    else
      var tx := s.txs[t];
      if !Ordered(tx.term) then Put(s, t, Close(tx, Invalid))
      else if !Clear(s, tx.customer.value, tx.term, tx.contract) then Put(s, t, Close(tx, Duplicate))
      else Put(s, t, tx.(stage := Checked))
  }

  /** allocateNumber locks the sequence row of the fiscal year until COMMIT. */
  function DoAllocate(s: State, t: TxId): State {
    if !At(s, t, Checked) || !s.txs[t].job.Create? || !NumberFree(s) then s
    else Put(s, t, s.txs[t].(stage := Numbered, number := true))
  }

  predicate ReadyToWrite(tx: Tx) {
    if tx.job.Create? then tx.stage.Numbered? else tx.stage.Checked?
  }

  /** The row a transaction is about to write. */
  function NewRow(s: State, tx: Tx): Option<(Id, Contract)> {
    match tx.job
    case Create(c, term) => Some((s.next, Contract(c, term, false, 1)))
    case Patch(id, _, _, _) =>
      if id in s.contracts then Some((id, s.contracts[id].(term := tx.term, version := s.contracts[id].version + 1)))
      else None
    case Cancel(id) =>
      if id in s.contracts then Some((id, s.contracts[id].(cancelled := true, version := s.contracts[id].version + 1)))
      else None
  }

  /** The exclusion constraint sees committed rows and every other transaction's new rows. */
  predicate Excluded(s: State, t: TxId, id: Id, row: Contract) {
    !row.cancelled &&
    (!Clear(s, row.customer, row.term, Some(id))
     || exists u :: u in s.txs && u != t && s.txs[u].pending.Some?
          && s.txs[u].pending.value.0 != id && s.txs[u].pending.value.1.customer == row.customer
          && !s.txs[u].pending.value.1.cancelled && Overlap(s.txs[u].pending.value.1.term, row.term))
  }

  /** INSERT or UPDATE, refused by the exclusion constraint if it must be. */
  function DoWrite(s: State, t: TxId): State {
    if t !in s.txs || !ReadyToWrite(s.txs[t]) || NewRow(s, s.txs[t]).None? then s
    else
      var tx := s.txs[t];
      var w := NewRow(s, tx).value;
      if Excluded(s, t, w.0, w.1) then Put(s, t, Close(tx, LostRace))
      else Put(s, t, tx.(stage := Written, pending := Some(w))).(next := if tx.job.Create? then s.next + 1 else s.next)
  }

  function DoCommit(s: State, t: TxId): State {
    if !At(s, t, Written) || s.txs[t].pending.None? then s
    else
      var tx := s.txs[t];
      Put(s, t, Close(tx, Committed)).(contracts := s.contracts[tx.pending.value.0 := tx.pending.value.1])
  }

  function DoCrash(s: State, t: TxId): State {
    if t !in s.txs || s.txs[t].stage.Ended? then s else Put(s, t, Close(s.txs[t], Crashed))
  }

  datatype Event =
    | Begin(t: TxId, job: Job)
    | LockContract(t: TxId)
    | LockCustomer(t: TxId)
    | Check(t: TxId)
    | Allocate(t: TxId)
    | WriteRow(t: TxId)
    | Commit(t: TxId)
    | Crash(t: TxId)
    | AddCustomer(c: Customer, active: bool)

  function Next(s: State, e: Event): State {
    match e
    case Begin(t, job) => DoBegin(s, t, job)
    case LockContract(t) => DoLockContract(s, t)
    case LockCustomer(t) => DoLockCustomer(s, t)
    case Check(t) => DoCheck(s, t)
    case Allocate(t) => DoAllocate(s, t)
    case WriteRow(t) => DoWrite(s, t)
    case Commit(t) => DoCommit(s, t)
    case Crash(t) => DoCrash(s, t)
    case AddCustomer(c, active) => s.(customers := s.customers[c := active])
  }

  const INIT := State(map[], map[], map[], 0)

  function Run(s: State, events: seq<Event>): State
    decreases |events|
  {
    if events == [] then s else Next(Run(s, events[..|events| - 1]), events[|events| - 1])
  }

  // ----- the invariant -----

  /** Uncancelled terms of one customer are pairwise disjoint. */
  ghost predicate Disjoint(contracts: map<Id, Contract>) {
    forall i, j :: i in contracts && j in contracts && i != j ==> Apart(contracts[i], contracts[j])
  }

  predicate Apart(a: Contract, b: Contract) {
    a.customer == b.customer && !a.cancelled && !b.cancelled ==> !Overlap(a.term, b.term)
  }

  /** What one transaction holds and knows at its stage. */
  ghost predicate TxOk(s: State, tx: Tx) {
    && (tx.stage.Ended? || tx.stage.Begun? ==> tx.contract.None? && tx.customer.None? && !tx.number && tx.pending.None?)
    && (tx.stage.Ended? ==> !tx.stage.outcome.LostRace?)
    && (tx.number <==> tx.job.Create? && (tx.stage.Numbered? || tx.stage.Written?))
    && (tx.stage.Numbered? ==> tx.job.Create?)
    && (tx.stage.ContractLocked? || tx.stage.CustomerLocked? ==> MovesDates(tx.job))
    && (tx.stage.ContractLocked? ==> tx.customer.None?)
    && (tx.job.Create? ==> tx.contract.None? && tx.term == tx.job.wanted && !tx.stage.ContractLocked?)
    && (!tx.job.Create? && !tx.stage.Begun? && !tx.stage.Ended? ==>
          && tx.contract == Some(tx.job.id) && tx.job.id in s.contracts && !s.contracts[tx.job.id].cancelled
              && Ordered(tx.term))
    && (tx.customer.Some? ==> tx.customer == CustomerOf(s, tx) && MovesDates(tx.job))
    && (MovesDates(tx.job) && (tx.stage.CustomerLocked? || Decided(tx)) ==> tx.customer.Some?)
    && (MovesDates(tx.job) && Decided(tx) ==> Ordered(tx.term) && Clear(s, tx.customer.value, tx.term, tx.contract))
    && (!MovesDates(tx.job) && !tx.stage.Begun? && !tx.stage.Ended? ==> tx.term == s.contracts[tx.job.id].term)
    && (tx.stage.Written? <==> tx.pending.Some?)
    && (tx.pending.Some? ==> PendingOk(s, tx))
  }

  predicate Decided(tx: Tx) {
    tx.stage.Checked? || tx.stage.Numbered? || tx.stage.Written?
  }

  ghost predicate PendingOk(s: State, tx: Tx)
    requires tx.pending.Some?
  {
    var (id, row) := tx.pending.value;
    && (tx.job.Create? ==> id < s.next && id !in s.contracts && row == Contract(tx.job.customer, tx.term, false, 1))
    && (!tx.job.Create? ==>
          id == tx.job.id && id in s.contracts && row.customer == s.contracts[id].customer && row.term == tx.term)
    && (tx.job.Patch? ==> !row.cancelled)
    && (tx.job.Cancel? ==> row.cancelled)
  }

  /** A lock has one holder, and no two transactions insert the same row. */
  ghost predicate Exclusive(s: State) {
    forall t, u :: t in s.txs && u in s.txs && t != u ==>
      && (s.txs[t].contract.Some? ==> s.txs[t].contract != s.txs[u].contract)
      && (s.txs[t].customer.Some? ==> s.txs[t].customer != s.txs[u].customer)
      && !(s.txs[t].number && s.txs[u].number)
      && (s.txs[t].pending.Some? && s.txs[u].pending.Some? ==> s.txs[t].pending.value.0 != s.txs[u].pending.value.0)
  }

  ghost predicate Inv(s: State) {
    && (forall id :: id in s.contracts ==> id < s.next && Ordered(s.contracts[id].term))
    && Disjoint(s.contracts)
    && (forall t {:trigger TxOk(s, s.txs[t])} :: t in s.txs ==> TxOk(s, s.txs[t]))
    && Exclusive(s)
  }

  // ----- every event keeps it -----

  /** The locks and the new row `tx` would have are nobody else's. */
  ghost predicate Alone(s: State, t: TxId, tx: Tx) {
    forall u :: u in s.txs && u != t ==>
      && (tx.contract.Some? ==> s.txs[u].contract != tx.contract)
      && (tx.customer.Some? ==> s.txs[u].customer != tx.customer)
      && !(tx.number && s.txs[u].number)
      && (tx.pending.Some? && s.txs[u].pending.Some? ==> s.txs[u].pending.value.0 != tx.pending.value.0)
  }

  /** The frame: a step that commits nothing concerns only its own transaction. */
  lemma StepKeepsInv(s: State, s': State, t: TxId)
    requires Inv(s) && t in s'.txs && s'.txs == s.txs[t := s'.txs[t]]
    requires s'.contracts == s.contracts && s.next <= s'.next
    requires TxOk(s', s'.txs[t]) && Alone(s, t, s'.txs[t])
    ensures Inv(s')
  {
    forall u | u in s'.txs
      ensures TxOk(s', s'.txs[u])
    {
      if u != t {
        assert TxOk(s, s.txs[u]);
        SameContracts(s, s', s.txs[u]);
      }
    }
  }

  lemma SameContracts(s: State, s': State, tx: Tx)
    requires s'.contracts == s.contracts && s.next <= s'.next && TxOk(s, tx)
    ensures TxOk(s', tx)
  {
    assert forall c, term, x, id :: Collides(s', c, term, x, id) == Collides(s, c, term, x, id);
  }

  lemma BeginKeepsInv(s: State, t: TxId, job: Job)
    requires Inv(s)
    ensures Inv(DoBegin(s, t, job))
  {
    if t !in s.txs {
      StepKeepsInv(s, DoBegin(s, t, job), t);
    }
  }

  lemma LockContractKeepsInv(s: State, t: TxId)
    requires Inv(s)
    ensures Inv(DoLockContract(s, t))
  {
    var s' := DoLockContract(s, t);
    if s' != s {
      LockedRowIsOk(s, t);
      StepKeepsInv(s, s', t);
    }
  }

  lemma LockedRowIsOk(s: State, t: TxId)
    requires Inv(s) && DoLockContract(s, t) != s
    ensures var s' := DoLockContract(s, t);
            && t in s.txs && t in s'.txs && s' == s.(txs := s.txs[t := s'.txs[t]])
            && TxOk(s', s'.txs[t]) && Alone(s, t, s'.txs[t])
  {
    assert TxOk(s, s.txs[t]);
  }

  lemma LockCustomerKeepsInv(s: State, t: TxId)
    requires Inv(s)
    ensures Inv(DoLockCustomer(s, t))
  {
    var s' := DoLockCustomer(s, t);
    if s' != s {
      assert TxOk(s, s.txs[t]);
      OthersHold(s, t);
      StepKeepsInv(s, s', t);
    }
  }

  lemma OthersHold(s: State, t: TxId)
    requires Exclusive(s) && t in s.txs
    ensures Alone(s, t, s.txs[t])
  {
  }

  lemma CheckKeepsInv(s: State, t: TxId)
    requires Inv(s)
    ensures Inv(DoCheck(s, t))
  {
    var s' := DoCheck(s, t);
    if s' != s {
      assert TxOk(s, s.txs[t]);
      OthersHold(s, t);
      assert forall c, term, x, id :: Collides(s', c, term, x, id) == Collides(s, c, term, x, id);
      StepKeepsInv(s, s', t);
    }
  }

  lemma AllocateKeepsInv(s: State, t: TxId)
    requires Inv(s)
    ensures Inv(DoAllocate(s, t))
  {
    var s' := DoAllocate(s, t);
    if s' != s {
      assert TxOk(s, s.txs[t]);
      OthersHold(s, t);
      assert forall c, term, x, id :: Collides(s', c, term, x, id) == Collides(s, c, term, x, id);
      StepKeepsInv(s, s', t);
    }
  }

  /** The term about to be written meets no committed term. */
  lemma NewTermIsClear(s: State, t: TxId)
    requires Inv(s) && t in s.txs && ReadyToWrite(s.txs[t]) && NewRow(s, s.txs[t]).Some?
    ensures var w := NewRow(s, s.txs[t]).value;
            !w.1.cancelled ==> Clear(s, w.1.customer, w.1.term, Some(w.0))
  {
    var tx := s.txs[t];
    var w := NewRow(s, tx).value;
    assert TxOk(s, tx);
    if !w.1.cancelled {
      forall id | id in s.contracts
        ensures !Collides(s, w.1.customer, w.1.term, Some(w.0), id)
      {
        if MovesDates(tx.job) {
          assert !Collides(s, tx.customer.value, tx.term, tx.contract, id);
        } else {
          assert id == w.0 || Apart(s.contracts[id], s.contracts[w.0]);
        }
      }
    }
  }

  /** Nor does it meet the new row of another transaction: both would hold the customer. */
  lemma NewTermMeetsNoPending(s: State, t: TxId, u: TxId)
    requires Inv(s) && t in s.txs && ReadyToWrite(s.txs[t]) && NewRow(s, s.txs[t]).Some?
    requires u in s.txs && u != t && s.txs[u].pending.Some?
    ensures var w := NewRow(s, s.txs[t]).value; var p := s.txs[u].pending.value;
            p.0 != w.0 && Apart(p.1, w.1)
  {
    var tx, ux := s.txs[t], s.txs[u];
    var w, p := NewRow(s, tx).value, ux.pending.value;
    assert TxOk(s, tx) && TxOk(s, ux);
    NewTermIsClear(s, t);
    assert MovesDates(tx.job) && MovesDates(ux.job) ==> w.1.customer != p.1.customer;
    if p.1.customer == w.1.customer && !p.1.cancelled && !w.1.cancelled {
      if MovesDates(tx.job) {
        assert !Collides(s, w.1.customer, w.1.term, Some(w.0), p.0);
      } else if MovesDates(ux.job) {
        assert !Collides(s, ux.customer.value, ux.term, ux.contract, w.0);
      } else {
        assert Apart(s.contracts[p.0], s.contracts[w.0]);
      }
    }
  }

  /** The exclusion constraint never has to refuse. */
  lemma NeverExcluded(s: State, t: TxId)
    requires Inv(s) && t in s.txs && ReadyToWrite(s.txs[t]) && NewRow(s, s.txs[t]).Some?
    ensures var w := NewRow(s, s.txs[t]).value; !Excluded(s, t, w.0, w.1)
  {
    NewTermIsClear(s, t);
    forall u | u in s.txs && u != t && s.txs[u].pending.Some?
      ensures var w := NewRow(s, s.txs[t]).value; Apart(s.txs[u].pending.value.1, w.1)
    {
      NewTermMeetsNoPending(s, t, u);
    }
  }

  lemma WriteKeepsInv(s: State, t: TxId)
    requires Inv(s)
    ensures Inv(DoWrite(s, t))
  {
    var s' := DoWrite(s, t);
    if s' != s {
      assert TxOk(s, s.txs[t]);
      NeverExcluded(s, t);
      OthersHold(s, t);
      forall u | u in s.txs && u != t && s.txs[u].pending.Some?
        ensures s.txs[u].pending.value.0 != NewRow(s, s.txs[t]).value.0
      {
        NewTermMeetsNoPending(s, t, u);
      }
      assert forall c, term, x, id :: Collides(s', c, term, x, id) == Collides(s, c, term, x, id);
      StepKeepsInv(s, s', t);
    }
  }

  lemma CrashKeepsInv(s: State, t: TxId)
    requires Inv(s)
    ensures Inv(DoCrash(s, t))
  {
    if t in s.txs && !s.txs[t].stage.Ended? {
      assert TxOk(s, s.txs[t]);
      StepKeepsInv(s, DoCrash(s, t), t);
    }
  }

  /** A commit leaves what every other transaction holds and knows as it was. */
  lemma CommitLeavesOthers(s: State, t: TxId, u: TxId)
    requires Inv(s) && At(s, t, Written) && s.txs[t].pending.Some? && u in s.txs && u != t
    ensures TxOk(DoCommit(s, t), s.txs[u])
  {
    var s' := DoCommit(s, t);
    var tx, ux := s.txs[t], s.txs[u];
    var (id, row) := tx.pending.value;
    assert TxOk(s, tx) && TxOk(s, ux);
    if MovesDates(ux.job) && Decided(ux) {
      forall i | i in s'.contracts
        ensures !Collides(s', ux.customer.value, ux.term, ux.contract, i)
      {
        if i in s.contracts {
          assert !Collides(s, ux.customer.value, ux.term, ux.contract, i);
        }
      }
    }
  }

  lemma CommitStaysDisjoint(s: State, t: TxId)
    requires Inv(s) && At(s, t, Written) && s.txs[t].pending.Some?
    ensures Disjoint(DoCommit(s, t).contracts)
  {
    var tx := s.txs[t];
    var (id, row) := tx.pending.value;
    assert TxOk(s, tx);
    forall i | i in s.contracts && i != id
      ensures Apart(s.contracts[i], row) && Apart(row, s.contracts[i])
    {
      if MovesDates(tx.job) {
        assert !Collides(s, tx.customer.value, tx.term, tx.contract, i);
      } else {
        assert Apart(s.contracts[i], s.contracts[id]);
      }
    }
  }

  lemma CommitKeepsInv(s: State, t: TxId)
    requires Inv(s)
    ensures Inv(DoCommit(s, t))
  {
    var s' := DoCommit(s, t);
    if s' != s {
      assert TxOk(s, s.txs[t]);
      CommitStaysDisjoint(s, t);
      forall u | u in s'.txs
        ensures TxOk(s', s'.txs[u])
      {
        if u != t { CommitLeavesOthers(s, t, u); }
      }
      ClosingStaysExclusive(s, s', t, Committed);
    }
  }

  lemma ClosingStaysExclusive(s: State, s': State, t: TxId, outcome: Outcome)
    requires Exclusive(s) && t in s.txs && s'.txs == s.txs[t := Close(s.txs[t], outcome)]
    ensures Exclusive(s')
  {
  }

  lemma AddCustomerKeepsInv(s: State, c: Customer, active: bool)
    requires Inv(s)
    ensures Inv(s.(customers := s.customers[c := active]))
  {
    var s' := s.(customers := s.customers[c := active]);
    forall t | t in s'.txs
      ensures TxOk(s', s'.txs[t])
    {
      assert TxOk(s, s.txs[t]);
      assert forall c, term, x, id :: Collides(s', c, term, x, id) == Collides(s, c, term, x, id);
    }
  }

  lemma NextKeepsInv(s: State, e: Event)
    requires Inv(s)
    ensures Inv(Next(s, e))
  {
    match e
    case Begin(t, job) => BeginKeepsInv(s, t, job);
    case LockContract(t) => LockContractKeepsInv(s, t);
    case LockCustomer(t) => LockCustomerKeepsInv(s, t);
    case Check(t) => CheckKeepsInv(s, t);
    case Allocate(t) => AllocateKeepsInv(s, t);
    case WriteRow(t) => WriteKeepsInv(s, t);
    case Commit(t) => CommitKeepsInv(s, t);
    case Crash(t) => CrashKeepsInv(s, t);
    case AddCustomer(c, active) => AddCustomerKeepsInv(s, c, active);
  }

  lemma {:induction false} RunKeepsInv(s: State, events: seq<Event>)
    requires Inv(s)
    ensures Inv(Run(s, events))
    decreases |events|
  {
    if events == [] {
    } else {
      RunKeepsInv(s, events[..|events| - 1]);
      NextKeepsInv(Run(s, events[..|events| - 1]), events[|events| - 1]);
    }
  }

  // ----- the theorems -----

  /** In every reachable state one site has one AMC at a time. */
  lemma TermsStayDisjoint(events: seq<Event>, i: Id, j: Id)
    requires var c := Run(INIT, events).contracts; i in c && j in c && i != j
    requires var c := Run(INIT, events).contracts; c[i].customer == c[j].customer && !c[i].cancelled && !c[j].cancelled
    ensures var c := Run(INIT, events).contracts; c[i].term.end < c[j].term.start || c[j].term.end < c[i].term.start
  {
    RunKeepsInv(INIT, events);
    var c := Run(INIT, events).contracts;
    assert Apart(c[i], c[j]);
  }

  /** The exclusion constraint never wins the race the customer lock exists to prevent. */
  lemma NoTransactionLosesTheRace(events: seq<Event>, t: TxId)
    requires t in Run(INIT, events).txs
    ensures Run(INIT, events).txs[t].stage != Ended(LostRace)
  {
    RunKeepsInv(INIT, events);
    assert TxOk(Run(INIT, events), Run(INIT, events).txs[t]);
  }

  // ----- no deadlock -----

  datatype Want = Nothing | WantContract(id: Id) | WantCustomer(c: Customer) | WantNumber

  /** The lock a transaction needs next. */
  function Wants(s: State, tx: Tx): Want {
    if !tx.job.Create? && tx.stage.Begun? then WantContract(tx.job.id)
    else if WantsCustomer(tx) && CustomerOf(s, tx).Some? then WantCustomer(CustomerOf(s, tx).value)
    else if tx.job.Create? && tx.stage.Checked? then WantNumber
    else Nothing
  }

  predicate Holds(tx: Tx, w: Want) {
    match w
    case Nothing => false
    case WantContract(id) => tx.contract == Some(id)
    case WantCustomer(c) => tx.customer == Some(c)
    case WantNumber => tx.number
  }

  predicate WaitsFor(s: State, t: TxId, u: TxId) {
    t in s.txs && u in s.txs && t != u && Holds(s.txs[u], Wants(s, s.txs[t]))
  }

  /** Contract before customer before number. */
  function Rank(w: Want): nat {
    match w
    case WantContract(_) => 0
    case WantCustomer(_) => 1
    case WantNumber => 2
    case Nothing => 3
  }

  function RankOf(s: State, t: TxId): nat
    requires t in s.txs
  {
    Rank(Wants(s, s.txs[t]))
  }

  lemma WaitingClimbs(s: State, t: TxId, u: TxId)
    requires Inv(s) && WaitsFor(s, t, u)
    ensures RankOf(s, t) < RankOf(s, u)
  {
    assert TxOk(s, s.txs[t]) && TxOk(s, s.txs[u]);
  }

  /** No chain of waiting transactions is longer than four, so none closes to a circle. */
  lemma {:induction false} WaitChainsAreShort(events: seq<Event>, chain: seq<TxId>)
    requires chain != [] && forall i :: 0 <= i < |chain| ==> chain[i] in Run(INIT, events).txs
    requires forall i :: 0 <= i < |chain| - 1 ==> WaitsFor(Run(INIT, events), chain[i], chain[i + 1])
    ensures |chain| - 1 <= RankOf(Run(INIT, events), chain[|chain| - 1])
    ensures |chain| <= 4
    decreases |chain|
  {
    if |chain| > 1 {
      RunKeepsInv(INIT, events);
      WaitChainsAreShort(events, chain[..|chain| - 1]);
      WaitingClimbs(Run(INIT, events), chain[|chain| - 2], chain[|chain| - 1]);
    }
  }

  /** The next statement of a transaction that waits for nothing held by another. */
  predicate CanMove(s: State, t: TxId) {
    t in s.txs && !s.txs[t].stage.Ended?
    && exists e :: e in [LockContract(t), LockCustomer(t), Check(t), Allocate(t), WriteRow(t), Commit(t)]
        && Next(s, e).txs != s.txs
  }

  /** The statement a transaction runs next. */
  function NextStatement(t: TxId, tx: Tx): Event {
    match tx.stage
    case Begun => if tx.job.Create? then LockCustomer(t) else LockContract(t)
    case ContractLocked => LockCustomer(t)
    case CustomerLocked => Check(t)
    case Checked => if tx.job.Create? then Allocate(t) else WriteRow(t)
    case Numbered => WriteRow(t)
    case _ => Commit(t)
  }

  lemma NextStatementRuns(s: State, t: TxId)
    requires t in s.txs && !s.txs[t].stage.Ended? && TxOk(s, s.txs[t])
    requires forall u :: u in s.txs ==> !Holds(s.txs[u], Wants(s, s.txs[t]))
    ensures t in Next(s, NextStatement(t, s.txs[t])).txs
    ensures Next(s, NextStatement(t, s.txs[t])).txs[t].stage != s.txs[t].stage
  {
    var tx := s.txs[t];
    match Wants(s, tx)
    case WantContract(id) =>
      assert ContractFree(s, id) by {
        if u :| u in s.txs && s.txs[u].contract == Some(id) { assert Holds(s.txs[u], Wants(s, tx)); }
      }
    case WantCustomer(c) =>
      assert CustomerFree(s, c) by {
        if u :| u in s.txs && s.txs[u].customer == Some(c) { assert Holds(s.txs[u], Wants(s, tx)); }
      }
    case WantNumber =>
      assert NumberFree(s) by {
        if u :| u in s.txs && s.txs[u].number { assert Holds(s.txs[u], Wants(s, tx)); }
      }
    case Nothing =>
  }

  lemma UnblockedMoves(s: State, t: TxId)
    requires Inv(s) && t in s.txs && !s.txs[t].stage.Ended?
    requires forall u :: u in s.txs ==> !WaitsFor(s, t, u)
    ensures CanMove(s, t)
  {
    assert TxOk(s, s.txs[t]);
    forall u | u in s.txs
      ensures !Holds(s.txs[u], Wants(s, s.txs[t]))
    {
      if u != t { assert !WaitsFor(s, t, u); }
    }
    NextStatementRuns(s, t);
    var e := NextStatement(t, s.txs[t]);
    assert e in [LockContract(t), LockCustomer(t), Check(t), Allocate(t), WriteRow(t), Commit(t)];
  }

  /** While somebody holds the lock it needs, none of its statements does anything. */
  lemma HeldLocksBlock(s: State, t: TxId, u: TxId)
    requires Inv(s) && WaitsFor(s, t, u)
    ensures Next(s, LockContract(t)) == Next(s, LockCustomer(t)) == s
    ensures Next(s, Check(t)) == Next(s, Allocate(t)) == s
    ensures Next(s, WriteRow(t)) == Next(s, Commit(t)) == s
  {
    assert TxOk(s, s.txs[t]) && TxOk(s, s.txs[u]);
  }

  /** A live transaction waits exactly for the holder of the lock it needs next: it can run
      a statement if and only if nobody else holds that lock. */
  lemma MovesExactlyWhenUnheld(s: State, t: TxId)
    requires Inv(s) && t in s.txs && !s.txs[t].stage.Ended?
    ensures CanMove(s, t) <==> forall u :: u in s.txs ==> !WaitsFor(s, t, u)
  {
    if u :| u in s.txs && WaitsFor(s, t, u) {
      HeldLocksBlock(s, t, u);
    } else {
      UnblockedMoves(s, t);
    }
  }

  /** Some transaction can always move: following the waits from any live one ends at one that can. */
  lemma {:induction false} SomebodyMoves(s: State, t: TxId) returns (u: TxId)
    requires Inv(s) && t in s.txs && !s.txs[t].stage.Ended?
    ensures CanMove(s, u)
    decreases 3 - RankOf(s, t)
  {
    if v :| v in s.txs && WaitsFor(s, t, v) {
      WaitingClimbs(s, t, v);
      assert TxOk(s, s.txs[v]);
      u := SomebodyMoves(s, v);
    } else {
      UnblockedMoves(s, t);
      u := t;
    }
  }

  // ----- the service in its own form -----

  class ContractDesk {
    var contracts: map<Id, Contract>
    var customers: map<Customer, bool>
    var txs: map<TxId, Tx>
    var next: Id

    function View(): State
      reads this
    {
      State(contracts, customers, txs, next)
    }

    constructor ()
      ensures View() == INIT
    {
      contracts, customers, txs, next := map[], map[], map[], 0;
    }

    method SetTx(t: TxId, tx: Tx)
      modifies this`txs
      ensures txs == old(txs)[t := tx]
    {
      txs := txs[t := tx];
    }

    method LockContractRow(t: TxId)
      modifies this`txs
      ensures View() == DoLockContract(old(View()), t)
    {
      if t !in txs || txs[t].stage != Begun || txs[t].job.Create? { return; }
      var tx := txs[t];
      var id := tx.job.id;
      if exists u :: u in txs && txs[u].contract == Some(id) { return; }
      if id !in contracts {
        SetTx(t, Close(tx, NotFound));
        return;
      }
      var locked := contracts[id];
      if tx.job.Patch? && locked.version != tx.job.ifMatch {
        SetTx(t, Close(tx, VersionConflict));
        return;
      }
      if locked.cancelled {
        SetTx(t, Close(tx, IllegalTransition));
        return;
      }
      var start, end := locked.term.start, locked.term.end;
      if tx.job.Patch? && tx.job.startDate.Some? {
        start := tx.job.startDate.value;
      }
      if tx.job.Patch? && tx.job.endDate.Some? {
        end := tx.job.endDate.value;
      }
      if end < start {
        SetTx(t, Close(tx, Invalid));
        return;
      }
      tx := tx.(contract := Some(id), term := Term(start, end));
      if MovesDates(tx.job) {
        tx := tx.(stage := ContractLocked);
      } else {
        tx := tx.(stage := Checked);
      }
      SetTx(t, tx);
    }

    method LockCustomerRow(t: TxId)
      modifies this`txs
      ensures View() == DoLockCustomer(old(View()), t)
    {
      if t !in txs || !WantsCustomer(txs[t]) { return; }
      var tx := txs[t];
      var c := CustomerOf(View(), tx);
      if c.None? { return; }
      if exists u :: u in txs && txs[u].customer == c { return; }
      if tx.job.Create? {
        if c.value !in customers || !customers[c.value] {
          SetTx(t, Close(tx, Invalid));
          return;
        }
      }
      SetTx(t, tx.(stage := CustomerLocked, customer := c));
    }

    /** findOverlapping: of the uncancelled AMCs of the customer that meet the term, one
        that starts first. */
    method FindOverlapping(c: Customer, term: Term, exclude: Option<Id>) returns (found: Option<Id>)
      ensures found.None? <==> Clear(View(), c, term, exclude)
      ensures found.Some? ==> Collides(View(), c, term, exclude, found.value)
      ensures found.Some? ==> forall id :: Collides(View(), c, term, exclude, id) ==>
                contracts[found.value].term.start <= contracts[id].term.start
    {
      var ids := contracts.Keys;
      found := None;
      while ids != {}
        invariant ids <= contracts.Keys
        invariant found.Some? ==> Collides(View(), c, term, exclude, found.value)
        invariant forall id :: id !in ids && Collides(View(), c, term, exclude, id) ==>
                    found.Some? && contracts[found.value].term.start <= contracts[id].term.start
        decreases ids
      {
        var id :| id in ids;
        var row := contracts[id];
        if exclude != Some(id) && row.customer == c && !row.cancelled && row.term.start <= term.end
            && term.start <= row.term.end {
          assert Collides(View(), c, term, exclude, id);
          if found.None? || row.term.start < contracts[found.value].term.start {
            found := Some(id);
          }
        }
        ids := ids - {id};
      }
    }

    method CheckOverlap(t: TxId)
      modifies this`txs
      ensures View() == DoCheck(old(View()), t)
    {
      if t !in txs || txs[t].stage != CustomerLocked || txs[t].customer.None? { return; }
      var tx := txs[t];
      if tx.term.end < tx.term.start {
        SetTx(t, Close(tx, Invalid));
        return;
      }
      var existing := FindOverlapping(tx.customer.value, tx.term, tx.contract);
      if existing.Some? {
        SetTx(t, Close(tx, Duplicate));
      } else {
        SetTx(t, tx.(stage := Checked));
      }
    }

    method AllocateNumber(t: TxId)
      modifies this`txs
      ensures View() == DoAllocate(old(View()), t)
    {
      if t in txs && txs[t].stage == Checked && txs[t].job.Create? {
        if !(exists u :: u in txs && txs[u].number) {
          SetTx(t, txs[t].(stage := Numbered, number := true));
        }
      }
    }

    /** INSERT, UPDATE or the cancelling UPDATE; by `NeverExcluded` the constraint stays silent. */
    method WriteContract(t: TxId)
      requires Inv(View())
      modifies this`txs, this`next
      ensures View() == DoWrite(old(View()), t)
    {
      if t !in txs || !ReadyToWrite(txs[t]) { return; }
      var tx := txs[t];
      var w := NewRow(View(), tx);
      if w.None? { return; }
      NeverExcluded(View(), t);
      if tx.job.Create? {
        next := next + 1;
      }
      SetTx(t, tx.(stage := Written, pending := w));
    }

    method CommitWork(t: TxId)
      modifies this`txs, this`contracts
      ensures View() == DoCommit(old(View()), t)
    {
      if t !in txs || txs[t].stage != Written || txs[t].pending.None? { return; }
      var tx := txs[t];
      contracts := contracts[tx.pending.value.0 := tx.pending.value.1];
      SetTx(t, Close(tx, Committed));
    }

    /** createContract without interruption: customer, overlap, number, insert, commit. */
    method CreateContract(t: TxId, customer: Customer, term: Term)
      requires Inv(View()) && t !in txs
      modifies this
      ensures View() == Run(old(View()), CreateSteps(t, customer, term))
    {
      CreateRuns(View(), t, customer, term);
      SetTx(t, Tx(Create(customer, term), Begun, None, None, false, term, None));
      LockCustomerRow(t);
      CheckOverlap(t);
      AllocateNumber(t);
      WriteContract(t);
      CommitWork(t);
    }

    /** patchContract: the customer is locked and the overlap checked only when dates move. */
    method PatchContract(t: TxId, id: Id, ifMatch: nat, startDate: Option<int>, endDate: Option<int>)
      requires Inv(View()) && t !in txs
      modifies this
      ensures View() == Run(old(View()), EditSteps(t, Patch(id, ifMatch, startDate, endDate)))
    {
      EditRuns(View(), t, Patch(id, ifMatch, startDate, endDate));
      SetTx(t, Tx(Patch(id, ifMatch, startDate, endDate), Begun, None, None, false, Term(0, 0), None));
      LockContractRow(t);
      if startDate.Some? || endDate.Some? {
        LockCustomerRow(t);
        CheckOverlap(t);
      }
      WriteContract(t);
      CommitWork(t);
    }

    /** cancelContract: the contract's own lock is enough. */
    method CancelContract(t: TxId, id: Id)
      requires Inv(View()) && t !in txs
      modifies this
      ensures View() == Run(old(View()), EditSteps(t, Cancel(id)))
    {
      EditRuns(View(), t, Cancel(id));
      SetTx(t, Tx(Cancel(id), Begun, None, None, false, Term(0, 0), None));
      LockContractRow(t);
      WriteContract(t);
      CommitWork(t);
    }
  }

  /** The statements of patchContract and cancelContract; a step that does not apply
      changes nothing. */
  function EditSteps(t: TxId, job: Job): seq<Event> {
    [Begin(t, job), LockContract(t), LockCustomer(t), Check(t), WriteRow(t), Commit(t)]
  }

  function LockedForEdit(s: State, t: TxId, job: Job): State {
    DoLockContract(DoBegin(s, t, job), t)
  }

  function BeforeEdit(s: State, t: TxId, job: Job): State {
    DoCheck(DoLockCustomer(LockedForEdit(s, t, job), t), t)
  }

  lemma EditRuns(s: State, t: TxId, job: Job)
    requires Inv(s) && t !in s.txs && !job.Create?
    ensures Inv(BeforeEdit(s, t, job))
    ensures !MovesDates(job) ==> BeforeEdit(s, t, job) == LockedForEdit(s, t, job)
    ensures Run(s, EditSteps(t, job)) == DoCommit(DoWrite(BeforeEdit(s, t, job), t), t)
  {
    if !MovesDates(job) {
      SkipsTheCustomer(s, t, job);
    }
    var es := EditSteps(t, job);
    RunKeepsInv(s, es[..4]);
    EditOpens(s, es, t, job);
    WriteCloses(s, es, t);
  }

  lemma EditOpens(s: State, es: seq<Event>, t: TxId, job: Job)
    requires |es| == 6 && es[0] == Begin(t, job) && es[1] == LockContract(t) && es[2] == LockCustomer(t)
    requires es[3] == Check(t)
    ensures Run(s, es[..4]) == BeforeEdit(s, t, job)
  {
    FirstFour(s, es);
  }

  lemma WriteCloses(s: State, es: seq<Event>, t: TxId)
    requires |es| == 6 && es[4] == WriteRow(t) && es[5] == Commit(t)
    ensures Run(s, es) == DoCommit(DoWrite(Run(s, es[..4]), t), t)
  {
    LastTwo(s, es);
  }

  lemma SkipsTheCustomer(s: State, t: TxId, job: Job)
    requires t !in s.txs && !job.Create? && !MovesDates(job)
    ensures BeforeEdit(s, t, job) == LockedForEdit(s, t, job)
  {
    var locked := LockedForEdit(s, t, job);
    assert locked.txs[t].stage != CustomerLocked && !WantsCustomer(locked.txs[t]);
  }

  /** The statements of createContract; a step after a refusal changes nothing. */
  function CreateSteps(t: TxId, customer: Customer, term: Term): seq<Event> {
    [Begin(t, Create(customer, term)), LockCustomer(t), Check(t), Allocate(t), WriteRow(t), Commit(t)]
  }

  function BeforeWrite(s: State, t: TxId, customer: Customer, term: Term): State {
    DoAllocate(DoCheck(DoLockCustomer(DoBegin(s, t, Create(customer, term)), t), t), t)
  }

  lemma CreateRuns(s: State, t: TxId, customer: Customer, term: Term)
    requires Inv(s)
    ensures Inv(BeforeWrite(s, t, customer, term))
    ensures Run(s, CreateSteps(t, customer, term)) == DoCommit(DoWrite(BeforeWrite(s, t, customer, term), t), t)
  {
    var es := CreateSteps(t, customer, term);
    RunKeepsInv(s, es[..4]);
    CreateOpens(s, es, t, customer, term);
    WriteCloses(s, es, t);
  }

  lemma CreateOpens(s: State, es: seq<Event>, t: TxId, customer: Customer, term: Term)
    requires |es| == 6 && es[0] == Begin(t, Create(customer, term)) && es[1] == LockCustomer(t) && es[2] == Check(t)
    requires es[3] == Allocate(t)
    ensures Run(s, es[..4]) == BeforeWrite(s, t, customer, term)
  {
    FirstFour(s, es);
  }

  lemma OneStep(s: State, es: seq<Event>, i: nat)
    requires i < |es|
    ensures Run(s, es[..i + 1]) == Next(Run(s, es[..i]), es[i])
  {
    assert es[..i + 1][..i] == es[..i];
  }

  lemma FirstFour(s: State, es: seq<Event>)
    requires |es| == 6
    ensures Run(s, es[..4]) == Next(Next(Next(Next(s, es[0]), es[1]), es[2]), es[3])
  {
    OneStep(s, es, 0);
    OneStep(s, es, 1);
    OneStep(s, es, 2);
    OneStep(s, es, 3);
  }

  lemma LastTwo(s: State, es: seq<Event>)
    requires |es| == 6
    ensures Run(s, es) == Next(Next(Run(s, es[..4]), es[4]), es[5])
  {
    OneStep(s, es, 4);
    OneStep(s, es, 5);
    assert es[..6] == es;
  }

  /** What stands in the way of a create. */
  predicate Welcome(s: State, customer: Customer, term: Term) {
    customer in s.customers && s.customers[customer] && Ordered(term) && Clear(s, customer, term, None)
  }

  lemma ClearStays(s: State, s': State, customer: Customer, term: Term)
    requires s'.contracts == s.contracts
    ensures Clear(s', customer, term, None) == Clear(s, customer, term, None)
  {
    assert forall id :: Collides(s', customer, term, None, id) == Collides(s, customer, term, None, id);
  }

  /** A create that nobody interrupts is recorded exactly when its customer is active and
      its term is ordered and meets no uncancelled term; otherwise nothing changes. */
  lemma CreateCommitsExactlyWhenWelcome(s: State, t: TxId, customer: Customer, term: Term)
    requires Inv(s) && t !in s.txs && CustomerFree(s, customer) && NumberFree(s)
    ensures var s' := Run(s, CreateSteps(t, customer, term));
            && t in s'.txs
            && (s'.txs[t].stage == Ended(Committed) <==> Welcome(s, customer, term))
            && s'.contracts == if Welcome(s, customer, term)
                               then s.contracts[s.next := Contract(customer, term, false, 1)]
                               else s.contracts
  {
    CreateRuns(s, t, customer, term);
    BeforeWriteWelcomes(s, t, customer, term);
    var s4 := BeforeWrite(s, t, customer, term);
    if Welcome(s, customer, term) {
      NeverExcluded(s4, t);
    }
  }

  lemma BeforeWriteWelcomes(s: State, t: TxId, customer: Customer, term: Term)
    requires t !in s.txs && CustomerFree(s, customer) && NumberFree(s)
    ensures var s4 := BeforeWrite(s, t, customer, term);
            && s4.contracts == s.contracts && s4.next == s.next && t in s4.txs
            && s4.txs[t].job == Create(customer, term)
            && s4.txs[t].term == term
            && (if Welcome(s, customer, term) then s4.txs[t].stage == Numbered
                else s4.txs[t].stage == Ended(Invalid) || s4.txs[t].stage == Ended(Duplicate))
  {
    LockWelcomes(s, t, customer, term);
    ClearStays(s, DoLockCustomer(DoBegin(s, t, Create(customer, term)), t), customer, term);
  }

  lemma LockWelcomes(s: State, t: TxId, customer: Customer, term: Term)
    requires t !in s.txs && CustomerFree(s, customer) && NumberFree(s)
    ensures var s2 := DoLockCustomer(DoBegin(s, t, Create(customer, term)), t);
            && s2.contracts == s.contracts && s2.next == s.next && NumberFree(s2) && t in s2.txs
            && s2.txs[t] == Tx(Create(customer, term),
                               if customer in s.customers && s.customers[customer]
                               then CustomerLocked else Ended(Invalid),
                               None, if customer in s.customers && s.customers[customer] then Some(customer) else None,
                               false, term, None)
  {
  }

  predicate IsTermOf(contract: Contract, customer: Customer) {
    contract.customer == customer && !contract.cancelled
  }

  /** A renewal is recorded when it starts the day after the customer's last term ends,
      and refused when it starts any earlier. */
  lemma RenewalStartsTheDayAfter(s: State, t: TxId, last: Id, renewal: Term)
    requires Inv(s) && t !in s.txs && NumberFree(s) && last in s.contracts && !s.contracts[last].cancelled
    requires Ordered(renewal)
    requires var c := s.contracts[last].customer; CustomerFree(s, c) && c in s.customers && s.customers[c]
    requires forall id :: id in s.contracts && IsTermOf(s.contracts[id], s.contracts[last].customer) ==>
               s.contracts[id].term.end <= s.contracts[last].term.end
    requires s.contracts[last].term.start <= renewal.start
    ensures var s' := Run(s, CreateSteps(t, s.contracts[last].customer, renewal));
            t in s'.txs && (s'.txs[t].stage == Ended(Committed) <==> s.contracts[last].term.end + 1 <= renewal.start)
  {
    var c := s.contracts[last].customer;
    CreateCommitsExactlyWhenWelcome(s, t, c, renewal);
    assert Collides(s, c, renewal, None, last) <==> renewal.start <= s.contracts[last].term.end;
    if s.contracts[last].term.end + 1 <= renewal.start {
      forall id | id in s.contracts
        ensures !Collides(s, c, renewal, None, id)
      {
      }
    }
  }

  // ----- the terms, day by day -----

  predicate Covers(t: Term, day: int) {
    t.start <= day <= t.end
  }

  /** Some day belongs to both terms. */
  ghost predicate ShareADay(a: Term, b: Term) {
    exists day :: Covers(a, day) && Covers(b, day)
  }

  lemma OverlapIsSharing(a: Term, b: Term)
    requires Ordered(a) && Ordered(b)
    ensures Overlap(a, b) <==> ShareADay(a, b)
  {
    if Overlap(a, b) {
      var day := if a.start <= b.start then b.start else a.start;
      assert Covers(a, day) && Covers(b, day);
    }
  }

  /** No uncancelled AMC of this customer, other than `exclude`, has a day of `term`. */
  ghost predicate DaysFree(s: State, c: Customer, term: Term, exclude: Option<Id>) {
    forall id :: id in s.contracts && exclude != Some(id) && IsTermOf(s.contracts[id], c) ==>
      !ShareADay(s.contracts[id].term, term)
  }

  lemma ClearIsDaysFree(s: State, c: Customer, term: Term, exclude: Option<Id>)
    requires Inv(s) && Ordered(term)
    ensures Clear(s, c, term, exclude) <==> DaysFree(s, c, term, exclude)
  {
    forall id | id in s.contracts
      ensures Overlap(s.contracts[id].term, term) <==> ShareADay(s.contracts[id].term, term)
    {
      OverlapIsSharing(s.contracts[id].term, term);
    }
    if DaysFree(s, c, term, exclude) {
      forall id | id in s.contracts
        ensures !Collides(s, c, term, exclude, id)
      {
      }
    } else {
      var id :| id in s.contracts && exclude != Some(id) && IsTermOf(s.contracts[id], c)
                && ShareADay(s.contracts[id].term, term);
      assert Collides(s, c, term, exclude, id);
    }
  }

  /** No day is ever covered by two uncancelled AMCs of one customer. */
  lemma NoDayTwice(events: seq<Event>, i: Id, j: Id, day: int)
    requires var c := Run(INIT, events).contracts; i in c && j in c && i != j
    requires var c := Run(INIT, events).contracts; c[i].customer == c[j].customer && !c[i].cancelled && !c[j].cancelled
    ensures var c := Run(INIT, events).contracts; !(Covers(c[i].term, day) && Covers(c[j].term, day))
  {
    TermsStayDisjoint(events, i, j);
  }

  /** The whole outcome of a create that nobody interrupts, day by day. */
  lemma CreateIsDecided(s: State, t: TxId, customer: Customer, term: Term)
    requires Inv(s) && t !in s.txs && CustomerFree(s, customer) && NumberFree(s)
    ensures var s' := Run(s, CreateSteps(t, customer, term));
            && t in s'.txs && s'.txs[t].stage.Ended?
            && var outcome := s'.txs[t].stage.outcome;
               var active := customer in s.customers && s.customers[customer];
            && (outcome == Invalid <==> !active || term.end < term.start)
            && (outcome == Duplicate <==> active && term.start <= term.end && !DaysFree(s, customer, term, None))
            && (outcome == Committed <==> active && term.start <= term.end && DaysFree(s, customer, term, None))
  {
    CreateCommitsExactlyWhenWelcome(s, t, customer, term);
    CreateRuns(s, t, customer, term);
    LockWelcomes(s, t, customer, term);
    ClearStays(s, DoLockCustomer(DoBegin(s, t, Create(customer, term)), t), customer, term);
    if Ordered(term) {
      ClearIsDaysFree(s, customer, term, None);
    }
  }

  // ----- what a patch and a cancel come to -----

  /** A date as it will stand: the one sent, or the one there was. */
  function Sent(date: Option<int>, before: int): int {
    if date.Some? then date.value else before
  }

  lemma PatchLocks(s: State, t: TxId, id: Id, ifMatch: nat, startDate: Option<int>, endDate: Option<int>)
    requires t !in s.txs && ContractFree(s, id)
    ensures var s2 := LockedForEdit(s, t, Patch(id, ifMatch, startDate, endDate));
            && t in s2.txs && s2 == s.(txs := s.txs[t := s2.txs[t]])
            && var tx := s2.txs[t];
               var verdict := if id !in s.contracts then NotFound
                              else
                                var row := s.contracts[id];
                                if row.version != ifMatch then VersionConflict
                                else if row.cancelled then IllegalTransition
                                else if Sent(endDate, row.term.end) < Sent(startDate, row.term.start) then Invalid
                                else Committed;
            && tx.job == Patch(id, ifMatch, startDate, endDate)
            && (verdict != Committed ==> tx.stage == Ended(verdict) && tx.customer.None?)
            && (verdict == Committed ==>
                  && tx.stage == (if startDate.Some? || endDate.Some? then ContractLocked else Checked)
                  && tx.contract == Some(id) && tx.customer.None? && !tx.number && tx.pending.None?
                  && var row := s.contracts[id];
                     tx.term == Term(Sent(startDate, row.term.start), Sent(endDate, row.term.end)))
  {
    assert ContractFree(DoBegin(s, t, Patch(id, ifMatch, startDate, endDate)), id);
  }

  /** A locked patch that moves dates goes on exactly when its days are free. */
  lemma MovedDatesAreChecked(s: State, s2: State, t: TxId, id: Id)
    requires Inv(s) && t in s2.txs && s2 == s.(txs := s.txs[t := s2.txs[t]])
    requires id in s.contracts && CustomerFree(s, s.contracts[id].customer)
    requires s2.txs[t].job.Patch? && s2.txs[t].job.id == id && s2.txs[t].stage == ContractLocked
    requires s2.txs[t].contract == Some(id) && s2.txs[t].customer.None? && Ordered(s2.txs[t].term)
    ensures var s4 := DoCheck(DoLockCustomer(s2, t), t); var c := s.contracts[id].customer;
            && t in s4.txs && s4 == s.(txs := s.txs[t := s4.txs[t]])
            && if DaysFree(s, c, s2.txs[t].term, Some(id))
               then s4.txs[t] == s2.txs[t].(stage := Checked, customer := Some(c))
               else s4.txs[t].stage == Ended(Duplicate)
  {
    var c := s.contracts[id].customer;
    PatchedCustomerLocks(s2, t);
    SameContractsSameClear(s, DoLockCustomer(s2, t), c, s2.txs[t].term, Some(id));
    ClearIsDaysFree(s, c, s2.txs[t].term, Some(id));
  }

  lemma PatchedCustomerLocks(s: State, t: TxId)
    requires t in s.txs && s.txs[t].job.Patch? && s.txs[t].stage == ContractLocked && s.txs[t].customer.None?
    requires s.txs[t].job.id in s.contracts
    requires forall u :: u in s.txs && u != t ==> s.txs[u].customer != Some(s.contracts[s.txs[t].job.id].customer)
    ensures var tx := s.txs[t]; var c := s.contracts[tx.job.id].customer;
            DoLockCustomer(s, t) == s.(txs := s.txs[t := tx.(stage := CustomerLocked, customer := Some(c))])
  {
  }

  lemma SameContractsSameClear(s: State, s': State, c: Customer, term: Term, exclude: Option<Id>)
    requires s'.contracts == s.contracts
    ensures Clear(s', c, term, exclude) == Clear(s, c, term, exclude)
  {
    assert forall id :: Collides(s', c, term, exclude, id) == Collides(s, c, term, exclude, id);
  }

  /** A checked edit is written and committed: the constraint stays silent. */
  lemma CheckedEditCommits(s: State, t: TxId)
    requires Inv(s) && t in s.txs && s.txs[t].stage == Checked && !s.txs[t].job.Create?
    requires s.txs[t].job.id in s.contracts
    ensures var s' := DoCommit(DoWrite(s, t), t); var row := s.contracts[s.txs[t].job.id];
            && t in s'.txs && s'.txs[t].stage == Ended(Committed)
            && s'.contracts == s.contracts[s.txs[t].job.id :=
                 if s.txs[t].job.Patch? then row.(term := s.txs[t].term, version := row.version + 1)
                 else row.(cancelled := true, version := row.version + 1)]
  {
    NeverExcluded(s, t);
  }

  /** The whole outcome of a patch that nobody interrupts.  It is refused, with nothing
      changed, for a missing row, for a copy of another version, for a cancelled row, for
      dates out of order, and for a day that is taken when a date was sent; otherwise the
      row gets exactly the dates sent and the next version. */
  lemma PatchIsDecided(s: State, t: TxId, id: Id, ifMatch: nat, startDate: Option<int>, endDate: Option<int>)
    requires Inv(s) && t !in s.txs && ContractFree(s, id)
    requires id in s.contracts ==> CustomerFree(s, s.contracts[id].customer)
    ensures var s' := Run(s, EditSteps(t, Patch(id, ifMatch, startDate, endDate)));
            && t in s'.txs && s'.txs[t].stage.Ended?
            && var outcome := s'.txs[t].stage.outcome;
            && (outcome == NotFound <==> id !in s.contracts)
            && (id !in s.contracts ==> s'.contracts == s.contracts)
    ensures id in s.contracts ==>
              var s' := Run(s, EditSteps(t, Patch(id, ifMatch, startDate, endDate)));
              var outcome, row := s'.txs[t].stage.outcome, s.contracts[id];
              var start, end := Sent(startDate, row.term.start), Sent(endDate, row.term.end);
              var current := row.version == ifMatch;
              var free := (startDate.None? && endDate.None?) || DaysFree(s, row.customer, Term(start, end), Some(id));
              && (outcome == VersionConflict <==> !current)
              && (outcome == IllegalTransition <==> current && row.cancelled)
              && (outcome == Invalid <==> current && !row.cancelled && end < start)
              && (outcome == Duplicate <==> current && !row.cancelled && start <= end && !free)
              && (outcome == Committed <==> current && !row.cancelled && start <= end && free)
              && s'.contracts == (if outcome == Committed
                                  then s.contracts[id := Contract(row.customer, Term(start, end), false, ifMatch + 1)]
                                  else s.contracts)
  {
    var job := Patch(id, ifMatch, startDate, endDate);
    EditRuns(s, t, job);
    PatchLocks(s, t, id, ifMatch, startDate, endDate);
    var s2 := LockedForEdit(s, t, job);
    if s2.txs[t].stage == ContractLocked {
      MovedDatesAreChecked(s, s2, t, id);
    } else {
      StaysPut(s2, t);
    }
    var s4 := BeforeEdit(s, t, job);
    if s4.txs[t].stage == Checked {
      CheckedEditCommits(s4, t);
    } else {
      EndedStays(s4, t);
    }
  }

  lemma StaysPut(s: State, t: TxId)
    requires t in s.txs && s.txs[t].job.Patch? && (s.txs[t].stage.Ended? || s.txs[t].stage.Checked?)
    ensures DoCheck(DoLockCustomer(s, t), t) == s
  {
  }

  lemma EndedStays(s: State, t: TxId)
    requires t in s.txs && s.txs[t].stage.Ended?
    ensures DoCommit(DoWrite(s, t), t) == s
  {
  }

  /** The whole outcome of a cancel that nobody interrupts; it does not look at versions. */
  lemma CancelIsDecided(s: State, t: TxId, id: Id)
    requires Inv(s) && t !in s.txs && ContractFree(s, id)
    ensures var s' := Run(s, EditSteps(t, Cancel(id)));
            && t in s'.txs && s'.txs[t].stage.Ended?
            && var outcome := s'.txs[t].stage.outcome;
            && (outcome == NotFound <==> id !in s.contracts)
            && (outcome == IllegalTransition <==> id in s.contracts && s.contracts[id].cancelled)
            && (outcome == Committed <==> id in s.contracts && !s.contracts[id].cancelled)
            && s'.contracts == if outcome == Committed
                               then s.contracts[id := Contract(s.contracts[id].customer, s.contracts[id].term, true,
                                                               s.contracts[id].version + 1)]
                               else s.contracts
  {
    EditRuns(s, t, Cancel(id));
    CancelLocks(s, t, id);
    var s2 := LockedForEdit(s, t, Cancel(id));
    if s2.txs[t].stage == Checked {
      CheckedEditCommits(s2, t);
    } else {
      EndedStays(s2, t);
    }
  }

  lemma CancelLocks(s: State, t: TxId, id: Id)
    requires t !in s.txs && ContractFree(s, id) && (id in s.contracts ==> Ordered(s.contracts[id].term))
    ensures var s2 := LockedForEdit(s, t, Cancel(id));
            && t in s2.txs && s2.contracts == s.contracts && s2.txs[t].job == Cancel(id)
            && s2.txs[t].stage == if id !in s.contracts then Ended(NotFound)
                                  else if s.contracts[id].cancelled then Ended(IllegalTransition)
                                  else Checked
  {
    assert ContractFree(DoBegin(s, t, Cancel(id)), id);
  }

  // ----- two patches from one copy -----

  /** While a patch holds its row, the row is at the version the patch was made from; once
      it is committed, the row is past it.  A cancel that is written is one version on. */
  ghost predicate VersionOk(s: State, tx: Tx) {
    && (tx.job.Patch? && tx.contract.Some? ==> tx.job.id in s.contracts && VersionOf(s, tx.job.id) == tx.job.ifMatch)
    && (tx.job.Patch? && tx.pending.Some? ==> tx.pending.value.1.version == tx.job.ifMatch + 1)
    && (tx.job.Cancel? && tx.pending.Some? ==> tx.pending.value.1.version > VersionOf(s, tx.job.id))
    && (CommittedPatch(tx) ==> tx.job.id in s.contracts && VersionOf(s, tx.job.id) > tx.job.ifMatch)
  }

  function VersionOf(s: State, id: Id): nat {
    if id in s.contracts then s.contracts[id].version else 0
  }

  predicate CommittedPatch(tx: Tx) {
    tx.job.Patch? && tx.stage == Ended(Committed)
  }

  /** No two committed patches of one row were made from one version. */
  ghost predicate OneEach(s: State) {
    forall t, u :: t in s.txs && u in s.txs && t != u && CommittedPatch(s.txs[t]) && CommittedPatch(s.txs[u]) ==>
      s.txs[t].job.id != s.txs[u].job.id || s.txs[t].job.ifMatch != s.txs[u].job.ifMatch
  }

  ghost predicate Versions(s: State) {
    (forall t {:trigger VersionOk(s, s.txs[t])} :: t in s.txs ==> VersionOk(s, s.txs[t])) && OneEach(s)
  }

  /** A step of `t` that commits nothing. */
  lemma StepKeepsVersions(s: State, s': State, t: TxId)
    requires Versions(s) && t in s'.txs && s'.txs == s.txs[t := s'.txs[t]] && s'.contracts == s.contracts
    requires VersionOk(s', s'.txs[t]) && !CommittedPatch(s'.txs[t])
    ensures Versions(s')
  {
    forall u | u in s'.txs
      ensures VersionOk(s', s'.txs[u])
    {
      assert u != t ==> VersionOk(s, s.txs[u]);
    }
  }

  lemma LockKeepsVersions(s: State, t: TxId)
    requires Inv(s) && Versions(s)
    ensures Versions(DoLockContract(s, t))
  {
    if DoLockContract(s, t) != s {
      assert TxOk(s, s.txs[t]);
      StepKeepsVersions(s, DoLockContract(s, t), t);
    }
  }

  lemma MiddleKeepsVersions(s: State, e: Event)
    requires Inv(s) && Versions(s) && (e.LockCustomer? || e.Check? || e.Allocate? || e.Crash?)
    ensures Versions(Next(s, e))
  {
    if Next(s, e) != s {
      assert TxOk(s, s.txs[e.t]) && VersionOk(s, s.txs[e.t]);
      StepKeepsVersions(s, Next(s, e), e.t);
    }
  }

  lemma WriteKeepsVersions(s: State, t: TxId)
    requires Inv(s) && Versions(s)
    ensures Versions(DoWrite(s, t))
  {
    if DoWrite(s, t) != s {
      assert TxOk(s, s.txs[t]) && VersionOk(s, s.txs[t]);
      NeverExcluded(s, t);
      StepKeepsVersions(s, DoWrite(s, t), t);
    }
  }

  /** A commit moves the version of one row, which nobody else holds. */
  lemma CommitKeepsVersions(s: State, t: TxId)
    requires Inv(s) && Versions(s)
    ensures Versions(DoCommit(s, t))
  {
    var s' := DoCommit(s, t);
    if s' != s {
      assert TxOk(s, s.txs[t]) && VersionOk(s, s.txs[t]);
      CommitMovesItsRow(s, t);
      forall u | u in s'.txs
        ensures VersionOk(s', s'.txs[u])
      {
        if u != t { OthersKeepVersions(s, t, u); }
      }
      forall u | u in s.txs && u != t && CommittedPatch(s.txs[u]) && s.txs[t].job.Patch?
        ensures s.txs[u].job.id != s.txs[t].job.id || s.txs[u].job.ifMatch < s.txs[t].job.ifMatch
      {
        assert VersionOk(s, s.txs[u]);
      }
    }
  }

  lemma CommitMovesItsRow(s: State, t: TxId)
    requires IsWritten(s, t) && TxOk(s, s.txs[t]) && VersionOk(s, s.txs[t])
    ensures var id := s.txs[t].pending.value.0; var s' := DoCommit(s, t);
            && s'.contracts == s.contracts[id := s.txs[t].pending.value.1]
            && (id in s.contracts ==> VersionOf(s, id) < VersionOf(s', id) && s.txs[t].contract == Some(id))
  {
  }

  /** A transaction with a row to commit. */
  predicate IsWritten(s: State, t: TxId) {
    t in s.txs && s.txs[t].stage.Written? && s.txs[t].pending.Some?
  }

  lemma OthersKeepVersions(s: State, t: TxId, u: TxId)
    requires Inv(s) && IsWritten(s, t) && u in s.txs && u != t
    requires VersionOk(s, s.txs[t]) && VersionOk(s, s.txs[u])
    ensures VersionOk(DoCommit(s, t), s.txs[u])
  {
    assert TxOk(s, s.txs[t]) && TxOk(s, s.txs[u]);
    CommitMovesItsRow(s, t);
  }

  lemma NextKeepsVersions(s: State, e: Event)
    requires Inv(s) && Versions(s)
    ensures Versions(Next(s, e))
  {
    match e
    case Begin(t, job) =>
      if t !in s.txs { StepKeepsVersions(s, DoBegin(s, t, job), t); }
    case LockContract(t) => LockKeepsVersions(s, t);
    case WriteRow(t) => WriteKeepsVersions(s, t);
    case Commit(t) => CommitKeepsVersions(s, t);
    case AddCustomer(_, _) =>
      forall u | u in s.txs
        ensures VersionOk(Next(s, e), s.txs[u])
      {
        assert VersionOk(s, s.txs[u]);
      }
    case _ => MiddleKeepsVersions(s, e);
  }

  lemma {:induction false} RunKeepsVersions(events: seq<Event>)
    ensures Inv(Run(INIT, events)) && Versions(Run(INIT, events))
    decreases |events|
  {
    if events == [] {
    } else {
      RunKeepsVersions(events[..|events| - 1]);
      NextKeepsInv(Run(INIT, events[..|events| - 1]), events[|events| - 1]);
      NextKeepsVersions(Run(INIT, events[..|events| - 1]), events[|events| - 1]);
    }
  }

  /** Of all the patches made from one copy of a row, at most one is ever committed,
      however they interleave with each other and with anything else. */
  lemma OnePatchPerCopy(events: seq<Event>, t: TxId, u: TxId)
    requires var s := Run(INIT, events);
             t in s.txs && u in s.txs && t != u && s.txs[t].job.Patch? && s.txs[u].job.Patch?
             && s.txs[t].job.id == s.txs[u].job.id && s.txs[t].job.ifMatch == s.txs[u].job.ifMatch
    ensures var s := Run(INIT, events);
            !(s.txs[t].stage == Ended(Committed) && s.txs[u].stage == Ended(Committed))
  {
    RunKeepsVersions(events);
  }

  // ----- the number and the constraint -----

  /** The sequence row is held from the allocation to the end of the transaction, so at
      most one create at a time has a number that is not committed yet. */
  lemma NumbersAreDrawnOneAtATime(events: seq<Event>, t: TxId, u: TxId)
    requires var s := Run(INIT, events);
             t in s.txs && u in s.txs && s.txs[t].job.Create? && s.txs[u].job.Create?
    requires var s := Run(INIT, events);
             && (s.txs[t].stage.Numbered? || s.txs[t].stage.Written?)
             && (s.txs[u].stage.Numbered? || s.txs[u].stage.Written?)
    ensures t == u
  {
    RunKeepsInv(INIT, events);
    var s := Run(INIT, events);
    assert TxOk(s, s.txs[t]) && TxOk(s, s.txs[u]);
  }

  /** What the exclusion constraint refuses: an uncancelled row that shares a day with
      another uncancelled one of its customer, committed or written by somebody else. */
  ghost predicate Barred(s: State, t: TxId, id: Id, row: Contract) {
    && !row.cancelled
    && ((exists i :: i in s.contracts && i != id && s.contracts[i].customer == row.customer
                     && !s.contracts[i].cancelled && ShareADay(s.contracts[i].term, row.term))
        || (exists u :: u in s.txs && u != t && s.txs[u].pending.Some? && Clashes(s.txs[u].pending.value, id, row)))
  }

  ghost predicate Clashes(other: (Id, Contract), id: Id, row: Contract) {
    other.0 != id && other.1.customer == row.customer && !other.1.cancelled && ShareADay(other.1.term, row.term)
  }

  /** A row that is refused ends its transaction and changes nothing; any other is pending
      until COMMIT. */
  lemma WriteIsDecided(s: State, t: TxId)
    requires t in s.txs && ReadyToWrite(s.txs[t]) && NewRow(s, s.txs[t]).Some?
    requires forall i :: i in s.contracts ==> Ordered(s.contracts[i].term)
    requires forall u :: u in s.txs && s.txs[u].pending.Some? ==> Ordered(s.txs[u].pending.value.1.term)
    requires Ordered(NewRow(s, s.txs[t]).value.1.term)
    ensures var s', w := Next(s, WriteRow(t)), NewRow(s, s.txs[t]).value;
            && t in s'.txs && s'.contracts == s.contracts && s'.txs == s.txs[t := s'.txs[t]]
            && (Barred(s, t, w.0, w.1) ==> s'.txs[t].stage == Ended(LostRace) && s'.txs[t].pending.None?)
            && (!Barred(s, t, w.0, w.1) ==> s'.txs[t].stage == Written && s'.txs[t].pending == Some(w))
  {
    var w := NewRow(s, s.txs[t]).value;
    ExcludedIsBarred(s, t, w.0, w.1);
  }

  lemma ExcludedIsBarred(s: State, t: TxId, id: Id, row: Contract)
    requires forall i :: i in s.contracts ==> Ordered(s.contracts[i].term)
    requires forall u :: u in s.txs && s.txs[u].pending.Some? ==> Ordered(s.txs[u].pending.value.1.term)
    requires Ordered(row.term)
    ensures Excluded(s, t, id, row) <==> Barred(s, t, id, row)
  {
    forall i | i in s.contracts
      ensures Overlap(s.contracts[i].term, row.term) <==> ShareADay(s.contracts[i].term, row.term)
    {
      OverlapIsSharing(s.contracts[i].term, row.term);
    }
    forall u | u in s.txs && s.txs[u].pending.Some?
      ensures Overlap(s.txs[u].pending.value.1.term, row.term) <==> ShareADay(s.txs[u].pending.value.1.term, row.term)
    {
      OverlapIsSharing(s.txs[u].pending.value.1.term, row.term);
    }
    if i :| i in s.contracts && i != id && s.contracts[i].customer == row.customer && !s.contracts[i].cancelled
            && ShareADay(s.contracts[i].term, row.term) {
      assert Collides(s, row.customer, row.term, Some(id), i);
    }
  }
}

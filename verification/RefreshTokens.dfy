/**
 * Refresh-token rotation with reuse detection: apps/api/src/modules/auth/service.ts
 * over apps/api/src/modules/auth/repo.ts.  A token is known by the id of its row
 * (its hash is taken as injective); ids are numbered in insertion order, and each
 * server transaction is one atomic event.  `family` is the login a token descends from.
 */
module RefreshTokens {
  import opened Prelude

  type Id = nat
  type Employee = nat

  const REFRESH_TOKEN_TTL_MS: int := 60 * 24 * 60 * 60 * 1000

  datatype Token = Token(employee: Employee, family: Id, revoked: bool, replacedBy: Option<Id>, expiresAt: int)

  datatype State = State(rows: map<Id, Token>, active: set<Employee>, next: Id)

  datatype Outcome = Rotated(successor: Id) | Gone | Reused | Inactive

  /** `allowed` is the verdict of the password and is_active check, which login reads
      before its transaction; `mintedAt` is the clock when the new token is minted, and
      `now` when the presented one is looked at. */
  datatype Event =
    | Login(employee: Employee, allowed: bool, mintedAt: int)
    | Refresh(id: Id, now: int, mintedAt: int)
    | Logout(id: Id)
    | RevokeAll(employee: Employee)
    | Deactivate(employee: Employee)
    | Activate(employee: Employee)

  const INIT := State(map[], {}, 0)

  /** `replaced_by` points forward, within the family, from a revoked row. */
  predicate LinkOk(s: State, i: Id)
    requires i in s.rows
  {
    && i < s.next
    && (s.rows[i].replacedBy.Some? ==>
          var j := s.rows[i].replacedBy.value;
          && i < j < s.next && j in s.rows && s.rows[i].revoked
          && s.rows[j].family == s.rows[i].family && s.rows[j].employee == s.rows[i].employee)
  }

  predicate Forward(s: State) {
    forall i {:trigger LinkOk(s, i)} :: i in s.rows ==> LinkOk(s, i)
  }

  predicate Live(s: State, id: Id) {
    id in s.rows && !s.rows[id].revoked
  }

  /** The recursive query of revokeChainFrom: the row, then whatever replaced it. */
  function Walk(s: State, id: Id): seq<Id>
    requires Forward(s) && id in s.rows
    decreases s.next - id
  {
    assert LinkOk(s, id);
    [id] + if s.rows[id].replacedBy.None? then [] else Walk(s, s.rows[id].replacedBy.value)
  }

  function RevokeSet(s: State, ids: set<Id>): State {
    s.(rows := map i | i in s.rows :: if i in ids then s.rows[i].(revoked := true) else s.rows[i])
  }

  function RevokeChain(s: State, id: Id): State
    requires Forward(s) && id in s.rows
  {
    RevokeSet(s, set i | i in Walk(s, id))
  }

  function RevokeEmployee(s: State, employee: Employee): State {
    RevokeSet(s, set i | i in s.rows && s.rows[i].employee == employee)
  }

  function DoLogin(s: State, employee: Employee, allowed: bool, mintedAt: int): State {
    if !allowed then s
    else s.(rows := s.rows[s.next := Token(employee, s.next, false, None, mintedAt + REFRESH_TOKEN_TTL_MS)],
            next := s.next + 1)
  }

  function RefreshOutcome(s: State, id: Id, now: int): Outcome {
    if id !in s.rows then Gone
    else if s.rows[id].revoked then Reused
    else if s.rows[id].expiresAt <= now then Gone
    else if s.rows[id].employee !in s.active then Inactive
    else Rotated(s.next)
  }

  /** Insert the successor, then revoke the old row and point it there. */
  function Rotate(s: State, id: Id, mintedAt: int): State
    requires id in s.rows
  {
    var row := s.rows[id];
    s.(rows := s.rows[s.next := Token(row.employee, row.family, false, None, mintedAt + REFRESH_TOKEN_TTL_MS)]
                     [id := row.(revoked := true, replacedBy := Some(s.next))],
       next := s.next + 1)
  }

  function DoRefresh(s: State, id: Id, now: int, mintedAt: int): State
    requires Forward(s)
  {
    match RefreshOutcome(s, id, now)
    case Gone => s
    case Reused => RevokeChain(s, id)
    case Inactive => RevokeEmployee(s, s.rows[id].employee)
    case Rotated(_) => Rotate(s, id, mintedAt)
  }

  function Next(s: State, e: Event): State
    requires Forward(s)
  {
    match e
    case Login(employee, allowed, mintedAt) => DoLogin(s, employee, allowed, mintedAt)
    case Refresh(id, now, mintedAt) => DoRefresh(s, id, now, mintedAt)
    case Logout(id) => RevokeSet(s, {id})
    case RevokeAll(employee) => RevokeEmployee(s, employee)
    case Deactivate(employee) => RevokeEmployee(s, employee).(active := s.active - {employee})
    case Activate(employee) => s.(active := s.active + {employee})
  }

  // ----- the invariant -----

  /** A family is one chain: every member but the newest points at a member no newer
      than any later one. */
  ghost predicate Chained(s: State) {
    forall i, j :: i in s.rows && j in s.rows && i < j && s.rows[i].family == s.rows[j].family ==>
      s.rows[i].replacedBy.Some? && s.rows[i].replacedBy.value <= j
  }

  /** A family is named after its first row and belongs to one employee. */
  predicate RootOk(s: State, i: Id)
    requires i in s.rows
  {
    var f := s.rows[i].family;
    f <= i && f in s.rows && s.rows[f].family == f && s.rows[f].employee == s.rows[i].employee
  }

  ghost predicate Rooted(s: State) {
    forall i {:trigger RootOk(s, i)} :: i in s.rows ==> RootOk(s, i)
  }

  ghost predicate Inv(s: State) {
    Forward(s) && Chained(s) && Rooted(s)
  }

  lemma RevokingKeepsInv(s: State, ids: set<Id>)
    requires Inv(s)
    ensures Inv(RevokeSet(s, ids))
  {
    forall i | i in s.rows
      ensures LinkOk(RevokeSet(s, ids), i) && RootOk(RevokeSet(s, ids), i)
    {
      assert LinkOk(s, i) && RootOk(s, i);
    }
  }

  lemma IdsBelowNext(s: State)
    requires Forward(s)
    ensures forall i :: i in s.rows ==> i < s.next
  {
    forall i | i in s.rows
      ensures i < s.next
    {
      assert LinkOk(s, i);
    }
  }

  /** A live row is the tip: nothing replaced it. */
  lemma LiveIsTip(s: State, id: Id)
    requires Forward(s) && Live(s, id)
    ensures s.rows[id].replacedBy.None?
  {
    assert LinkOk(s, id);
  }

  lemma LoginKeepsInv(s: State, employee: Employee, mintedAt: int)
    requires Inv(s)
    ensures Inv(DoLogin(s, employee, true, mintedAt))
  {
    var s' := DoLogin(s, employee, true, mintedAt);
    IdsBelowNext(s);
    forall i | i in s'.rows
      ensures LinkOk(s', i) && RootOk(s', i)
    {
      if i in s.rows { assert LinkOk(s, i) && RootOk(s, i); }
    }
    forall i, j | i in s'.rows && j in s'.rows && i < j && s'.rows[i].family == s'.rows[j].family
      ensures s'.rows[i].replacedBy.Some? && s'.rows[i].replacedBy.value <= j
    {
      assert i in s.rows && j in s.rows;
    }
  }

  lemma RotationStaysForward(s: State, id: Id, mintedAt: int)
    requires Forward(s) && Live(s, id)
    ensures Forward(Rotate(s, id, mintedAt))
  {
    var s' := Rotate(s, id, mintedAt);
    IdsBelowNext(s);
    forall i | i in s'.rows
      ensures LinkOk(s', i)
    {
      if i in s.rows { assert LinkOk(s, i); }
    }
  }

  lemma RotationStaysChained(s: State, id: Id, mintedAt: int)
    requires Chained(s) && id in s.rows && s.rows[id].replacedBy.None?
    requires forall i :: i in s.rows ==> i < s.next
    ensures Chained(Rotate(s, id, mintedAt))
  {
    forall i | i in s.rows && s.rows[i].family == s.rows[id].family && i != id
      ensures i < id && s.rows[i].replacedBy.Some? && s.rows[i].replacedBy.value <= id
    {
    }
  }

  lemma RotationStaysRooted(s: State, id: Id, mintedAt: int)
    requires Rooted(s) && id in s.rows
    requires forall i :: i in s.rows ==> i < s.next
    ensures Rooted(Rotate(s, id, mintedAt))
  {
    assert RootOk(s, id);
    forall i | i in Rotate(s, id, mintedAt).rows
      ensures RootOk(Rotate(s, id, mintedAt), i)
    {
      if i in s.rows { assert RootOk(s, i); }
    }
  }

  lemma RotationKeepsInv(s: State, id: Id, mintedAt: int)
    requires Inv(s) && Live(s, id)
    ensures Inv(Rotate(s, id, mintedAt))
  {
    IdsBelowNext(s);
    LiveIsTip(s, id);
    RotationStaysForward(s, id, mintedAt);
    RotationStaysChained(s, id, mintedAt);
    RotationStaysRooted(s, id, mintedAt);
  }

  lemma OnlyTheRowsMatter(s: State, s': State)
    requires Inv(s) && s'.rows == s.rows && s'.next == s.next
    ensures Inv(s')
  {
    forall i | i in s'.rows
      ensures LinkOk(s', i) && RootOk(s', i)
    {
      assert LinkOk(s, i) && RootOk(s, i);
    }
  }

  lemma NextKeepsInv(s: State, e: Event)
    requires Inv(s)
    ensures Inv(Next(s, e))
  {
    match e
    case Login(employee, allowed, mintedAt) =>
      if allowed { LoginKeepsInv(s, employee, mintedAt); }
    case Refresh(id, now, mintedAt) =>
      match RefreshOutcome(s, id, now) {
        case Gone =>
        case Reused => RevokingKeepsInv(s, set i | i in Walk(s, id));
        case Inactive => RevokingKeepsInv(s, set i | i in s.rows && s.rows[i].employee == s.rows[id].employee);
        case Rotated(_) => RotationKeepsInv(s, id, mintedAt);
      }
    case Logout(id) => RevokingKeepsInv(s, {id});
    case RevokeAll(employee) => RevokingKeepsInv(s, set i | i in s.rows && s.rows[i].employee == employee);
    case Deactivate(employee) =>
      RevokingKeepsInv(s, set i | i in s.rows && s.rows[i].employee == employee);
      OnlyTheRowsMatter(RevokeEmployee(s, employee), Next(s, e));
    case Activate(employee) => OnlyTheRowsMatter(s, Next(s, e));
  }

  /** Every state a history from the empty table passes through. */
  function Run(s: State, events: seq<Event>): (s': State)
    requires Inv(s)
    ensures Inv(s')
    decreases |events|
  {
    if events == [] then s
    else
      var last := |events| - 1;
      var before := Run(s, events[..last]);
      NextKeepsInv(before, events[last]);
      Next(before, events[last])
  }

  // ----- the theorems -----

  ghost predicate FamilyDead(s: State, family: Id) {
    forall i :: i in s.rows && s.rows[i].family == family ==> s.rows[i].revoked
  }

  /** The tokens of one login form one acyclic chain with injective `replaced_by`, and
      at most one is live: the tip. */
  lemma FamiliesAreChains(events: seq<Event>, i: Id, j: Id)
    requires i in Run(INIT, events).rows && j in Run(INIT, events).rows
    ensures var rows := Run(INIT, events).rows;
            && (rows[i].replacedBy.Some? ==> i < rows[i].replacedBy.value)
            && (rows[i].replacedBy.Some? && rows[i].replacedBy == rows[j].replacedBy ==> i == j)
            && (!rows[i].revoked ==> rows[i].replacedBy.None?)
            && (!rows[i].revoked && !rows[j].revoked && rows[i].family == rows[j].family ==> i == j)
            && (!rows[i].revoked && rows[i].family == rows[j].family ==> j <= i)
  {
    var s := Run(INIT, events);
    assert LinkOk(s, i) && LinkOk(s, j);
  }

  /** The downward walk visits exactly the members of the family from `id` on. */
  lemma {:induction false} WalkVisitsTheRest(s: State, id: Id, j: Id)
    requires Inv(s) && id in s.rows && j in s.rows
    ensures j in Walk(s, id) <==> id <= j && s.rows[j].family == s.rows[id].family
    decreases s.next - id
  {
    assert LinkOk(s, id);
    if s.rows[id].replacedBy.Some? {
      WalkVisitsTheRest(s, s.rows[id].replacedBy.value, j);
    }
  }

  /** From the first token of a login the walk visits the whole family. */
  lemma WalkFromRootIsFamily(s: State, j: Id)
    requires Inv(s) && j in s.rows
    ensures RootOk(s, j) && j in Walk(s, s.rows[j].family)
  {
    assert RootOk(s, j);
    WalkVisitsTheRest(s, s.rows[j].family, j);
  }

  /** Presenting a revoked token ends its whole family, although the walk only goes down. */
  lemma ReuseKillsTheFamily(s: State, id: Id, now: int, mintedAt: int)
    requires Inv(s) && id in s.rows && s.rows[id].revoked
    ensures RefreshOutcome(s, id, now) == Reused
    ensures FamilyDead(DoRefresh(s, id, now, mintedAt), s.rows[id].family)
  {
    var s' := DoRefresh(s, id, now, mintedAt);
    forall i | i in s'.rows && s'.rows[i].family == s.rows[id].family
      ensures s'.rows[i].revoked
    {
      WalkVisitsTheRest(s, id, i);
      assert LinkOk(s, i);
    }
  }

  lemma DeadStaysDead(s: State, e: Event, family: Id)
    requires Inv(s) && family in s.rows && FamilyDead(s, family)
    ensures family in Next(s, e).rows && FamilyDead(Next(s, e), family)
  {
    assert LinkOk(s, family);
  }

  /** A dead family is dead for ever: no later login, refresh or reset revives it. */
  lemma {:induction false} DeadForEver(s: State, events: seq<Event>, family: Id)
    requires Inv(s) && family in s.rows && FamilyDead(s, family)
    ensures family in Run(s, events).rows && FamilyDead(Run(s, events), family)
    decreases |events|
  {
    if events == [] {
    } else {
      var last := |events| - 1;
      DeadForEver(s, events[..last], family);
      DeadStaysDead(Run(s, events[..last]), events[last], family);
    }
  }

  /** Reuse is final: after it no token of the family is ever accepted again. */
  lemma ReuseIsFinal(s: State, id: Id, now: int, mintedAt: int, later: seq<Event>, member: Id, at: int)
    requires Inv(s) && id in s.rows && s.rows[id].revoked
    requires var s' := Run(DoRefreshed(s, id, now, mintedAt), later);
             member in s'.rows && s'.rows[member].family == s.rows[id].family
    ensures RefreshOutcome(Run(DoRefreshed(s, id, now, mintedAt), later), member, at) == Reused
  {
    var s1 := DoRefreshed(s, id, now, mintedAt);
    ReuseKillsTheFamily(s, id, now, mintedAt);
    assert RootOk(s, id);
    DeadForEver(s1, later, s.rows[id].family);
  }

  function DoRefreshed(s: State, id: Id, now: int, mintedAt: int): (s': State)
    requires Inv(s)
    ensures Inv(s')
  {
    NextKeepsInv(s, Refresh(id, now, mintedAt));
    DoRefresh(s, id, now, mintedAt)
  }

  /** A live, unexpired token of an active employee rotates: it dies and its successor
      is the one live token of the family. */
  lemma LiveTokensRotate(s: State, id: Id, now: int, mintedAt: int)
    requires Inv(s) && Live(s, id) && now < s.rows[id].expiresAt && s.rows[id].employee in s.active
    ensures RefreshOutcome(s, id, now) == Rotated(s.next)
    ensures var s' := DoRefresh(s, id, now, mintedAt);
            forall i :: i in s'.rows && s'.rows[i].family == s.rows[id].family ==>
                (!s'.rows[i].revoked <==> i == s.next)
  {
    var s' := DoRefresh(s, id, now, mintedAt);
    IdsBelowNext(s);
    forall i | i in s.rows && s.rows[i].family == s.rows[id].family && i != id
      ensures s.rows[i].revoked
    {
      assert LinkOk(s, i) && LinkOk(s, id);
    }
  }

  // ----- what each event comes to, row by row -----

  /** A token that is known, was never used or revoked, and has not expired at `now`. */
  predicate Usable(s: State, id: Id, now: int) {
    id in s.rows && !s.rows[id].revoked && now < s.rows[id].expiresAt
  }

  /** The verdict of a refresh, each case on its own. */
  lemma RefreshIsDecided(s: State, id: Id, now: int)
    ensures RefreshOutcome(s, id, now).Rotated? <==> Usable(s, id, now) && s.rows[id].employee in s.active
    ensures RefreshOutcome(s, id, now).Rotated? ==> RefreshOutcome(s, id, now).successor == s.next
    ensures RefreshOutcome(s, id, now).Inactive? <==> Usable(s, id, now) && s.rows[id].employee !in s.active
    ensures RefreshOutcome(s, id, now).Reused? <==> id in s.rows && s.rows[id].revoked
    ensures RefreshOutcome(s, id, now).Gone? <==>
              id !in s.rows || (!s.rows[id].revoked && s.rows[id].expiresAt <= now)
  {
  }

  /** The event ends the token `i`: it is rotated, or reuse was noticed at it or before it
      in its family, or an unexpired token of its employee was presented while the
      employee is inactive, or it was logged out, or all tokens of its employee were. */
  predicate Ends(s: State, e: Event, i: Id)
    requires i in s.rows
  {
    match e
    case Login(_, _, _) => false
    case Activate(_) => false
    case Refresh(id, now, _) =>
      || (id in s.rows && s.rows[id].revoked && s.rows[i].family == s.rows[id].family && id <= i)
      || (Usable(s, id, now) && s.rows[id].employee in s.active && i == id)
      || (Usable(s, id, now) && s.rows[id].employee !in s.active && s.rows[i].employee == s.rows[id].employee)
    case Logout(id) => i == id
    case RevokeAll(employee) => s.rows[i].employee == employee
    case Deactivate(employee) => s.rows[i].employee == employee
  }

  /** Every row but a rotated one keeps everything except that it may end, and it ends
      exactly when the event says so. */
  lemma RowsEndExactly(s: State, e: Event, i: Id)
    requires Inv(s) && i in s.rows
    ensures i in Next(s, e).rows
    ensures var row, row' := s.rows[i], Next(s, e).rows[i];
            && row' == row.(revoked := row'.revoked, replacedBy := row'.replacedBy)
            && (row'.revoked <==> row.revoked || Ends(s, e, i))
            && (row'.replacedBy != row.replacedBy ==>
                  e.Refresh? && i == e.id && Usable(s, i, e.now) && row'.replacedBy == Some(s.next))
  {
    IdsBelowNext(s);
    if e.Refresh? {
      RefreshIsDecided(s, e.id, e.now);
      if e.id in s.rows && s.rows[e.id].revoked { WalkVisitsTheRest(s, e.id, i); }
    }
  }

  /** A row is added exactly by an allowed login and by a rotation: live, under a new id,
      good for sixty days, as the first of a family or as the next of an old one. */
  lemma RowsBeginExactly(s: State, e: Event)
    requires Inv(s)
    ensures var s' := Next(s, e);
            var rotates := e.Refresh? && Usable(s, e.id, e.now) && s.rows[e.id].employee in s.active;
            && s.next !in s.rows
            && s'.rows.Keys == s.rows.Keys + (if rotates || (e.Login? && e.allowed) then {s.next} else {})
            && (rotates ==> s'.rows[e.id].replacedBy == Some(s.next))
            && (rotates ==> var used := s.rows[e.id];
                  s'.rows[s.next] == Token(used.employee, used.family, false, None, e.mintedAt + 5184000000))
            && (e.Login? && e.allowed ==>
                  s'.rows[s.next] == Token(e.employee, s.next, false, None, e.mintedAt + 5184000000))
  {
    IdsBelowNext(s);
    if e.Refresh? { RefreshIsDecided(s, e.id, e.now); }
  }

  /** Who is active is decided by deactivation and activation alone. */
  lemma ActiveExactly(s: State, e: Event, who: Employee)
    requires Inv(s)
    ensures who in Next(s, e).active <==>
              (who in s.active && e != Deactivate(who)) || e == Activate(who)
  {
  }

  /** All tokens of this login have expired by `from`, and `known` are all there are. */
  ghost predicate Expired(s: State, family: Id, from: int, known: set<Id>) {
    && family in s.rows
    && forall i :: i in s.rows && s.rows[i].family == family ==> s.rows[i].expiresAt <= from && i in known
  }

  /** The refreshes of a history happen at `from` or later. */
  predicate NotBefore(events: seq<Event>, from: int) {
    forall e :: e in events && e.Refresh? ==> from <= e.now
  }

  lemma ExpiredStep(s: State, e: Event, family: Id, from: int, known: set<Id>)
    requires Inv(s) && Expired(s, family, from, known) && (e.Refresh? ==> from <= e.now)
    ensures Expired(Next(s, e), family, from, known)
  {
    RowsBeginExactly(s, e);
    IdsBelowNext(s);
    forall i | i in s.rows
      ensures i in Next(s, e).rows && Next(s, e).rows[i].family == s.rows[i].family
      ensures Next(s, e).rows[i].expiresAt == s.rows[i].expiresAt
    {
      RowsEndExactly(s, e, i);
    }
  }

  lemma {:induction false} ExpiredRun(s: State, events: seq<Event>, family: Id, from: int, known: set<Id>)
    requires Inv(s) && Expired(s, family, from, known) && NotBefore(events, from)
    ensures Expired(Run(s, events), family, from, known)
    decreases |events|
  {
    if events != [] {
      var last := |events| - 1;
      ExpiredRun(s, events[..last], family, from, known);
      assert events[last] in events;
      ExpiredStep(Run(s, events[..last]), events[last], family, from, known);
    }
  }

  /** An expired login is over: no refresh, of whatever token, ever adds a token to it. */
  lemma {:induction false} ExpiryIsFinal(s: State, events: seq<Event>, family: Id, from: int, i: Id)
    requires Inv(s) && family in s.rows && NotBefore(events, from)
    requires forall j :: j in s.rows && s.rows[j].family == family ==> s.rows[j].expiresAt <= from
    requires i in Run(s, events).rows && Run(s, events).rows[i].family == family
    ensures i in s.rows && Run(s, events).rows[i].expiresAt <= from
    decreases |events|
  {
    ExpiredRun(s, events, family, from, s.rows.Keys);
  }

  /** The table once the rows of `trail` are marked. */
  function Marked(s: State, trail: seq<Id>): map<Id, Token> {
    RevokeSet(s, set i | i in trail).rows
  }

  /** The walk has visited `trail` and stands at `at`; all it left behind was revoked before. */
  ghost predicate WalkedTo(s: State, id: Id, trail: seq<Id>, at: Id) {
    && Forward(s) && id in s.rows && at in s.rows
    && Walk(s, id) == trail + Walk(s, at)
    && forall i :: i in trail ==> i in s.rows && s.rows[i].revoked
  }

  lemma MarkOne(s: State, trail: seq<Id>, at: Id)
    requires at in s.rows
    ensures at in Marked(s, trail)
    ensures Marked(s, trail + [at]) == Marked(s, trail)[at := Marked(s, trail)[at].(revoked := true)]
    ensures Marked(s, trail)[at].replacedBy == s.rows[at].replacedBy
    ensures at !in trail ==> Marked(s, trail)[at].revoked == s.rows[at].revoked
  {
  }

  lemma NothingMarked(s: State)
    ensures Marked(s, []) == s.rows
  {
  }

  lemma WalkOn(s: State, id: Id, trail: seq<Id>, at: Id)
    requires WalkedTo(s, id, trail, at)
    ensures s.rows[at].replacedBy.None? ==> Walk(s, id) == trail + [at]
    ensures s.rows[at].replacedBy.Some? ==>
              var n := s.rows[at].replacedBy.value; at < n < s.next && WalkedTo(s, id, trail + [at], n)
    ensures at < s.next && (s.rows[at].revoked || s.rows[at].replacedBy.None?)
    ensures at in trail ==> s.rows[at].revoked
  {
    assert LinkOk(s, at);
    if s.rows[at].replacedBy.Some? {
      var n := s.rows[at].replacedBy.value;
      assert trail + ([at] + Walk(s, n)) == trail + [at] + Walk(s, n);
    }
  }

  lemma WalkedThrough(s: State, id: Id, trail: seq<Id>)
    requires Forward(s) && id in s.rows && Walk(s, id) == trail
    ensures s.(rows := Marked(s, trail)) == RevokeChain(s, id)
  {
  }

  // ----- the table in its own form -----

  class TokenTable {
    var rows: map<Id, Token>
    var active: set<Employee>
    var next: Id

    function View(): State
      reads this
    {
      State(rows, active, next)
    }

    constructor ()
      ensures View() == INIT
    {
      rows, active, next := map[], {}, 0;
    }

    /** Mark one row revoked. */
    method Revoke(id: Id)
      requires id in rows
      modifies this`rows
      ensures rows == old(rows)[id := old(rows)[id].(revoked := true)]
    {
      rows := rows[id := rows[id].(revoked := true)];
    }

    /** The recursive walk down `replaced_by`, marking every live row it meets. */
    method RevokeChainFrom(id: Id) returns (newly: seq<Id>)
      requires Forward(View()) && id in rows
      modifies this`rows
      ensures View() == RevokeChain(old(View()), id)
      ensures forall i :: i in newly <==> i in Walk(old(View()), id) && Live(old(View()), i)
      ensures |newly| <= 1
    {
      ghost var before := View();
      ghost var trail := [];
      var at := id;
      newly := [];
      NothingMarked(before);
      while true
        invariant WalkedTo(before, id, trail, at)
        invariant rows == Marked(before, trail)
        invariant newly == []
        decreases next - at
      {
        MarkOne(before, trail, at);
        WalkOn(before, id, trail, at);
        if !rows[at].revoked {
          newly := [at];
        }
        Revoke(at);
        trail := trail + [at];
        if rows[at].replacedBy.None? {
          break;
        }
        at := rows[at].replacedBy.value;
      }
      WalkedThrough(before, id, trail);
    }

    method RevokeAllForEmployee(employee: Employee)
      modifies this`rows
      ensures View() == RevokeEmployee(old(View()), employee)
    {
      rows := map i | i in rows :: if rows[i].employee == employee then rows[i].(revoked := true) else rows[i];
    }

    method InsertRefreshToken(token: Token) returns (id: Id)
      modifies this`rows, this`next
      ensures id == old(next) && next == id + 1 && rows == old(rows)[id := token]
    {
      id := next;
      rows := rows[id := token];
      next := next + 1;
    }

    /** login: a new family of one. */
    method IssueForLogin(employee: Employee, allowed: bool, mintedAt: int)
      modifies this
      ensures View() == DoLogin(old(View()), employee, allowed, mintedAt)
    {
      if allowed {
        var id := InsertRefreshToken(Token(employee, next, false, None, mintedAt + REFRESH_TOKEN_TTL_MS));
      }
    }

    /** refresh: the refusals are decided inside the transaction and reported after it commits. */
    method RefreshToken(id: Id, now: int, mintedAt: int) returns (outcome: Outcome)
      requires Inv(View())
      modifies this
      ensures outcome == RefreshOutcome(old(View()), id, now)
      ensures View() == DoRefresh(old(View()), id, now, mintedAt)
      ensures Inv(View())
    {
      ghost var before := View();
      NextKeepsInv(before, Refresh(id, now, mintedAt));
      if id !in rows {
        return Gone;
      }
      var row := rows[id];
      if row.revoked {
        var newly := RevokeChainFrom(id);
        return Reused;
      }
      if row.expiresAt <= now {
        return Gone;
      }
      if row.employee !in active {
        RevokeAllForEmployee(row.employee);
        return Inactive;
      }
      var newId := InsertRefreshToken(Token(row.employee, row.family, false, None, mintedAt + REFRESH_TOKEN_TTL_MS));
      rows := rows[id := row.(revoked := true, replacedBy := Some(newId))];
      return Rotated(newId);
    }

    /** logout: exactly the presented token, if there is one. */
    method RevokeByHash(id: Id)
      modifies this`rows
      ensures View() == RevokeSet(old(View()), {id})
    {
      if id in rows && !rows[id].revoked {
        Revoke(id);
      }
      assert rows == RevokeSet(old(View()), {id}).rows;
    }
  }
}

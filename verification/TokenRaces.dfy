/**
 * What `RefreshTokens` treats as one step, statement by statement: a rotation of
 * apps/api/src/modules/auth/service.ts holds the lock of its row from its SELECT FOR UPDATE
 * to its COMMIT, and a revoking UPDATE of apps/api/src/modules/auth/repo.ts chooses its
 * rows in one snapshot and marks them later, waiting for each locked row and skipping it if
 * it was revoked meanwhile.  All rows of one UPDATE are marked in one event, at the moment
 * of the last; a rotation of a row marked before that moment would have waited.
 */
module TokenRaces {
  import opened Prelude
  import T = RefreshTokens

  type Tx = nat

  /** What an UPDATE sets out to revoke: the chain below a token, or all of an employee. */
  datatype Sweep = Chain(id: T.Id) | Everyone(employee: T.Employee)

  /** A sweep after its snapshot; `horizon` is the first id its snapshot could not see. */
  datatype Chosen = Chosen(sweep: Sweep, targets: set<T.Id>, horizon: T.Id)

  datatype World = World(tokens: T.State, rotating: map<Tx, T.Id>, sweeping: map<Tx, Chosen>)

  datatype Event =
    | Lock(tx: Tx, id: T.Id, now: int)
    | Rotate(tx: Tx, mintedAt: int)
    | Abandon(tx: Tx)
    | Snapshot(tx: Tx, sweep: Sweep)
    | Apply(tx: Tx)
    | Login(employee: T.Employee, allowed: bool, mintedAt: int)
    | Logout(id: T.Id)
    | SetActive(employee: T.Employee, active: bool)

  const INIT := World(T.INIT, map[], map[])

  predicate Locked(w: World, id: T.Id) {
    exists tx :: tx in w.rotating && w.rotating[tx] == id
  }

  /** revokeChainFrom is called for a token already revoked. */
  predicate Starts(s: T.State, sweep: Sweep) {
    sweep.Chain? ==> sweep.id in s.rows && s.rows[sweep.id].revoked
  }

  /** The rows the sweep is meant for. */
  predicate InScope(s: T.State, sweep: Sweep, i: T.Id)
    requires sweep.Chain? ==> sweep.id in s.rows
  {
    i in s.rows &&
    match sweep
    case Chain(id) => s.rows[i].family == s.rows[id].family
    case Everyone(employee) => s.rows[i].employee == employee
  }

  /** The rows its snapshot chooses. */
  function Targets(s: T.State, sweep: Sweep): set<T.Id>
    requires T.Forward(s) && Starts(s, sweep)
  {
    match sweep
    case Chain(id) => set i | i in T.Walk(s, id)
    case Everyone(employee) => set i | i in s.rows && s.rows[i].employee == employee
  }

  predicate Blocked(w: World, tx: Tx)
    requires tx in w.sweeping
  {
    exists r :: r in w.rotating && w.rotating[r] in w.sweeping[tx].targets
  }

  function Next(w: World, e: Event): World
    requires Inv(w)
  {
    match e
    case Lock(tx, id, now) =>
      if tx in w.rotating || Locked(w, id) || !T.RefreshOutcome(w.tokens, id, now).Rotated? then w
      else w.(rotating := w.rotating[tx := id])
    case Rotate(tx, mintedAt) =>
      if tx !in w.rotating then w
      else
        assert RotatingOk(w, tx);
        w.(tokens := T.Rotate(w.tokens, w.rotating[tx], mintedAt), rotating := w.rotating - {tx})
    case Abandon(tx) => w.(rotating := w.rotating - {tx})
    case Snapshot(tx, sweep) =>
      if tx in w.sweeping || !Starts(w.tokens, sweep) then w
      else w.(sweeping := w.sweeping[tx := Chosen(sweep, Targets(w.tokens, sweep), w.tokens.next)])
    case Apply(tx) =>
      if tx !in w.sweeping || Blocked(w, tx) then w
      else w.(tokens := T.RevokeSet(w.tokens, w.sweeping[tx].targets), sweeping := w.sweeping - {tx})
    case Login(employee, allowed, mintedAt) => w.(tokens := T.DoLogin(w.tokens, employee, allowed, mintedAt))
    case Logout(id) => if Locked(w, id) then w else w.(tokens := T.RevokeSet(w.tokens, {id}))
    case SetActive(employee, active) =>
      w.(tokens := w.tokens.(active := if active then w.tokens.active + {employee} else w.tokens.active - {employee}))
  }

  // ----- the invariant -----

  predicate RotatingOk(w: World, tx: Tx)
    requires tx in w.rotating
  {
    T.Live(w.tokens, w.rotating[tx])
  }

  ghost predicate RotationsOk(w: World) {
    && (forall tx {:trigger RotatingOk(w, tx)} :: tx in w.rotating ==> RotatingOk(w, tx))
    && (forall r, q :: r in w.rotating && q in w.rotating && r != q ==> w.rotating[r] != w.rotating[q])
  }

  /** What was in the snapshot's sight and still lives was chosen, and nothing else was. */
  ghost predicate ChosenOk(s: T.State, c: Chosen) {
    && Starts(s, c.sweep) && c.horizon <= s.next
    && (forall i :: i in c.targets ==> i < c.horizon)
    && (forall i: T.Id :: T.Live(s, i) && InScope(s, c.sweep, i) && i < c.horizon ==> i in c.targets)
  }

  ghost predicate Inv(w: World) {
    && T.Inv(w.tokens)
    && RotationsOk(w)
    && (forall tx {:trigger ChosenOk(w.tokens, w.sweeping[tx])} :: tx in w.sweeping ==>
        ChosenOk(w.tokens, w.sweeping[tx]))
  }

  /** Tokens are never removed, never change hands and never come back to life. */
  ghost predicate Grown(s: T.State, s': T.State) {
    && s.next <= s'.next
    && (forall i :: i in s.rows ==> KeptRow(s, s', i))
    && (forall i :: i in s'.rows && i !in s.rows ==> s.next <= i)
  }

  predicate KeptRow(s: T.State, s': T.State, i: T.Id)
    requires i in s.rows
  {
    && i in s'.rows && s'.rows[i].family == s.rows[i].family && s'.rows[i].employee == s.rows[i].employee
    && (s.rows[i].revoked ==> s'.rows[i].revoked)
  }

  lemma ChosenStaysOk(s: T.State, s': T.State, c: Chosen)
    requires ChosenOk(s, c) && Grown(s, s')
    ensures ChosenOk(s', c)
  {
    assert c.sweep.Chain? ==> KeptRow(s, s', c.sweep.id);
    forall i: T.Id | T.Live(s', i) && InScope(s', c.sweep, i) && i < c.horizon
      ensures i in c.targets
    {
      assert i in s.rows && KeptRow(s, s', i);
    }
  }

  lemma AllChosenStayOk(w: World, s': T.State)
    requires Inv(w) && Grown(w.tokens, s')
    ensures forall tx :: tx in w.sweeping ==> ChosenOk(s', w.sweeping[tx])
  {
    forall tx | tx in w.sweeping
      ensures ChosenOk(s', w.sweeping[tx])
    {
      assert ChosenOk(w.tokens, w.sweeping[tx]);
      ChosenStaysOk(w.tokens, s', w.sweeping[tx]);
    }
  }

  /** A fresh snapshot chooses all the live rows it is meant for. */
  lemma SnapshotIsOk(s: T.State, sweep: Sweep)
    requires T.Inv(s) && Starts(s, sweep)
    ensures ChosenOk(s, Chosen(sweep, Targets(s, sweep), s.next))
    ensures forall i :: i in Targets(s, sweep) ==> InScope(s, sweep, i)
  {
    T.IdsBelowNext(s);
    forall i | i in s.rows && sweep.Chain?
      ensures i in Targets(s, sweep) <==> sweep.id <= i && s.rows[i].family == s.rows[sweep.id].family
    {
      T.WalkVisitsTheRest(s, sweep.id, i);
    }
    forall i | i in Targets(s, sweep)
      ensures InScope(s, sweep, i)
    {
      if sweep.Chain? {
        WalkStaysInRows(s, sweep.id, i);
        T.WalkVisitsTheRest(s, sweep.id, i);
      }
    }
    forall i: T.Id | T.Live(s, i) && InScope(s, sweep, i)
      ensures i in Targets(s, sweep)
    {
      if sweep.Chain? {
        LiveIsNewest(s, i, sweep.id);
      }
    }
  }

  lemma LiveIsNewest(s: T.State, i: T.Id, j: T.Id)
    requires T.Inv(s) && T.Live(s, i) && j in s.rows && s.rows[j].family == s.rows[i].family
    ensures j <= i
  {
    T.LiveIsTip(s, i);
  }

  lemma {:induction false} WalkStaysInRows(s: T.State, id: T.Id, i: T.Id)
    requires T.Forward(s) && id in s.rows && i in T.Walk(s, id)
    ensures i in s.rows
    decreases s.next - id
  {
    assert T.LinkOk(s, id);
    if i == id {
    } else {
      WalkStaysInRows(s, s.rows[id].replacedBy.value, i);
    }
  }

  lemma LockKeepsInv(w: World, tx: Tx, id: T.Id, now: int)
    requires Inv(w)
    ensures Inv(Next(w, Lock(tx, id, now)))
  {
    var w' := Next(w, Lock(tx, id, now));
    forall r | r in w'.rotating
      ensures RotatingOk(w', r)
    {
      if r in w.rotating { assert RotatingOk(w, r); }
    }
  }

  lemma RotateKeepsInv(w: World, tx: Tx, mintedAt: int)
    requires Inv(w)
    ensures Inv(Next(w, Rotate(tx, mintedAt)))
  {
    if tx in w.rotating {
      var id := w.rotating[tx];
      assert RotatingOk(w, tx);
      var s' := T.Rotate(w.tokens, id, mintedAt);
      T.RotationKeepsInv(w.tokens, id, mintedAt);
      T.IdsBelowNext(w.tokens);
      AllChosenStayOk(w, s');
      var w' := Next(w, Rotate(tx, mintedAt));
      forall r | r in w'.rotating
        ensures RotatingOk(w', r)
      {
        assert RotatingOk(w, r);
      }
    }
  }

  lemma RevokingIsGrowth(s: T.State, ids: set<T.Id>)
    ensures Grown(s, T.RevokeSet(s, ids))
  {
  }

  /** Revoking rows nobody is rotating disturbs no rotation. */
  lemma RevokingKeepsInv(w: World, w': World, ids: set<T.Id>)
    requires Inv(w) && w'.tokens == T.RevokeSet(w.tokens, ids) && w'.rotating == w.rotating
    requires forall tx :: tx in w'.sweeping ==> tx in w.sweeping && w'.sweeping[tx] == w.sweeping[tx]
    requires forall r :: r in w.rotating ==> w.rotating[r] !in ids
    ensures Inv(w')
  {
    T.RevokingKeepsInv(w.tokens, ids);
    RevokingIsGrowth(w.tokens, ids);
    AllChosenStayOk(w, w'.tokens);
    forall r | r in w'.rotating
      ensures RotatingOk(w', r)
    {
      assert RotatingOk(w, r);
    }
  }

  lemma SnapshotKeepsInv(w: World, tx: Tx, sweep: Sweep)
    requires Inv(w)
    ensures Inv(Next(w, Snapshot(tx, sweep)))
  {
    var w' := Next(w, Snapshot(tx, sweep));
    if w' != w {
      SnapshotIsOk(w.tokens, sweep);
      forall q | q in w'.sweeping
        ensures ChosenOk(w'.tokens, w'.sweeping[q])
      {
        if q != tx { assert ChosenOk(w.tokens, w.sweeping[q]); }
      }
      forall r | r in w'.rotating
        ensures RotatingOk(w', r)
      {
        assert RotatingOk(w, r);
      }
    }
  }

  /** A login or a change of `is_active` disturbs nobody. */
  lemma TokensGrow(w: World, s': T.State)
    requires Inv(w) && T.Inv(s') && Grown(w.tokens, s')
    requires forall i :: i in w.tokens.rows ==> s'.rows[i] == w.tokens.rows[i]
    ensures Inv(w.(tokens := s'))
  {
    AllChosenStayOk(w, s');
    forall r | r in w.rotating
      ensures RotatingOk(w.(tokens := s'), r)
    {
      assert RotatingOk(w, r);
    }
  }

  lemma NextKeepsInv(w: World, e: Event)
    requires Inv(w)
    ensures Inv(Next(w, e))
  {
    match e
    case Lock(tx, id, now) => LockKeepsInv(w, tx, id, now);
    case Rotate(tx, mintedAt) => RotateKeepsInv(w, tx, mintedAt);
    case Abandon(tx) => AbandonKeepsInv(w, tx);
    case Snapshot(tx, sweep) => SnapshotKeepsInv(w, tx, sweep);
    case Apply(tx) =>
      if Next(w, e) != w { RevokingKeepsInv(w, Next(w, e), w.sweeping[tx].targets); }
    case Login(employee, allowed, mintedAt) =>
      if allowed {
        T.LoginKeepsInv(w.tokens, employee, mintedAt);
        T.IdsBelowNext(w.tokens);
        TokensGrow(w, T.DoLogin(w.tokens, employee, true, mintedAt));
      }
    case Logout(id) =>
      if Next(w, e) != w { RevokingKeepsInv(w, Next(w, e), {id}); }
    case SetActive(employee, active) =>
      T.OnlyTheRowsMatter(w.tokens, Next(w, e).tokens);
      TokensGrow(w, Next(w, e).tokens);
  }

  lemma AbandonKeepsInv(w: World, tx: Tx)
    requires Inv(w)
    ensures Inv(Next(w, Abandon(tx)))
  {
    var w' := Next(w, Abandon(tx));
    forall r | r in w'.rotating
      ensures RotatingOk(w', r)
    {
      assert RotatingOk(w, r);
    }
    forall q | q in w'.sweeping
      ensures ChosenOk(w'.tokens, w'.sweeping[q])
    {
      assert ChosenOk(w.tokens, w.sweeping[q]);
    }
  }

  function Run(w: World, events: seq<Event>): (w': World)
    requires Inv(w)
    ensures Inv(w')
    decreases |events|
  {
    if events == [] then w
    else
      var last := |events| - 1;
      NextKeepsInv(Run(w, events[..last]), events[last]);
      Next(Run(w, events[..last]), events[last])
  }

  // ----- the theorems -----

  /** No token the sweep is meant for is live. */
  ghost predicate Dead(s: T.State, sweep: Sweep)
    requires sweep.Chain? ==> sweep.id in s.rows
  {
    forall i: T.Id :: InScope(s, sweep, i) ==> s.rows[i].revoked
  }

  /** Live and meant, but minted after the snapshot. */
  predicate Missed(s: T.State, c: Chosen, i: T.Id)
    requires c.sweep.Chain? ==> c.sweep.id in s.rows
  {
    T.Live(s, i) && InScope(s, c.sweep, i) && c.horizon <= i
  }

  /** In every reachable state a sweep leaves nothing it was meant for alive exactly when no
      such token was minted since its snapshot and is still live. */
  lemma SweepsAreCompleteExactlyWhenNothingWasMinted(events: seq<Event>, tx: Tx)
    requires tx in Run(INIT, events).sweeping && !Blocked(Run(INIT, events), tx)
    ensures var w := Run(INIT, events); var c := w.sweeping[tx]; var w' := Next(w, Apply(tx));
            && Starts(w.tokens, c.sweep) && Starts(w'.tokens, c.sweep)
            && (Dead(w'.tokens, c.sweep) <==> forall i: T.Id :: !Missed(w.tokens, c, i))
  {
    var w := Run(INIT, events);
    var c := w.sweeping[tx];
    var s' := Next(w, Apply(tx)).tokens;
    assert ChosenOk(w.tokens, c);
    forall i | InScope(w.tokens, c.sweep, i)
      ensures s'.rows[i].revoked <==> !Missed(w.tokens, c, i)
    {
    }
  }

  /** An event that mints a token the sweep is meant for. */
  predicate Mints(w: World, e: Event, sweep: Sweep)
    requires sweep.Chain? ==> sweep.id in w.tokens.rows
  {
    || (e.Rotate? && e.tx in w.rotating && InScope(w.tokens, sweep, w.rotating[e.tx]))
    || (e.Login? && e.allowed && sweep == Everyone(e.employee))
  }

  ghost predicate Quiet(w: World, events: seq<Event>, sweep: Sweep)
    requires Inv(w) && Starts(w.tokens, sweep)
    decreases |events|
  {
    events == [] ||
    (&& !Mints(w, events[0], sweep)
     && (NextKeepsInv(w, events[0]); StartsStays(w, events[0], sweep); Quiet(Next(w, events[0]), events[1..], sweep)))
  }

  ghost function RunOn(w: World, events: seq<Event>): (w': World)
    requires Inv(w)
    ensures Inv(w')
    decreases |events|
  {
    if events == [] then w
    else NextKeepsInv(w, events[0]); RunOn(Next(w, events[0]), events[1..])
  }

  lemma StartsStays(w: World, e: Event, sweep: Sweep)
    requires Inv(w) && Starts(w.tokens, sweep)
    ensures Starts(Next(w, e).tokens, sweep)
  {
    T.IdsBelowNext(w.tokens);
  }

  ghost predicate NothingMissed(s: T.State, c: Chosen)
    requires c.sweep.Chain? ==> c.sweep.id in s.rows
  {
    forall i: T.Id :: !Missed(s, c, i)
  }

  lemma QuietStep(w: World, e: Event, c: Chosen)
    requires Inv(w) && Starts(w.tokens, c.sweep) && NothingMissed(w.tokens, c) && !Mints(w, e, c.sweep)
    ensures Starts(Next(w, e).tokens, c.sweep) && NothingMissed(Next(w, e).tokens, c)
  {
    StartsStays(w, e, c.sweep);
    T.IdsBelowNext(w.tokens);
    assert c.sweep.Chain? ==> T.RootOk(w.tokens, c.sweep.id);
    assert e.Rotate? && e.tx in w.rotating ==> RotatingOk(w, e.tx);
    forall i: T.Id
      ensures !Missed(Next(w, e).tokens, c, i)
    {
      assert !Missed(w.tokens, c, i);
    }
  }

  /** Between a snapshot and its updates anything may happen but a rotation or a login of
      what it is meant for: then the sweep is complete. */
  lemma {:induction false} QuietSweepsAreComplete(w: World, events: seq<Event>, c: Chosen)
    requires Inv(w) && Starts(w.tokens, c.sweep) && NothingMissed(w.tokens, c) && Quiet(w, events, c.sweep)
    ensures Starts(RunOn(w, events).tokens, c.sweep) && NothingMissed(RunOn(w, events).tokens, c)
    decreases |events|
  {
    if events == [] {
    } else {
      NextKeepsInv(w, events[0]);
      StartsStays(w, events[0], c.sweep);
      QuietStep(w, events[0], c);
      QuietSweepsAreComplete(Next(w, events[0]), events[1..], c);
    }
  }

  /** Undisturbed, a sweep is the one step `RefreshTokens` makes of it, and complete. */
  lemma UndisturbedSweepIsOneStep(w: World, tx: Tx, sweep: Sweep)
    requires Inv(w) && tx !in w.sweeping && Starts(w.tokens, sweep)
    requires forall r :: r in w.rotating ==> !InScope(w.tokens, sweep, w.rotating[r])
    ensures Inv(Next(w, Snapshot(tx, sweep)))
    ensures var s' := Next(Next(w, Snapshot(tx, sweep)), Apply(tx)).tokens;
            && s' == (if sweep.Chain?
                      then T.RevokeChain(w.tokens, sweep.id)
                      else T.RevokeEmployee(w.tokens, sweep.employee))
            && Starts(s', sweep) && Dead(s', sweep)
  {
    var w1 := Next(w, Snapshot(tx, sweep));
    NextKeepsInv(w, Snapshot(tx, sweep));
    SnapshotIsOk(w.tokens, sweep);
    assert !Blocked(w1, tx);
    T.IdsBelowNext(w.tokens);
  }

  /** A rotation of the family's tip that is under way at the snapshot decides: if it is
      abandoned the reuse kills the family, if it commits its successor lives on. */
  lemma RotationInFlightDecides(w: World, r: Tx, tx: Tx, id: T.Id, mintedAt: int)
    requires Inv(w) && r in w.rotating && tx !in w.sweeping && Starts(w.tokens, Chain(id))
    requires InScope(w.tokens, Chain(id), w.rotating[r])
    requires forall q :: q in w.rotating && q != r ==> !InScope(w.tokens, Chain(id), w.rotating[q])
    ensures var w1 := Next(w, Snapshot(tx, Chain(id)));
            && Inv(w1) && tx in w1.sweeping
            && Inv(Next(w1, Abandon(r))) && Inv(Next(w1, Rotate(r, mintedAt)))
            && var abandoned := Next(Next(w1, Abandon(r)), Apply(tx)).tokens;
               var rotated := Next(Next(w1, Rotate(r, mintedAt)), Apply(tx)).tokens;
            && Starts(abandoned, Chain(id)) && Dead(abandoned, Chain(id))
            && Starts(rotated, Chain(id)) && T.Live(rotated, w.tokens.next) && !Dead(rotated, Chain(id))
  {
    var w1 := Next(w, Snapshot(tx, Chain(id)));
    NextKeepsInv(w, Snapshot(tx, Chain(id)));
    NextKeepsInv(w1, Abandon(r));
    NextKeepsInv(w1, Rotate(r, mintedAt));
    SnapshotIsOk(w.tokens, Chain(id));
    T.IdsBelowNext(w.tokens);
    assert RotatingOk(w, r);
    assert !Blocked(Next(w1, Abandon(r)), tx);
    assert !Blocked(Next(w1, Rotate(r, mintedAt)), tx);
    assert InScope(Next(Next(w1, Rotate(r, mintedAt)), Apply(tx)).tokens, Chain(id), w.tokens.next);
  }

  // ----- what each event comes to -----

  /** A rotation gets under way exactly for a token that is usable, of an active employee,
      and that no other rotation holds. */
  lemma LocksExactly(w: World, tx: Tx, id: T.Id, now: int)
    requires Inv(w) && tx !in w.rotating
    ensures var w' := Next(w, Lock(tx, id, now));
            && (tx in w'.rotating <==>
                  T.Usable(w.tokens, id, now) && w.tokens.rows[id].employee in w.tokens.active
                  && forall r :: r in w.rotating ==> w.rotating[r] != id)
            && (tx in w'.rotating ==> w'.rotating == w.rotating[tx := id])
            && w'.tokens == w.tokens && w'.sweeping == w.sweeping
  {
    T.RefreshIsDecided(w.tokens, id, now);
  }

  /** Which rotations and sweeps are under way: a rotation from its lock to its commit or
      its end without one, a sweep from its snapshot to its update, which waits for the
      rotations that hold a row it chose. */
  lemma TransactionsMoveExactly(w: World, e: Event)
    requires Inv(w)
    ensures var w' := Next(w, e);
            && w'.rotating == (match e
                               case Lock(tx, _, _) =>
                                 if tx !in w'.rotating || tx in w.rotating then w.rotating
                                 else w.rotating[tx := w'.rotating[tx]]
                               case Rotate(tx, _) => w.rotating - {tx}
                               case Abandon(tx) => w.rotating - {tx}
                               case _ => w.rotating)
            && w'.sweeping == (match e
                               case Snapshot(tx, _) =>
                                 if tx !in w'.sweeping || tx in w.sweeping then w.sweeping
                                 else w.sweeping[tx := w'.sweeping[tx]]
                               case Apply(tx) =>
                                 if tx in w.sweeping
                                    && exists r :: r in w.rotating && w.rotating[r] in w.sweeping[tx].targets
                                 then w.sweeping
                                 else w.sweeping - {tx}
                               case _ => w.sweeping)
  {
  }

  /** The event ends the token `i`: its rotation commits, an unblocked sweep chose it, or
      it is logged out while nobody holds it. */
  predicate Ends(w: World, e: Event, i: T.Id) {
    match e
    case Rotate(tx, _) => tx in w.rotating && w.rotating[tx] == i
    case Apply(tx) => tx in w.sweeping && !Blocked(w, tx) && i in w.sweeping[tx].targets
    case Logout(id) => i == id && !Locked(w, id)
    case _ => false
  }

  /** Row by row: a token ends exactly when the event says so, and keeps the rest; a token
      is added exactly by a committed rotation and by an allowed login. */
  lemma RowsChangeExactly(w: World, e: Event, i: T.Id)
    requires Inv(w) && i in w.tokens.rows
    ensures var s, s' := w.tokens, Next(w, e).tokens;
            && i in s'.rows
            && s'.rows[i] == s.rows[i].(revoked := s'.rows[i].revoked, replacedBy := s'.rows[i].replacedBy)
            && (s'.rows[i].revoked <==> s.rows[i].revoked || Ends(w, e, i))
            && (s'.rows[i].replacedBy != s.rows[i].replacedBy ==> e.Rotate? && Ends(w, e, i))
            && s'.rows.Keys == s.rows.Keys +
                 (if (e.Rotate? && e.tx in w.rotating) || (e.Login? && e.allowed) then {s.next} else {})
  {
    T.IdsBelowNext(w.tokens);
    assert e.Rotate? && e.tx in w.rotating ==> RotatingOk(w, e.tx);
  }

  /** The token a committed rotation adds. */
  lemma SuccessorsAreMinted(w: World, tx: Tx, mintedAt: int)
    requires Inv(w) && tx in w.rotating
    ensures var s, s', id := w.tokens, Next(w, Rotate(tx, mintedAt)).tokens, w.rotating[tx];
            && id in s.rows && s.next in s'.rows && id in s'.rows && s'.rows[id].replacedBy == Some(s.next)
            && s'.rows[s.next] == T.Token(s.rows[id].employee, s.rows[id].family, false, None, mintedAt + 5184000000)
  {
    assert RotatingOk(w, tx);
    T.IdsBelowNext(w.tokens);
  }

  lemma ActiveExactly(w: World, e: Event, who: T.Employee)
    requires Inv(w)
    ensures who in Next(w, e).tokens.active <==>
              (who in w.tokens.active && e != SetActive(who, false)) || e == SetActive(who, true)
  {
  }

  /** A login, one refresh, and a second refresh that has locked its token. */
  function SecondRefreshUnderWay(): seq<Event> {
    [] + [Login(1, true, 0)] + [SetActive(1, true)] + [Lock(0, 0, 0)] + [Rotate(0, 0)] + [Lock(0, 1, 0)]
  }

  lemma Follow(events: seq<Event>, e: Event)
    ensures Run(INIT, events + [e]) == Next(Run(INIT, events), e)
  {
    assert (events + [e])[..|events|] == events;
  }

  function OneToken(active: set<T.Employee>): T.State {
    T.State(map[0 := T.Token(1, 0, false, None, T.REFRESH_TOKEN_TTL_MS)], active, 1)
  }

  lemma LoggedIn()
    ensures Run(INIT, [] + [Login(1, true, 0)] + [SetActive(1, true)]) == World(OneToken({1}), map[], map[])
  {
    Follow([], Login(1, true, 0));
    assert Run(INIT, [] + [Login(1, true, 0)]) == World(OneToken({}), map[], map[]);
    Follow([] + [Login(1, true, 0)], SetActive(1, true));
  }

  lemma Rotated()
    ensures var es := [] + [Login(1, true, 0)] + [SetActive(1, true)] + [Lock(0, 0, 0)] + [Rotate(0, 0)];
            Run(INIT, es) == World(T.Rotate(OneToken({1}), 0, 0), map[], map[])
  {
    LoggedIn();
    var es := [] + [Login(1, true, 0)] + [SetActive(1, true)];
    Follow(es, Lock(0, 0, 0));
    assert Run(INIT, es + [Lock(0, 0, 0)]) == World(OneToken({1}), map[0 := 0], map[]);
    Follow(es + [Lock(0, 0, 0)], Rotate(0, 0));
    assert map[0 := 0] - {0} == map[];
  }

  /** So the race is there to be met: the first token may be presented again while its
      successor is being rotated. */
  lemma TheRaceIsReachable()
    ensures var w := Run(INIT, SecondRefreshUnderWay());
            && 0 in w.rotating && w.rotating[0] == 1 && w.sweeping == map[]
            && Starts(w.tokens, Chain(0)) && InScope(w.tokens, Chain(0), 1)
  {
    Rotated();
    Follow([] + [Login(1, true, 0)] + [SetActive(1, true)] + [Lock(0, 0, 0)] + [Rotate(0, 0)], Lock(0, 1, 0));
  }
}

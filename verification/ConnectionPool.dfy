/**
 * The connections the idempotency plugin works on: apps/api/src/db/pool.ts under
 * apps/api/src/plugins/idempotency.ts.  `getPool().query` draws a resting connection for
 * one statement, `beginWork` keeps one for a whole request, and `release()` puts it back
 * as it is.  A world is the pool together with the `Idempotency.State` of every key; what
 * the database answers depends on the connection a statement was drawn on, so requests
 * under different keys meet here.
 */
module ConnectionPool {
  import opened Prelude
  import I = Idempotency
  import N = NestedTransactions

  type Conn = nat
  type Key = nat
  type Rid = I.Rid

  /** A request under a key. */
  datatype Who = Who(key: Key, rid: Rid)

  /** `resting` are the connections in the pool and what the database says of each;
      `drawn` tells, also afterwards, on which connection a request worked. */
  datatype World = World(
    servers: map<Key, I.State>,
    resting: map<Conn, I.Session>,
    drawn: map<Who, Conn>,
    next: Conn)

  /** `Query` is one statement through the pool, `Begin` the connect and BEGIN of
      beginWork, `Own` whatever needs no connection from the pool. */
  datatype Event =
    | Connect
    | Expire(conn: Conn)
    | Query(conn: Conn, key: Key, step: I.Event)
    | Begin(who: Who, conn: Conn, breaks: bool)
    | Own(key: Key, step: I.Event)

  const INIT := World(map[], map[], map[], 0)

  /** A key nobody used has the empty table. */
  function Server(w: World, k: Key): I.State {
    if k in w.servers then w.servers[k] else I.INIT
  }

  function Put(w: World, k: Key, s: I.State): World {
    w.(servers := w.servers[k := s])
  }

  predicate Known(w: World, who: Who) {
    who.rid in Server(w, who.key).requests
  }

  function Req(w: World, who: Who): I.Request
    requires Known(w, who)
  {
    Server(w, who.key).requests[who.rid]
  }

  // ----- the events -----

  /** The request is about to run this statement through the pool. */
  predicate Due(s: I.State, step: I.Event) {
    match step
    case Claim(rid) => rid in s.requests && I.MayClaim(s.requests[rid].phase)
    case Fetch(rid, _) => rid in s.requests && s.requests[rid].phase.ClaimLost?
    case Reclaim(rid) => rid in s.requests && s.requests[rid].phase.Stale?
    case Release(rid, executed) => executed && rid in s.requests && s.requests[rid].phase.Releasing?
    case Prune => true
    case _ => false
  }

  /** The same statement, refused by a connection inside an aborted transaction. */
  function Refusal(step: I.Event): I.Event {
    match step
    case Claim(rid) => I.LookupFails(rid)
    case Fetch(rid, _) => I.LookupFails(rid)
    case Reclaim(rid) => I.LookupFails(rid)
    case Release(rid, _) => I.Release(rid, false)
    case _ => I.Tick(0)
  }

  predicate MayBegin(w: World, who: Who) {
    Known(w, who) && Req(w, who).phase.Claimed?
  }

  function OutcomeOn(session: I.Session, breaks: bool): I.BeginOutcome {
    if breaks then I.BeginLost else if session.Idle? then I.Opened else I.BeginRefused
  }

  /** What happens without the pool: the hooks, the handler, the statements on the
      request's own connection, and statements that got no connection. */
  predicate IsOwn(step: I.Event) {
    match step
    case Begin(_, outcome) => outcome.ConnectFailed?
    case Release(_, executed) => !executed
    case _ => !step.Claim? && !step.Fetch? && !step.Reclaim? && !step.Prune?
  }

  /** A request that holds a connection. */
  predicate Holds(r: I.Request) {
    r.connects == 1 && r.releases == 0 && !r.phase.Done?
  }

  predicate HoldsIn(w: World, who: Who) {
    Known(w, who) && Holds(Req(w, who))
  }

  predicate HasMover(step: I.Event) {
    !step.Prune? && !step.Tick?
  }

  /** The step releases the connection of its request, and it is not broken. */
  predicate PutsBack(w: World, k: Key, step: I.Event) {
    && HasMover(step) && Who(k, step.rid) in w.drawn && HoldsIn(w, Who(k, step.rid))
    && var s' := I.Next(Server(w, k), step);
       step.rid in s'.requests && s'.requests[step.rid].releases == 1 && !s'.requests[step.rid].session.Lost?
  }

  /** The step on the server; a connection released by it rests again, in the state it is
      in.  A broken one is dropped. */
  function ServerStep(w: World, k: Key, step: I.Event): World {
    var s' := I.Next(Server(w, k), step);
    if PutsBack(w, k, step)
    then Put(w, k, s').(resting := w.resting[w.drawn[Who(k, step.rid)] := s'.requests[step.rid].session])
    else Put(w, k, s')
  }

  function Drop(w: World, conn: Conn): World {
    w.(resting := w.resting - {conn})
  }

  /** A statement through the pool.  One that throws takes its connection out of it. */
  function Queried(w: World, conn: Conn, k: Key, step: I.Event): World
    requires conn in w.resting
  {
    if w.resting[conn].Idle? then ServerStep(w, k, step) else ServerStep(Drop(w, conn), k, Refusal(step))
  }

  /** A BEGIN that throws leaves its connection in the pool, because beginWork releases it
      without saying so. */
  function Next(w: World, e: Event): World {
    match e
    case Connect => w.(resting := w.resting[w.next := I.Idle], next := w.next + 1)
    case Expire(conn) => Drop(w, conn)
    case Query(conn, k, step) =>
      if conn !in w.resting || !Due(Server(w, k), step) then w else Queried(w, conn, k, step)
    case Begin(who, conn, breaks) =>
      if conn !in w.resting || !MayBegin(w, who) then w
      else
        var outcome := OutcomeOn(w.resting[conn], breaks);
        var w' := Put(w, who.key, I.DoBegin(Server(w, who.key), who.rid, outcome));
        if outcome.BeginLost? then Drop(w', conn)
        else if outcome.Opened? then Drop(w', conn).(drawn := w.drawn[who := conn])
        else w'
    case Own(k, step) => if IsOwn(step) then ServerStep(w, k, step) else w
  }

  function Run(w: World, events: seq<Event>): World
    decreases |events|
  {
    if events == [] then w else Run(Next(w, events[0]), events[1..])
  }

  // ----- the pool refines the protocol -----

  /** What the server of key `k` sees of an event. */
  function StepOf(w: World, e: Event, k: Key): I.Event {
    match e
    case Query(conn, key, step) =>
      if key != k || conn !in w.resting || !Due(Server(w, k), step) then I.Tick(0)
      else if w.resting[conn].Idle? then step
      else Refusal(step)
    case Begin(who, conn, breaks) =>
      if who.key != k || conn !in w.resting || !MayBegin(w, who) then I.Tick(0)
      else I.Begin(who.rid, OutcomeOn(w.resting[conn], breaks))
    case Own(key, step) => if key == k && IsOwn(step) then step else I.Tick(0)
    case _ => I.Tick(0)
  }

  /** The history of one key behind a history of the pool. */
  function Steps(w: World, events: seq<Event>, k: Key): seq<I.Event>
    decreases |events|
  {
    if events == [] then [] else [StepOf(w, events[0], k)] + Steps(Next(w, events[0]), events[1..], k)
  }

  lemma ServerStepIs(w: World, k: Key, step: I.Event, j: Key)
    ensures Server(ServerStep(w, k, step), j) == if j == k then I.Next(Server(w, k), step) else Server(w, j)
  {
  }

  lemma NothingIsAStep(s: I.State)
    ensures I.Next(s, I.Tick(0)) == s
  {
  }

  lemma OneStep(w: World, e: Event, k: Key)
    ensures Server(Next(w, e), k) == I.Next(Server(w, k), StepOf(w, e, k))
  {
    NothingIsAStep(Server(w, k));
    match e
    case Query(conn, key, step) =>
      if conn in w.resting && Due(Server(w, key), step) {
        ServerStepIs(w, key, step, k);
        ServerStepIs(Drop(w, conn), key, Refusal(step), k);
      }
    case Own(key, step) => ServerStepIs(w, key, step, k);
    case _ =>
  }

  lemma {:induction false} ServersRun(w: World, events: seq<Event>, k: Key)
    ensures Server(Run(w, events), k) == I.Run(Server(w, k), Steps(w, events, k))
    decreases |events|
  {
    if events == [] {
    } else {
      var rest := Steps(Next(w, events[0]), events[1..], k);
      OneStep(w, events[0], k);
      ServersRun(Next(w, events[0]), events[1..], k);
      assert Steps(w, events, k)[1..] == rest;
    }
  }

  /** Whatever the pool hands out, the server of every key goes through a history of the
      protocol, so every theorem about those holds here: a poisoned connection costs
      answers, and neither a commit nor a stored answer. */
  lemma PooledRunsAreRuns(events: seq<Event>, k: Key)
    ensures Server(Run(INIT, events), k) == I.Run(I.INIT, Steps(INIT, events, k))
    ensures I.Inv(Server(Run(INIT, events), k))
  {
    ServersRun(INIT, events, k);
    I.RunKeepsInv(I.INIT, Steps(INIT, events, k));
  }

  // ----- the invariant -----

  /** A request that came back inside an aborted transaction. */
  predicate Culprit(w: World, who: Who) {
    who in w.drawn && Known(w, who) && Req(w, who).phase.Done? && Req(w, who).session.Aborted?
  }

  ghost predicate Blemished(w: World, c: Conn) {
    exists who :: Culprit(w, who) && w.drawn[who] == c
  }

  /** A resting connection is idle or aborted, and aborted exactly when a request left it so. */
  ghost predicate RestingOk(w: World, c: Conn)
    requires c in w.resting
  {
    && c < w.next && (w.resting[c].Idle? || w.resting[c].Aborted?)
    && (w.resting[c].Aborted? <==> Blemished(w, c))
  }

  /** A request at work has its connection to itself, and nobody aborted it before. */
  ghost predicate DrawnOk(w: World, who: Who)
    requires who in w.drawn
  {
    && Known(w, who) && Req(w, who).connects == 1 && w.drawn[who] < w.next
    && (HoldsIn(w, who) || Req(w, who).phase.Done?)
    && (HoldsIn(w, who) ==> w.drawn[who] !in w.resting && !Blemished(w, w.drawn[who]))
  }

  ghost predicate ServersOk(w: World) {
    forall k {:trigger Server(w, k)} :: I.Inv(Server(w, k))
  }

  ghost predicate Inv(w: World) {
    && ServersOk(w)
    && (forall c :: c in w.resting ==> RestingOk(w, c))
    && (forall who :: who in w.drawn ==> DrawnOk(w, who))
    && (forall who :: HoldsIn(w, who) ==> who in w.drawn)
    && (forall a, b :: a in w.drawn && b in w.drawn && a != b && HoldsIn(w, a) && HoldsIn(w, b) ==>
          w.drawn[a] != w.drawn[b])
  }

  // ----- one step of one request -----

  /** What one step does to one request, as far as connections go. */
  predicate Steady(r: I.Request, r': I.Request) {
    && (r.phase.Done? ==> r' == r)
    && r'.connects == r.connects
    && (Holds(r') ==> Holds(r))
    && (Holds(r) && !Holds(r') ==> r'.phase.Done? && !r'.session.Open? && (r'.releases == 1 || r'.session.Lost?))
  }

  predicate TakesNone(step: I.Event) {
    step.Begin? ==> step.outcome.ConnectFailed?
  }

  predicate Concerns(step: I.Event, rid: Rid) {
    HasMover(step) && step.rid == rid
  }

  /** Before and at BEGIN a request has no connection. */
  lemma LookupIsSteady(s: I.State, step: I.Event, rid: Rid)
    requires rid in s.requests && I.ConnectionShape(s.requests[rid]) && Concerns(step, rid) && TakesNone(step)
    requires step.Claim? || step.Fetch? || step.Reclaim? || step.LookupFails? || step.Begin?
    ensures rid in I.Next(s, step).requests && Steady(s.requests[rid], I.Next(s, step).requests[rid])
  {
  }

  lemma HandlerIsSteady(s: I.State, step: I.Event, rid: Rid)
    requires rid in s.requests && I.ConnectionShape(s.requests[rid]) && Concerns(step, rid)
    requires step.Handle? || step.Send? || step.StoreFails?
    ensures rid in I.Next(s, step).requests && Steady(s.requests[rid], I.Next(s, step).requests[rid])
  {
  }

  lemma EndIsSteady(s: I.State, step: I.Event, rid: Rid)
    requires rid in s.requests && I.ConnectionShape(s.requests[rid]) && I.HandlerShape(s.requests[rid])
    requires Concerns(step, rid) && (step.CommitWork? || step.Abort? || step.Release? || step.Crash?)
    ensures rid in I.Next(s, step).requests && Steady(s.requests[rid], I.Next(s, step).requests[rid])
  {
  }

  lemma OwnStepIsSteady(s: I.State, step: I.Event, rid: Rid)
    requires I.Inv(s) && rid in s.requests && TakesNone(step) && Concerns(step, rid) && !step.Arrive?
    ensures rid in I.Next(s, step).requests && Steady(s.requests[rid], I.Next(s, step).requests[rid])
  {
    assert I.ConnectionShape(s.requests[rid]) && I.HandlerShape(s.requests[rid]) by {
      assert I.RequestOk(s, rid, s.requests[rid]);
    }
    if step.Claim? || step.Fetch? || step.Reclaim? || step.LookupFails? || step.Begin? {
      LookupIsSteady(s, step, rid);
    } else if step.Handle? || step.Send? || step.StoreFails? {
      HandlerIsSteady(s, step, rid);
    } else {
      EndIsSteady(s, step, rid);
    }
  }

  lemma StepIsSteady(s: I.State, step: I.Event, rid: Rid)
    requires I.Inv(s) && rid in s.requests && TakesNone(step)
    ensures rid in I.Next(s, step).requests && Steady(s.requests[rid], I.Next(s, step).requests[rid])
    ensures !Concerns(step, rid) ==> I.Next(s, step).requests[rid] == s.requests[rid]
  {
    if Concerns(step, rid) && !step.Arrive? {
      OwnStepIsSteady(s, step, rid);
    } else {
      I.OthersKeep(s, step, rid);
    }
  }

  /** The same in the world of all keys. */
  lemma RequestIsSteady(w: World, k: Key, step: I.Event, who: Who)
    requires ServersOk(w) && Known(w, who) && TakesNone(step)
    ensures var w' := ServerStep(w, k, step);
            && Known(w', who) && Steady(Req(w, who), Req(w', who))
            && (who.key != k || !Concerns(step, who.rid) ==> Req(w', who) == Req(w, who))
  {
    if who.key == k {
      StepIsSteady(Server(w, k), step, who.rid);
    }
  }

  lemma HoldersAreNotNew(w: World, k: Key, step: I.Event, who: Who)
    requires ServersOk(w) && TakesNone(step) && HoldsIn(ServerStep(w, k, step), who)
    ensures HoldsIn(w, who)
  {
    if Known(w, who) {
      RequestIsSteady(w, k, step, who);
    } else if who.key == k {
      I.NewcomersStart(Server(w, k), step, who.rid);
    }
  }

  /** The step puts a connection back that is inside an aborted transaction. */
  predicate Aborts(w: World, k: Key, step: I.Event) {
    PutsBack(w, k, step) && I.Next(Server(w, k), step).requests[step.rid].session.Aborted?
  }

  /** The one request that can become a culprit is the one whose connection comes back. */
  lemma CulpritsAre(w: World, k: Key, step: I.Event, who: Who)
    requires Inv(w) && TakesNone(step)
    ensures Culprit(ServerStep(w, k, step), who) <==>
            Culprit(w, who) || (who.key == k && Concerns(step, who.rid) && Aborts(w, k, step))
  {
    if who in w.drawn {
      assert DrawnOk(w, who);
      RequestIsSteady(w, k, step, who);
    }
  }

  lemma BlemishesStay(w: World, k: Key, step: I.Event, c: Conn)
    requires Inv(w) && TakesNone(step)
    requires Blemished(w, c) || (Aborts(w, k, step) && w.drawn[Who(k, step.rid)] == c)
    ensures Blemished(ServerStep(w, k, step), c)
  {
    var w' := ServerStep(w, k, step);
    if Blemished(w, c) {
      var who :| Culprit(w, who) && w.drawn[who] == c;
      CulpritsAre(w, k, step, who);
      assert Culprit(w', who) && w'.drawn[who] == c;
    } else {
      CulpritsAre(w, k, step, Who(k, step.rid));
      assert Culprit(w', Who(k, step.rid)) && w'.drawn[Who(k, step.rid)] == c;
    }
  }

  lemma BlemishesAre(w: World, k: Key, step: I.Event, c: Conn)
    requires Inv(w) && TakesNone(step)
    ensures Blemished(ServerStep(w, k, step), c) <==>
            Blemished(w, c) || (Aborts(w, k, step) && w.drawn[Who(k, step.rid)] == c)
  {
    if Blemished(ServerStep(w, k, step), c) {
      var who :| Culprit(ServerStep(w, k, step), who) && w.drawn[who] == c;
      CulpritsAre(w, k, step, who);
    } else if Blemished(w, c) || (Aborts(w, k, step) && w.drawn[Who(k, step.rid)] == c) {
      BlemishesStay(w, k, step, c);
    }
  }

  /** What comes back is idle or aborted, was nobody else's, and nobody blemished it before. */
  lemma WhatComesBack(w: World, k: Key, step: I.Event)
    requires Inv(w) && TakesNone(step) && PutsBack(w, k, step)
    ensures var c := w.drawn[Who(k, step.rid)]; var session := I.Next(Server(w, k), step).requests[step.rid].session;
            && c !in w.resting && c < w.next && !Blemished(w, c) && (session.Idle? || session.Aborted?)
    ensures !HoldsIn(ServerStep(w, k, step), Who(k, step.rid))
  {
    assert DrawnOk(w, Who(k, step.rid));
    RequestIsSteady(w, k, step, Who(k, step.rid));
  }

  lemma ReturnedIsOk(w: World, k: Key, step: I.Event)
    requires Inv(w) && TakesNone(step) && PutsBack(w, k, step)
    ensures var c := w.drawn[Who(k, step.rid)];
            c in ServerStep(w, k, step).resting && RestingOk(ServerStep(w, k, step), c)
  {
    WhatComesBack(w, k, step);
    BlemishesAre(w, k, step, w.drawn[Who(k, step.rid)]);
  }

  lemma OthersRest(w: World, k: Key, step: I.Event, c: Conn)
    requires Inv(w) && TakesNone(step) && c in w.resting
    ensures var w' := ServerStep(w, k, step); c in w'.resting && w'.resting[c] == w.resting[c] && w'.next == w.next
    ensures PutsBack(w, k, step) ==> w.drawn[Who(k, step.rid)] != c
  {
    if PutsBack(w, k, step) {
      WhatComesBack(w, k, step);
    }
  }

  lemma OthersRestOk(w: World, k: Key, step: I.Event, c: Conn)
    requires Inv(w) && TakesNone(step) && c in w.resting
    ensures c in ServerStep(w, k, step).resting && RestingOk(ServerStep(w, k, step), c)
  {
    assert RestingOk(w, c);
    BlemishesAre(w, k, step, c);
    OthersRest(w, k, step, c);
  }

  lemma RestingStaysOk(w: World, k: Key, step: I.Event, c: Conn)
    requires Inv(w) && TakesNone(step) && c in ServerStep(w, k, step).resting
    ensures RestingOk(ServerStep(w, k, step), c)
  {
    if c in w.resting {
      OthersRestOk(w, k, step, c);
    } else {
      ReturnedIsOk(w, k, step);
    }
  }

  lemma DrawnStaysOk(w: World, k: Key, step: I.Event, who: Who)
    requires Inv(w) && TakesNone(step) && who in w.drawn
    ensures DrawnOk(ServerStep(w, k, step), who)
  {
    assert DrawnOk(w, who);
    RequestIsSteady(w, k, step, who);
    if HoldsIn(ServerStep(w, k, step), who) {
      BlemishesAre(w, k, step, w.drawn[who]);
      if PutsBack(w, k, step) {
        WhatComesBack(w, k, step);
        assert who != Who(k, step.rid) && HoldsIn(w, Who(k, step.rid)) && HoldsIn(w, who);
      }
    }
  }

  lemma ServersStayOk(w: World, k: Key, step: I.Event)
    requires ServersOk(w)
    ensures ServersOk(Put(w, k, I.Next(Server(w, k), step))) && ServersOk(ServerStep(w, k, step))
  {
    I.NextKeepsInv(Server(w, k), step);
    forall j
      ensures I.Inv(Server(Put(w, k, I.Next(Server(w, k), step)), j)) && I.Inv(Server(ServerStep(w, k, step), j))
    {
      assert I.Inv(Server(w, j));
    }
  }

  lemma ServerStepKeepsInv(w: World, k: Key, step: I.Event)
    requires Inv(w) && TakesNone(step)
    ensures Inv(ServerStep(w, k, step))
  {
    var w' := ServerStep(w, k, step);
    ServersStayOk(w, k, step);
    forall c | c in w'.resting
      ensures RestingOk(w', c)
    {
      RestingStaysOk(w, k, step, c);
    }
    forall who | who in w'.drawn
      ensures DrawnOk(w', who)
    {
      DrawnStaysOk(w, k, step, who);
    }
    forall who | HoldsIn(w', who)
      ensures HoldsIn(w, who)
    {
      HoldersAreNotNew(w, k, step, who);
    }
  }

  // ----- connections come and go -----

  /** Only the pool changed. */
  ghost predicate SameRequests(w: World, w': World) {
    w'.servers == w.servers && w'.drawn == w.drawn
  }

  lemma SameBlemishes(w: World, w': World)
    requires SameRequests(w, w')
    ensures forall c :: Blemished(w', c) <==> Blemished(w, c)
    ensures forall who :: HoldsIn(w', who) <==> HoldsIn(w, who)
  {
    forall who
      ensures Culprit(w', who) <==> Culprit(w, who)
    {
    }
  }

  /** Taking a connection out of the pool blemishes nobody. */
  lemma DroppingKeepsInv(w: World, conn: Conn)
    requires Inv(w)
    ensures Inv(Drop(w, conn))
  {
    var w' := Drop(w, conn);
    SameBlemishes(w, w');
    SameServers(w, w');
    forall c | c in w'.resting
      ensures RestingOk(w', c)
    {
      assert RestingOk(w, c);
    }
    forall who | who in w'.drawn
      ensures DrawnOk(w', who)
    {
      assert DrawnOk(w, who);
    }
  }

  /** A connection nobody had yet is unblemished. */
  lemma NewIsUnblemished(w: World)
    requires Inv(w)
    ensures w.next !in w.resting && !Blemished(w, w.next)
  {
    assert w.next in w.resting ==> RestingOk(w, w.next);
    forall who | Culprit(w, who)
      ensures w.drawn[who] < w.next
    {
      assert DrawnOk(w, who);
    }
  }

  lemma ConnectKeepsInv(w: World)
    requires Inv(w)
    ensures Inv(Next(w, Connect))
  {
    var w' := Next(w, Connect);
    SameBlemishes(w, w');
    NewIsUnblemished(w);
    SameServers(w, w');
    forall c | c in w'.resting
      ensures RestingOk(w', c)
    {
      assert c in w.resting ==> RestingOk(w, c);
    }
    forall who | who in w'.drawn
      ensures DrawnOk(w', who)
    {
      assert DrawnOk(w, who);
    }
  }

  // ----- BEGIN -----

  lemma BeginMovesOne(s: I.State, rid: Rid, outcome: I.BeginOutcome)
    requires I.Inv(s) && rid in s.requests && s.requests[rid].phase.Claimed? && !outcome.ConnectFailed?
    ensures s.requests[rid].connects == 0
    ensures var s' := I.DoBegin(s, rid, outcome);
            && s' == s.(requests := s.requests[rid := s'.requests[rid]])
            && s'.requests[rid].connects == 1 && !s'.requests[rid].phase.Done?
            && (Holds(s'.requests[rid]) <==> outcome.Opened?)
            && (s'.requests[rid].phase.Working? <==> outcome.Opened?)
  {
    assert I.RequestOk(s, rid, s.requests[rid]);
  }

  /** The world after BEGIN: everybody else is where they were. */
  ghost predicate Began(w: World, w': World, who: Who, conn: Conn)
    requires conn in w.resting
  {
    && (w'.resting == w.resting || w'.resting == w.resting - {conn})
    && (w'.drawn == w.drawn || (w'.drawn == w.drawn[who := conn] && conn !in w'.resting && w.resting[conn].Idle?))
    && w'.next == w.next && who !in w.drawn && Known(w', who)
    && (forall q :: q != who ==> (Known(w', q) <==> Known(w, q)) && (Known(w, q) ==> Req(w', q) == Req(w, q)))
    && Req(w', who).connects == 1 && !Req(w', who).phase.Done?
    && (who in w'.drawn <==> HoldsIn(w', who))
    && (who in w'.drawn ==> Req(w', who).phase.Working?)
  }

  /** Putting one request back touches no other. */
  lemma PuttingOne(w: World, w': World, who: Who, s': I.State, q: Who)
    requires Known(w, who) && who.rid in s'.requests && w'.servers == w.servers[who.key := s']
    requires s'.requests == Server(w, who.key).requests[who.rid := s'.requests[who.rid]]
    ensures Known(w', q) <==> Known(w, q)
    ensures Known(w, q) ==> Req(w', q) == if q == who then s'.requests[who.rid] else Req(w, q)
  {
  }

  /** What BEGIN leaves in the pool, and who has drawn. */
  lemma BeginIs(w: World, who: Who, conn: Conn, breaks: bool)
    requires MayBegin(w, who) && conn in w.resting
    ensures var w' := Next(w, Begin(who, conn, breaks)); var outcome := OutcomeOn(w.resting[conn], breaks);
            && w'.servers == w.servers[who.key := I.DoBegin(Server(w, who.key), who.rid, outcome)]
            && w'.resting == (if outcome.BeginRefused? then w.resting else w.resting - {conn})
            && w'.drawn == (if outcome.Opened? then w.drawn[who := conn] else w.drawn) && w'.next == w.next
  {
  }

  lemma BeginBegins(w: World, who: Who, conn: Conn, breaks: bool)
    requires Inv(w) && MayBegin(w, who) && conn in w.resting
    ensures Began(w, Next(w, Begin(who, conn, breaks)), who, conn)
  {
    var s' := I.DoBegin(Server(w, who.key), who.rid, OutcomeOn(w.resting[conn], breaks));
    BeginMovesOne(Server(w, who.key), who.rid, OutcomeOn(w.resting[conn], breaks));
    BeginIs(w, who, conn, breaks);
    assert who in w.drawn ==> DrawnOk(w, who);
    BegunBegan(w, Next(w, Begin(who, conn, breaks)), who, conn, s', OutcomeOn(w.resting[conn], breaks));
  }

  lemma BegunBegan(w: World, w': World, who: Who, conn: Conn, s': I.State, outcome: I.BeginOutcome)
    requires conn in w.resting && who !in w.drawn && Known(w, who) && w'.servers == w.servers[who.key := s']
    requires who.rid in s'.requests && s'.requests == Server(w, who.key).requests[who.rid := s'.requests[who.rid]]
    requires s'.requests[who.rid].connects == 1 && !s'.requests[who.rid].phase.Done?
    requires (Holds(s'.requests[who.rid]) <==> outcome.Opened?)
    requires (s'.requests[who.rid].phase.Working? <==> outcome.Opened?) && (outcome.Opened? ==> w.resting[conn].Idle?)
    requires w'.resting == (if outcome.BeginRefused? then w.resting else w.resting - {conn}) && w'.next == w.next
    requires w'.drawn == (if outcome.Opened? then w.drawn[who := conn] else w.drawn)
    ensures Began(w, w', who, conn)
  {
    forall q
      ensures Known(w', q) <==> Known(w, q)
      ensures Known(w, q) ==> Req(w', q) == if q == who then s'.requests[who.rid] else Req(w, q)
    {
      PuttingOne(w, w', who, s', q);
    }
  }

  lemma BeganAccusesNobody(w: World, w': World, who: Who, conn: Conn, q: Who)
    requires conn in w.resting && Began(w, w', who, conn)
    ensures Culprit(w', q) <==> Culprit(w, q)
    ensures Culprit(w, q) ==> w'.drawn[q] == w.drawn[q]
  {
  }

  lemma BeganBlemishesNobody(w: World, w': World, who: Who, conn: Conn, c: Conn)
    requires Inv(w) && conn in w.resting && Began(w, w', who, conn)
    ensures Blemished(w', c) <==> Blemished(w, c)
  {
    forall q
      ensures Culprit(w', q) <==> Culprit(w, q)
      ensures Culprit(w, q) ==> w'.drawn[q] == w.drawn[q]
    {
      BeganAccusesNobody(w, w', who, conn, q);
    }
    if Blemished(w, c) {
      var q :| Culprit(w, q) && w.drawn[q] == c;
      assert Culprit(w', q) && w'.drawn[q] == c;
    }
  }

  lemma BeganRests(w: World, w': World, who: Who, conn: Conn, c: Conn)
    requires Inv(w) && conn in w.resting && Began(w, w', who, conn) && c in w'.resting
    ensures RestingOk(w', c)
  {
    assert RestingOk(w, c);
    BeganBlemishesNobody(w, w', who, conn, c);
  }

  lemma BeganHolds(w: World, w': World, who: Who, conn: Conn, q: Who)
    requires Inv(w) && conn in w.resting && Began(w, w', who, conn) && q in w.drawn
    ensures DrawnOk(w', q) && (HoldsIn(w', q) <==> HoldsIn(w, q)) && (HoldsIn(w, q) ==> w.drawn[q] != conn)
  {
    assert DrawnOk(w, q);
    BeganBlemishesNobody(w, w', who, conn, w.drawn[q]);
  }

  lemma BeganDraws(w: World, w': World, who: Who, conn: Conn)
    requires Inv(w) && conn in w.resting && Began(w, w', who, conn) && who in w'.drawn
    ensures DrawnOk(w', who) && w'.drawn[who] == conn
  {
    assert RestingOk(w, conn);
    BeganBlemishesNobody(w, w', who, conn, conn);
  }

  lemma BeganKeepsInv(w: World, w': World, who: Who, conn: Conn)
    requires Inv(w) && conn in w.resting && Began(w, w', who, conn) && ServersOk(w')
    ensures Inv(w')
  {
    forall c | c in w'.resting
      ensures RestingOk(w', c)
    {
      BeganRests(w, w', who, conn, c);
    }
    forall q | q in w.drawn
      ensures DrawnOk(w', q) && (HoldsIn(w', q) <==> HoldsIn(w, q)) && (HoldsIn(w, q) ==> w.drawn[q] != conn)
    {
      BeganHolds(w, w', who, conn, q);
    }
    if who in w'.drawn { BeganDraws(w, w', who, conn); }
    forall q | HoldsIn(w', q)
      ensures q in w'.drawn
    {
      assert q == who || HoldsIn(w, q);
    }
    forall a, b | a in w'.drawn && b in w'.drawn && a != b && HoldsIn(w', a) && HoldsIn(w', b)
      ensures w'.drawn[a] != w'.drawn[b]
    {
      BeganAlone(w, w', who, conn, a, b);
    }
  }

  lemma BeganAlone(w: World, w': World, who: Who, conn: Conn, a: Who, b: Who)
    requires Inv(w) && conn in w.resting && Began(w, w', who, conn)
    requires a in w'.drawn && b in w'.drawn && a != b && HoldsIn(w', a) && HoldsIn(w', b)
    ensures w'.drawn[a] != w'.drawn[b]
  {
    if a in w.drawn { BeganHolds(w, w', who, conn, a); }
    if b in w.drawn { BeganHolds(w, w', who, conn, b); }
  }

  lemma SameServers(w: World, w': World)
    requires ServersOk(w) && w'.servers == w.servers
    ensures ServersOk(w')
  {
    forall k
      ensures I.Inv(Server(w', k))
    {
      assert I.Inv(Server(w, k));
    }
  }

  lemma BeginServersOk(w: World, who: Who, conn: Conn, breaks: bool)
    requires ServersOk(w) && MayBegin(w, who) && conn in w.resting
    ensures ServersOk(Next(w, Begin(who, conn, breaks)))
  {
    var step := I.Begin(who.rid, OutcomeOn(w.resting[conn], breaks));
    ServersStayOk(w, who.key, step);
    SameServers(Put(w, who.key, I.Next(Server(w, who.key), step)), Next(w, Begin(who, conn, breaks)));
  }

  lemma BeginKeepsInv(w: World, who: Who, conn: Conn, breaks: bool)
    requires Inv(w) && MayBegin(w, who) && conn in w.resting
    ensures Inv(Next(w, Begin(who, conn, breaks)))
  {
    BeginServersOk(w, who, conn, breaks);
    BeginBegins(w, who, conn, breaks);
    BeganKeepsInv(w, Next(w, Begin(who, conn, breaks)), who, conn);
  }

  lemma QueryKeepsInv(w: World, conn: Conn, k: Key, step: I.Event)
    requires Inv(w) && conn in w.resting && Due(Server(w, k), step)
    ensures Inv(Queried(w, conn, k, step))
  {
    if w.resting[conn].Idle? {
      ServerStepKeepsInv(w, k, step);
    } else {
      DroppingKeepsInv(w, conn);
      ServerStepKeepsInv(Drop(w, conn), k, Refusal(step));
    }
  }

  lemma NextKeepsInv(w: World, e: Event)
    requires Inv(w)
    ensures Inv(Next(w, e))
  {
    match e
    case Connect => ConnectKeepsInv(w);
    case Expire(conn) => DroppingKeepsInv(w, conn);
    case Query(conn, k, step) =>
      if conn in w.resting && Due(Server(w, k), step) { QueryKeepsInv(w, conn, k, step); }
    case Begin(who, conn, breaks) =>
      if conn in w.resting && MayBegin(w, who) { BeginKeepsInv(w, who, conn, breaks); }
    case Own(k, step) =>
      if IsOwn(step) { ServerStepKeepsInv(w, k, step); }
  }

  lemma EmptyIsOk()
    ensures Inv(INIT)
  {
  }

  lemma {:induction false} RunKeepsInv(w: World, events: seq<Event>)
    requires Inv(w)
    ensures Inv(Run(w, events))
    decreases |events|
  {
    if events == [] {
    } else {
      NextKeepsInv(w, events[0]);
      RunKeepsInv(Next(w, events[0]), events[1..]);
    }
  }

  // ----- the theorems -----

  /** In every history a resting connection is idle or aborted: a transaction somebody
      left open is never continued by anybody else.  A connection at work rests nowhere
      and is nobody else's. */
  lemma ConnectionsAreNeverShared(events: seq<Event>, c: Conn, a: Who, b: Who)
    ensures var w := Run(INIT, events);
            && (c in w.resting ==> w.resting[c].Idle? || w.resting[c].Aborted?)
            && (HoldsIn(w, a) ==> a in w.drawn && w.drawn[a] !in w.resting)
            && (HoldsIn(w, a) && HoldsIn(w, b) && a != b ==> b in w.drawn && w.drawn[a] != w.drawn[b])
  {
    EmptyIsOk();
    RunKeepsInv(INIT, events);
    var w := Run(INIT, events);
    if c in w.resting { assert RestingOk(w, c); }
    if HoldsIn(w, a) { assert DrawnOk(w, a); }
    if HoldsIn(w, b) { assert DrawnOk(w, b); }
  }

  // ----- where a poisoned connection comes from -----

  /** No fault from outside: a STORE throws only because of its handler. */
  predicate Faultless(e: Event) {
    !(e.Own? && e.step.StoreFails?)
  }

  ghost predicate EndsIdle(w: World) {
    forall who :: who in w.drawn && Known(w, who) ==> I.EndsIdle(Req(w, who))
  }

  lemma FaultlessServerStep(w: World, k: Key, step: I.Event)
    requires Inv(w) && EndsIdle(w) && TakesNone(step) && !step.StoreFails?
    ensures EndsIdle(ServerStep(w, k, step))
  {
    forall who | who in w.drawn
      ensures Known(ServerStep(w, k, step), who) && I.EndsIdle(Req(ServerStep(w, k, step), who))
    {
      assert DrawnOk(w, who);
      ServerStepIs(w, k, step, who.key);
      if who.key == k {
        I.FaultlessStep(Server(w, k), step, who.rid);
      }
    }
  }

  lemma FaultlessBegin(w: World, w': World, who: Who, conn: Conn)
    requires Inv(w) && EndsIdle(w) && conn in w.resting && Began(w, w', who, conn)
    ensures EndsIdle(w')
  {
  }

  lemma FaultlessPool(w: World, w': World)
    requires EndsIdle(w) && SameRequests(w, w')
    ensures EndsIdle(w')
  {
    forall who | who in w'.drawn && Known(w', who)
      ensures I.EndsIdle(Req(w', who))
    {
      assert Known(w, who) && Req(w', who) == Req(w, who);
    }
  }

  lemma FaultlessQuery(w: World, conn: Conn, k: Key, step: I.Event)
    requires Inv(w) && EndsIdle(w) && conn in w.resting && Due(Server(w, k), step)
    ensures EndsIdle(Queried(w, conn, k, step))
  {
    if w.resting[conn].Idle? {
      FaultlessServerStep(w, k, step);
    } else {
      DroppingKeepsInv(w, conn);
      FaultlessPool(w, Drop(w, conn));
      FaultlessServerStep(Drop(w, conn), k, Refusal(step));
    }
  }

  lemma FaultlessNext(w: World, e: Event)
    requires Inv(w) && EndsIdle(w) && Faultless(e)
    ensures EndsIdle(Next(w, e))
  {
    match e
    case Query(conn, k, step) =>
      if conn in w.resting && Due(Server(w, k), step) { FaultlessQuery(w, conn, k, step); }
    case Begin(who, conn, breaks) =>
      if conn in w.resting && MayBegin(w, who) {
        BeginBegins(w, who, conn, breaks);
        FaultlessBegin(w, Next(w, e), who, conn);
      }
    case Own(k, step) =>
      if IsOwn(step) { FaultlessServerStep(w, k, step); }
    case _ => FaultlessPool(w, Next(w, e));
  }

  lemma {:induction false} FaultlessRun(w: World, events: seq<Event>)
    requires Inv(w) && EndsIdle(w) && forall e :: e in events ==> Faultless(e)
    ensures EndsIdle(Run(w, events))
    decreases |events|
  {
    if events == [] {
    } else {
      FaultlessNext(w, events[0]);
      NextKeepsInv(w, events[0]);
      FaultlessRun(Next(w, events[0]), events[1..]);
    }
  }

  /** In this history `who` worked on `c` and ended, the text of its handler swallows a
      failed statement, and its reply was a success. */
  predicate Poisoner(events: seq<Event>, who: Who, c: Conn) {
    var w, replied := Run(INIT, events), I.Replied(I.INIT, Steps(INIT, events, who.key), who.rid);
    && who in w.drawn && w.drawn[who] == c && Known(w, who) && Req(w, who).phase.Done?
    && N.FateOf(Req(w, who).handler).Swallowed? && replied.Some? && replied.value < 400
  }

  lemma RepliedOnItsKey(events: seq<Event>, who: Who)
    requires Known(Run(INIT, events), who)
    ensures Req(Run(INIT, events), who).replied == I.Replied(I.INIT, Steps(INIT, events, who.key), who.rid)
  {
    ServersRun(INIT, events, who.key);
    I.RepliedIsRecorded(I.INIT, Steps(INIT, events, who.key), who.rid);
  }

  lemma CulpritsSwallow(events: seq<Event>, who: Who)
    requires forall e :: e in events ==> Faultless(e)
    ensures var w := Run(INIT, events);
            Culprit(w, who) <==> who in w.drawn && Poisoner(events, who, w.drawn[who])
  {
    EmptyIsOk();
    FaultlessRun(INIT, events);
    var w := Run(INIT, events);
    if who in w.drawn && Known(w, who) {
      RepliedOnItsKey(events, who);
      assert I.EndsIdle(Req(w, who));
    }
  }

  /** After any history without a fault from outside, a resting connection is poisoned
      exactly when some request, under whatever key, worked on it with a handler that
      swallows a failure and answered with a success. */
  lemma PoisonIsExactlySwallowing(events: seq<Event>, c: Conn)
    requires c in Run(INIT, events).resting && forall e :: e in events ==> Faultless(e)
    ensures var w := Run(INIT, events);
            w.resting[c].Aborted? <==> exists who :: Poisoner(events, who, c)
  {
    var w := Run(INIT, events);
    EmptyIsOk();
    RunKeepsInv(INIT, events);
    assert RestingOk(w, c);
    if Blemished(w, c) {
      var who :| Culprit(w, who) && w.drawn[who] == c;
      CulpritsSwallow(events, who);
      assert Poisoner(events, who, c);
    }
    if who :| Poisoner(events, who, c) {
      CulpritsSwallow(events, who);
      assert Culprit(w, who);
    }
  }

  // ----- how long it stays -----

  predicate Poisoned(w: World, c: Conn) {
    c in w.resting && w.resting[c].Aborted?
  }

  predicate Sound(w: World, c: Conn) {
    c in w.resting && w.resting[c].Idle?
  }

  /** The events that take `c` out of the pool for good: it idled too long, a statement
      through the pool drew it, or it broke.  A BEGIN that merely fails is not one. */
  predicate Clears(w: World, e: Event, c: Conn) {
    match e
    case Expire(conn) => conn == c
    case Query(conn, k, step) => conn == c && Due(Server(w, k), step)
    case Begin(who, conn, breaks) => conn == c && breaks && MayBegin(w, who)
    case _ => false
  }

  predicate EverClears(w: World, events: seq<Event>, c: Conn)
    decreases |events|
  {
    events != [] && (Clears(w, events[0], c) || EverClears(Next(w, events[0]), events[1..], c))
  }

  ghost predicate Unheld(w: World, c: Conn) {
    forall who :: HoldsIn(w, who) && who in w.drawn ==> w.drawn[who] != c
  }

  /** Nobody has `c`, and the pool does not either. */
  ghost predicate Gone(w: World, c: Conn) {
    c !in w.resting && c < w.next && Unheld(w, c)
  }

  lemma RestingIsUnheld(w: World, c: Conn)
    requires Inv(w) && c in w.resting
    ensures c < w.next && Unheld(w, c)
  {
    assert RestingOk(w, c);
    forall who | HoldsIn(w, who) && who in w.drawn
      ensures w.drawn[who] != c
    {
      assert DrawnOk(w, who);
    }
  }

  /** The pool knows of `c` what it knew before. */
  predicate SameRest(w: World, w': World, c: Conn) {
    (c in w'.resting <==> c in w.resting) && (c in w.resting ==> w'.resting[c] == w.resting[c])
  }

  /** A step on the server puts back no connection but that of its own request. */
  lemma ServerStepRests(w: World, k: Key, step: I.Event, c: Conn)
    requires Inv(w) && TakesNone(step) && Unheld(w, c)
    ensures SameRest(w, ServerStep(w, k, step), c) && Unheld(ServerStep(w, k, step), c)
  {
    var w' := ServerStep(w, k, step);
    if PutsBack(w, k, step) {
      assert HoldsIn(w, Who(k, step.rid));
    }
    forall who | HoldsIn(w', who) && who in w'.drawn
      ensures w'.drawn[who] != c
    {
      HoldersAreNotNew(w, k, step, who);
    }
  }

  lemma SoundQueryRests(w: World, conn: Conn, k: Key, step: I.Event, c: Conn)
    requires Inv(w) && Sound(w, conn) && Due(Server(w, k), step) && Unheld(w, c)
    ensures Unheld(Queried(w, conn, k, step), c) && SameRest(w, Queried(w, conn, k, step), c)
  {
    ServerStepRests(w, k, step, c);
  }

  lemma UnheldInPool(w: World, w': World, c: Conn)
    requires Unheld(w, c) && SameRequests(w, w')
    ensures Unheld(w', c)
  {
    SameBlemishes(w, w');
  }

  lemma RefusalTakesNone(s: I.State, step: I.Event)
    requires Due(s, step)
    ensures TakesNone(step) && TakesNone(Refusal(step))
  {
  }

  lemma RefusedQueryRests(w: World, conn: Conn, k: Key, step: I.Event, c: Conn)
    requires Inv(w) && Poisoned(w, conn) && Due(Server(w, k), step) && Unheld(w, c)
    ensures Unheld(Queried(w, conn, k, step), c) && SameRest(Drop(w, conn), Queried(w, conn, k, step), c)
  {
    DroppingKeepsInv(w, conn);
    UnheldInPool(w, Drop(w, conn), c);
    RefusalTakesNone(Server(w, k), step);
    ServerStepRests(Drop(w, conn), k, Refusal(step), c);
  }

  lemma QueryRests(w: World, conn: Conn, k: Key, step: I.Event, c: Conn)
    requires Inv(w) && conn in w.resting && Due(Server(w, k), step) && Unheld(w, c)
    ensures Unheld(Queried(w, conn, k, step), c)
    ensures SameRest(if Sound(w, conn) then w else Drop(w, conn), Queried(w, conn, k, step), c)
  {
    assert RestingOk(w, conn);
    if Sound(w, conn) {
      SoundQueryRests(w, conn, k, step, c);
    } else {
      RefusedQueryRests(w, conn, k, step, c);
    }
  }

  lemma BeganUnheld(w: World, w': World, who: Who, conn: Conn, c: Conn)
    requires conn in w.resting && Began(w, w', who, conn) && Unheld(w, c)
    requires conn != c || who !in w'.drawn
    ensures Unheld(w', c)
  {
    forall q | HoldsIn(w', q) && q in w'.drawn
      ensures w'.drawn[q] != c
    {
      assert q == who || HoldsIn(w, q);
    }
  }

  lemma BeginUnheld(w: World, who: Who, conn: Conn, breaks: bool, c: Conn)
    requires Inv(w) && MayBegin(w, who) && conn in w.resting && Unheld(w, c) && !Sound(w, c)
    ensures Unheld(Next(w, Begin(who, conn, breaks)), c)
  {
    BeginIs(w, who, conn, breaks);
    BeginBegins(w, who, conn, breaks);
    BeganUnheld(w, Next(w, Begin(who, conn, breaks)), who, conn, c);
  }

  /** An event as seen from a connection nobody holds and that is not sound. */
  ghost predicate Passes(w: World, w': World, c: Conn, cleared: bool) {
    Unheld(w', c) && w.next <= w'.next && if cleared then c !in w'.resting else SameRest(w, w', c)
  }

  lemma QueriedKeepsNext(w: World, conn: Conn, k: Key, step: I.Event)
    requires conn in w.resting
    ensures Queried(w, conn, k, step).next == w.next
  {
  }

  lemma DueQueryPasses(w: World, conn: Conn, k: Key, step: I.Event, c: Conn)
    requires Inv(w) && Unheld(w, c) && !Sound(w, c) && conn in w.resting && Due(Server(w, k), step)
    ensures Passes(w, Queried(w, conn, k, step), c, conn == c)
  {
    QueryRests(w, conn, k, step, c);
    QueriedKeepsNext(w, conn, k, step);
  }

  lemma QueryPasses(w: World, conn: Conn, k: Key, step: I.Event, c: Conn)
    requires Inv(w) && Unheld(w, c) && !Sound(w, c)
    ensures var e := Query(conn, k, step); Passes(w, Next(w, e), c, c in w.resting && Clears(w, e, c))
  {
    if conn in w.resting && Due(Server(w, k), step) {
      DueQueryPasses(w, conn, k, step, c);
    } else {
      assert Next(w, Query(conn, k, step)) == w;
    }
  }

  lemma BeginPasses(w: World, who: Who, conn: Conn, breaks: bool, c: Conn)
    requires Inv(w) && Unheld(w, c) && !Sound(w, c)
    ensures var e := Begin(who, conn, breaks); Passes(w, Next(w, e), c, c in w.resting && Clears(w, e, c))
  {
    if conn in w.resting && MayBegin(w, who) {
      BeginIs(w, who, conn, breaks);
      BeginUnheld(w, who, conn, breaks, c);
    }
  }

  lemma PoolPasses(w: World, e: Event, c: Conn)
    requires Inv(w) && Unheld(w, c) && c < w.next && (e.Connect? || e.Expire?)
    ensures Passes(w, Next(w, e), c, c in w.resting && Clears(w, e, c))
  {
    UnheldInPool(w, Next(w, e), c);
  }

  lemma EventPasses(w: World, e: Event, c: Conn)
    requires Inv(w) && Unheld(w, c) && c < w.next && !Sound(w, c)
    ensures Passes(w, Next(w, e), c, c in w.resting && Clears(w, e, c))
  {
    match e
    case Query(conn, k, step) => QueryPasses(w, conn, k, step, c);
    case Begin(who, conn, breaks) => BeginPasses(w, who, conn, breaks, c);
    case Own(k, step) =>
      if IsOwn(step) { ServerStepRests(w, k, step, c); }
    case _ => PoolPasses(w, e, c);
  }

  lemma GoneStays(w: World, e: Event, c: Conn)
    requires Inv(w) && Gone(w, c)
    ensures Gone(Next(w, e), c)
  {
    EventPasses(w, e, c);
  }

  lemma PoisonStep(w: World, e: Event, c: Conn)
    requires Inv(w) && Poisoned(w, c)
    ensures Poisoned(Next(w, e), c) <==> !Clears(w, e, c)
    ensures Clears(w, e, c) ==> Gone(Next(w, e), c)
  {
    RestingIsUnheld(w, c);
    EventPasses(w, e, c);
  }

  lemma {:induction false} GoneForEver(w: World, events: seq<Event>, c: Conn)
    requires Inv(w) && Gone(w, c)
    ensures !Poisoned(Run(w, events), c)
    decreases |events|
  {
    if events == [] {
    } else {
      GoneStays(w, events[0], c);
      NextKeepsInv(w, events[0]);
      GoneForEver(Next(w, events[0]), events[1..], c);
    }
  }

  /** A poisoned connection stays in the pool, through any number of requests whose BEGIN
      it fails, exactly until one of those events takes it out. */
  lemma {:induction false} PoisonLastsUntilCleared(w: World, events: seq<Event>, c: Conn)
    requires Inv(w) && Poisoned(w, c)
    ensures Poisoned(Run(w, events), c) <==> !EverClears(w, events, c)
    decreases |events|
  {
    if events == [] {
    } else {
      PoisonStep(w, events[0], c);
      NextKeepsInv(w, events[0]);
      if Clears(w, events[0], c) {
        GoneForEver(Next(w, events[0]), events[1..], c);
      } else {
        PoisonLastsUntilCleared(Next(w, events[0]), events[1..], c);
      }
    }
  }

  // ----- what it costs -----

  function AbortedOnes(resting: map<Conn, I.Session>): set<Conn> {
    set c | c in resting && resting[c].Aborted?
  }

  lemma OneMoreRests(resting: map<Conn, I.Session>, c: Conn, session: I.Session)
    requires c !in resting
    ensures |AbortedOnes(resting[c := session])| == |AbortedOnes(resting)| + if session.Aborted? then 1 else 0
  {
    if session.Aborted? {
      assert AbortedOnes(resting[c := session]) == AbortedOnes(resting) + {c};
    } else {
      assert AbortedOnes(resting[c := session]) == AbortedOnes(resting);
    }
  }

  lemma OneFewerRests(resting: map<Conn, I.Session>, c: Conn)
    ensures |AbortedOnes(resting - {c})| ==
            |AbortedOnes(resting)| - if c in resting && resting[c].Aborted? then 1 else 0
  {
    assert AbortedOnes(resting - {c}) == AbortedOnes(resting) - {c};
  }

  function CountPoisoned(w: World): nat { |AbortedOnes(w.resting)| }

  /** The statement is refused because of the connection it was drawn on. */
  predicate Refuses(w: World, e: Event) {
    e.Query? && Poisoned(w, e.conn) && Due(Server(w, e.key), e.step)
  }

  /** A poisoned connection leaves the pool. */
  predicate Leaves(w: World, e: Event) {
    (e.Expire? || e.Query? || e.Begin?) && Poisoned(w, e.conn) && Clears(w, e, e.conn)
  }

  predicate Poisons(w: World, e: Event) {
    e.Own? && IsOwn(e.step) && Aborts(w, e.key, e.step)
  }

  function Refusals(w: World, events: seq<Event>): nat
    decreases |events|
  {
    if events == [] then 0
    else (if Refuses(w, events[0]) then 1 else 0) + Refusals(Next(w, events[0]), events[1..])
  }

  function Departures(w: World, events: seq<Event>): nat
    decreases |events|
  {
    if events == [] then 0
    else (if Leaves(w, events[0]) then 1 else 0) + Departures(Next(w, events[0]), events[1..])
  }

  function Poisonings(w: World, events: seq<Event>): nat
    decreases |events|
  {
    if events == [] then 0
    else (if Poisons(w, events[0]) then 1 else 0) + Poisonings(Next(w, events[0]), events[1..])
  }

  lemma ServerStepPoisons(w: World, k: Key, step: I.Event)
    requires Inv(w) && TakesNone(step)
    ensures CountPoisoned(ServerStep(w, k, step)) == CountPoisoned(w) + if Aborts(w, k, step) then 1 else 0
  {
    if PutsBack(w, k, step) {
      WhatComesBack(w, k, step);
      OneMoreRests(w.resting, w.drawn[Who(k, step.rid)], I.Next(Server(w, k), step).requests[step.rid].session);
    }
  }

  /** A request in its lookups has no connection to put back, and one that releases its
      claim has rolled back before. */
  lemma QueriesPoisonNobody(w: World, k: Key, step: I.Event)
    requires Inv(w) && (step.Release? || step.Claim? || step.Fetch? || step.Reclaim? || step.LookupFails?)
    ensures !Aborts(w, k, step)
  {
    if HoldsIn(w, Who(k, step.rid)) {
      var r := Req(w, Who(k, step.rid));
      assert I.HandlerShape(r) && I.ConnectionShape(r) by {
        assert I.Inv(Server(w, k));
        assert I.RequestOk(Server(w, k), step.rid, r);
      }
      if step.Release? {
        ReleasesKeepTheSession(Server(w, k), step);
      } else {
        LookupsReleaseNothing(Server(w, k), step);
      }
    }
  }

  lemma ReleasesKeepTheSession(s: I.State, step: I.Event)
    requires step.Release? && step.rid in s.requests
    requires I.HandlerShape(s.requests[step.rid]) && I.ConnectionShape(s.requests[step.rid])
    requires Holds(s.requests[step.rid])
    ensures var r' := I.Next(s, step).requests[step.rid]; r'.releases == 0 || !r'.session.Aborted?
  {
  }

  lemma LookupsReleaseNothing(s: I.State, step: I.Event)
    requires step.Claim? || step.Fetch? || step.Reclaim? || step.LookupFails?
    requires step.rid in s.requests
    ensures I.Next(s, step).requests[step.rid].releases == s.requests[step.rid].releases
  {
  }

  lemma QueryBalance(w: World, conn: Conn, k: Key, step: I.Event)
    requires Inv(w) && conn in w.resting && Due(Server(w, k), step)
    ensures CountPoisoned(Queried(w, conn, k, step)) + (if Poisoned(w, conn) then 1 else 0) == CountPoisoned(w)
  {
    assert RestingOk(w, conn);
    if w.resting[conn].Idle? {
      if HasMover(step) { QueriesPoisonNobody(w, k, step); }
      ServerStepPoisons(w, k, step);
    } else {
      DroppingKeepsInv(w, conn);
      OneFewerRests(w.resting, conn);
      if HasMover(Refusal(step)) { QueriesPoisonNobody(Drop(w, conn), k, Refusal(step)); }
      ServerStepPoisons(Drop(w, conn), k, Refusal(step));
    }
  }

  /** One event: what comes back aborted is there or has left. */
  lemma PoisonBalance(w: World, e: Event)
    requires Inv(w)
    ensures CountPoisoned(Next(w, e)) + (if Leaves(w, e) then 1 else 0) ==
            CountPoisoned(w) + if Poisons(w, e) then 1 else 0
  {
    match e
    case Connect =>
      NewIsUnblemished(w);
      OneMoreRests(w.resting, w.next, I.Idle);
    case Expire(conn) => OneFewerRests(w.resting, conn);
    case Query(conn, k, step) =>
      if conn in w.resting && Due(Server(w, k), step) { QueryBalance(w, conn, k, step); }
    case Begin(who, conn, breaks) => BeginBalance(w, who, conn, breaks);
    case Own(k, step) =>
      if IsOwn(step) { ServerStepPoisons(w, k, step); }
  }

  lemma BeginBalance(w: World, who: Who, conn: Conn, breaks: bool)
    ensures var e := Begin(who, conn, breaks);
            CountPoisoned(Next(w, e)) + (if Leaves(w, e) then 1 else 0) == CountPoisoned(w)
  {
    if conn in w.resting && MayBegin(w, who) {
      BeginIs(w, who, conn, breaks);
      OneFewerRests(w.resting, conn);
    }
  }

  lemma {:induction false} PoisonsBalance(w: World, events: seq<Event>)
    requires Inv(w)
    ensures CountPoisoned(Run(w, events)) + Departures(w, events) == CountPoisoned(w) + Poisonings(w, events)
    ensures Refusals(w, events) <= Departures(w, events)
    decreases |events|
  {
    if events == [] {
    } else {
      PoisonBalance(w, events[0]);
      NextKeepsInv(w, events[0]);
      PoisonsBalance(Next(w, events[0]), events[1..]);
    }
  }

  /** Conservation: every connection that ever came back aborted still rests in the pool or
      has left it, once.  So a swallowed failure is paid for by one refused statement of
      somebody else at most, besides any number of BEGINs. */
  lemma PoisonIsConserved(events: seq<Event>)
    ensures CountPoisoned(Run(INIT, events)) + Departures(INIT, events) == Poisonings(INIT, events)
    ensures Refusals(INIT, events) <= Poisonings(INIT, events)
  {
    assert AbortedOnes(INIT.resting) == {};
    EmptyIsOk();
    PoisonsBalance(INIT, events);
  }

  // ----- what it does to a request -----

  lemma ComingBackAborted(w: World, k: Key, step: I.Event)
    requires HasMover(step) && Who(k, step.rid) in w.drawn && HoldsIn(w, Who(k, step.rid))
    requires step.rid in I.Next(Server(w, k), step).requests
    requires I.Next(Server(w, k), step).requests[step.rid].releases == 1
    requires I.Next(Server(w, k), step).requests[step.rid].session.Aborted?
    ensures Poisoned(ServerStep(w, k, step), w.drawn[Who(k, step.rid)])
  {
  }

  lemma AbortedPoisons(w: World, who: Who, reply: I.Response)
    requires who in w.drawn && HoldsIn(w, who) && Req(w, who).phase.Working?
    requires Req(w, who).session.Aborted? && !I.Threw(Req(w, who)) && reply.status < 400
    ensures Poisoned(Next(w, Own(who.key, I.Send(who.rid, reply))), w.drawn[who])
  {
    I.AbortedSettles(Server(w, who.key), who.rid, reply);
    ComingBackAborted(w, who.key, I.Send(who.rid, reply));
  }

  lemma StillAtWork(w: World, who: Who, part: N.Program)
    requires HoldsIn(w, who)
    ensures Next(w, Own(who.key, I.Handle(who.rid, part))) ==
            Put(w, who.key, I.Next(Server(w, who.key), I.Handle(who.rid, part)))
  {
    HandlingHolds(Server(w, who.key), who.rid, part);
    HoldingOn(w, who.key, I.Handle(who.rid, part));
  }

  lemma HoldingOn(w: World, k: Key, step: I.Event)
    requires HasMover(step) && step.rid in I.Next(Server(w, k), step).requests
    requires Holds(I.Next(Server(w, k), step).requests[step.rid])
    ensures ServerStep(w, k, step) == Put(w, k, I.Next(Server(w, k), step))
  {
  }

  /** From every state: a request whose handler swallows a failed statement and answers
      with a success poisons the connection it worked on. */
  lemma SwallowingPoisons(w: World, who: Who, part: N.Program, reply: I.Response)
    requires Inv(w) && HoldsIn(w, who) && Req(w, who).phase.Working?
    requires Req(w, who).handler.Skip? && N.FateOf(part).Swallowed? && reply.status < 400
    ensures who in w.drawn
    ensures Poisoned(Next(Next(w, Own(who.key, I.Handle(who.rid, part))), Own(who.key, I.Send(who.rid, reply))),
                     w.drawn[who])
  {
    StillAtWork(w, who, part);
    assert I.RequestOk(Server(w, who.key), who.rid, Req(w, who)) by { assert I.Inv(Server(w, who.key)); }
    I.SwallowingAborts(Server(w, who.key), who.rid, part);
    HandlingHolds(Server(w, who.key), who.rid, part);
    AbortedPoisons(Next(w, Own(who.key, I.Handle(who.rid, part))), who, reply);
  }

  lemma HandlingHolds(s: I.State, rid: Rid, part: N.Program)
    requires rid in s.requests && Holds(s.requests[rid])
    ensures var s' := I.Next(s, I.Handle(rid, part));
            s' == I.DoHandle(s, rid, part) && rid in s'.requests && Holds(s'.requests[rid])
  {
  }

  /** The connections a request that finds the row taken draws, one statement after the
      other; one that finds it free needs only the first and the last. */
  datatype Draw = Draw(claim: Conn, fetch: Conn, reclaim: Conn, begin: Conn)

  predicate AllRest(w: World, d: Draw) {
    d.claim in w.resting && d.fetch in w.resting && d.reclaim in w.resting && d.begin in w.resting
  }

  predicate Free(w: World, k: Key) {
    I.Claimable(Server(w, k).row, Server(w, k).clock)
  }

  /** The connections of the lookups the request really makes are sound. */
  predicate LookupsSound(w: World, k: Key, d: Draw) {
    Sound(w, d.claim) && (Free(w, k) || (Sound(w, d.fetch) && Sound(w, d.reclaim)))
  }

  function Lookups(w: World, who: Who, hash: I.Hash, appNow: int, d: Draw): World {
    Next(Next(Next(Next(w, Own(who.key, I.Arrive(who.rid, hash))), Query(d.claim, who.key, I.Claim(who.rid))),
              Query(d.fetch, who.key, I.Fetch(who.rid, appNow))), Query(d.reclaim, who.key, I.Reclaim(who.rid)))
  }

  /** A request from its arrival to its BEGIN, with nothing in between. */
  function Attempt(who: Who, hash: I.Hash, appNow: int, d: Draw): seq<Event> {
    [Own(who.key, I.Arrive(who.rid, hash)), Query(d.claim, who.key, I.Claim(who.rid)),
     Query(d.fetch, who.key, I.Fetch(who.rid, appNow)), Query(d.reclaim, who.key, I.Reclaim(who.rid)),
     Begin(who, d.begin, false)]
  }

  lemma UnrollOne(w: World, es: seq<Event>, i: nat)
    requires i < |es|
    ensures Run(w, es[i..]) == Run(Next(w, es[i]), es[i + 1..])
    ensures i == |es| - 1 ==> Run(w, es[i..]) == Next(w, es[i])
  {
    assert es[i..][1..] == es[i + 1..];
  }

  lemma FiveSteps(w: World, es: seq<Event>)
    requires |es| == 5
    ensures Run(w, es) == Next(Next(Next(Next(Next(w, es[0]), es[1]), es[2]), es[3]), es[4])
  {
    var w1 := Next(w, es[0]);
    var w2 := Next(w1, es[1]);
    var w3 := Next(w2, es[2]);
    assert es[0..] == es;
    UnrollOne(w, es, 0);
    UnrollOne(w1, es, 1);
    UnrollOne(w2, es, 2);
    UnrollOne(w3, es, 3);
    UnrollOne(Next(w3, es[3]), es, 4);
  }

  /** A request that has no connection puts none back. */
  lemma PlainStep(w: World, k: Key, step: I.Event)
    requires !HasMover(step) || Who(k, step.rid) !in w.drawn
    ensures ServerStep(w, k, step) == Put(w, k, I.Next(Server(w, k), step))
  {
  }

  lemma NewcomerArrives(w: World, who: Who, hash: I.Hash)
    requires Inv(w) && !Known(w, who)
    ensures who !in w.drawn
    ensures var s := Server(w, who.key);
            Next(w, Own(who.key, I.Arrive(who.rid, hash))) ==
            Put(w, who.key, s.(requests := s.requests[who.rid := I.Newcomer(hash)]))
  {
    assert who in w.drawn ==> DrawnOk(w, who);
  }

  /** Once a request has claimed or ended, no lookup of it is due. */
  lemma NothingDue(w: World, who: Who, appNow: int, d: Draw)
    requires Known(w, who) && (Req(w, who).phase.Claimed? || Req(w, who).phase.Done?)
    ensures Next(Next(w, Query(d.fetch, who.key, I.Fetch(who.rid, appNow))),
                 Query(d.reclaim, who.key, I.Reclaim(who.rid))) == w
  {
  }

  /** A lookup that is due, on a sound connection and on a poisoned one. */
  lemma LookupOn(w: World, c: Conn, k: Key, step: I.Event)
    requires c in w.resting && (w.resting[c].Idle? || w.resting[c].Aborted?) && Due(Server(w, k), step)
    requires (step.Claim? || step.Fetch? || step.Reclaim?) && Who(k, step.rid) !in w.drawn
    ensures Next(w, Query(c, k, step)) ==
            if Sound(w, c) then Put(w, k, I.Next(Server(w, k), step))
            else Put(Drop(w, c), k, I.Move(Server(w, k), step.rid, I.Done(I.Failed(500))))
  {
    PlainStep(w, k, step);
    PlainStep(Drop(w, c), k, Refusal(step));
  }

  /** How the lookups of a request end: it has claimed the row, through sound connections
      only, or a refused statement ended it and it left the row alone. */
  ghost predicate LookedUp(w: World, w': World, who: Who, sound: bool) {
    && Known(w', who) && who !in w'.drawn
    && var s, s' := Server(w, who.key), Server(w', who.key);
       if sound
       then Req(w', who).phase == I.Claimed(s.clock) && I.Owns(s'.row, Some(s.clock)) && w'.resting == w.resting
       else Req(w', who).phase == I.Done(I.Failed(500)) && s'.row == s.row
  }

  lemma FreeRow(w: World, who: Who, hash: I.Hash, appNow: int, d: Draw)
    requires Inv(w) && !Known(w, who) && Server(w, who.key).holder.None? && AllRest(w, d) && Free(w, who.key)
    ensures LookedUp(w, Lookups(w, who, hash, appNow, d), who, Sound(w, d.claim))
  {
    NewcomerArrives(w, who, hash);
    var w1 := Next(w, Own(who.key, I.Arrive(who.rid, hash)));
    assert RestingOk(w, d.claim);
    LookupOn(w1, d.claim, who.key, I.Claim(who.rid));
    NothingDue(Next(w1, Query(d.claim, who.key, I.Claim(who.rid))), who, appNow, d);
  }

  /** FETCH and RECLAIM of a request that lost its CLAIM to a row it may take. */
  lemma LostClaim(w: World, who: Who, hash: I.Hash, appNow: int, d: Draw)
    requires Known(w, who) && who !in w.drawn && Req(w, who) == I.Newcomer(hash).(phase := I.ClaimLost)
    requires Server(w, who.key).holder.None? && Server(w, who.key).row.Some?
    requires I.Takeable(Server(w, who.key).row, hash, appNow)
    requires d.fetch in w.resting && (w.resting[d.fetch].Idle? || w.resting[d.fetch].Aborted?)
    requires d.reclaim in w.resting && (w.resting[d.reclaim].Idle? || w.resting[d.reclaim].Aborted?)
    ensures LookedUp(w, Next(Next(w, Query(d.fetch, who.key, I.Fetch(who.rid, appNow))),
                             Query(d.reclaim, who.key, I.Reclaim(who.rid))),
                     who, Sound(w, d.fetch) && Sound(w, d.reclaim))
  {
    LookupOn(w, d.fetch, who.key, I.Fetch(who.rid, appNow));
    var w1 := Next(w, Query(d.fetch, who.key, I.Fetch(who.rid, appNow)));
    if Sound(w, d.fetch) {
      assert Server(w1, who.key) == I.Move(Server(w, who.key), who.rid, I.Stale(Server(w, who.key).row.value.lockedAt));
      LookupOn(w1, d.reclaim, who.key, I.Reclaim(who.rid));
    }
  }

  lemma TakenRow(w: World, who: Who, hash: I.Hash, appNow: int, d: Draw)
    requires Inv(w) && !Known(w, who) && Server(w, who.key).holder.None? && AllRest(w, d) && !Free(w, who.key)
    requires I.Takeable(Server(w, who.key).row, hash, appNow)
    ensures LookedUp(w, Lookups(w, who, hash, appNow, d), who,
                     Sound(w, d.claim) && Sound(w, d.fetch) && Sound(w, d.reclaim))
  {
    NewcomerArrives(w, who, hash);
    var w1 := Next(w, Own(who.key, I.Arrive(who.rid, hash)));
    assert RestingOk(w, d.claim) && RestingOk(w, d.fetch) && RestingOk(w, d.reclaim);
    LookupOn(w1, d.claim, who.key, I.Claim(who.rid));
    var w2 := Next(w1, Query(d.claim, who.key, I.Claim(who.rid)));
    if Sound(w, d.claim) {
      LostClaim(w2, who, hash, appNow, d);
    } else {
      NothingDue(w2, who, appNow, d);
    }
  }

  lemma LookupsEnd(w: World, who: Who, hash: I.Hash, appNow: int, d: Draw)
    requires Inv(w) && !Known(w, who) && Server(w, who.key).holder.None? && AllRest(w, d)
    requires I.Takeable(Server(w, who.key).row, hash, appNow)
    ensures LookedUp(w, Lookups(w, who, hash, appNow, d), who, LookupsSound(w, who.key, d))
  {
    if Free(w, who.key) {
      FreeRow(w, who, hash, appNow, d);
    } else {
      TakenRow(w, who, hash, appNow, d);
    }
  }

  lemma BeginOn(w: World, who: Who, c: Conn, token: nat)
    requires Known(w, who) && Req(w, who).phase == I.Claimed(token)
    requires c in w.resting && (w.resting[c].Idle? || w.resting[c].Aborted?)
    ensures var w' := Next(w, Begin(who, c, false));
            && Known(w', who) && Server(w', who.key).row == Server(w, who.key).row
            && if Sound(w, c) then Req(w', who).phase == I.Working(token) && c !in w'.resting
               else Req(w', who).phase == I.Releasing(token, I.Failed(500), false) && Poisoned(w', c)
  {
  }

  /** What an undisturbed attempt comes to: work on a connection of its own, a refused
      statement that left the row alone, or a refused BEGIN that left the row claimed. */
  ghost predicate CameTo(w: World, w': World, who: Who, d: Draw) {
    && Known(w', who)
    && var phase, row, token := Req(w', who).phase, Server(w', who.key).row, Server(w, who.key).clock;
    && (phase.Working? <==> LookupsSound(w, who.key, d) && Sound(w, d.begin))
    && (phase.Working? ==> I.Owns(row, Some(token)) && d.begin !in w'.resting)
    && (!phase.Working? ==>
          || (phase == I.Done(I.Failed(500)) && row == Server(w, who.key).row)
          || (phase == I.Releasing(token, I.Failed(500), false) && I.Owns(row, Some(token)) && Poisoned(w', d.begin)))
  }

  lemma BeginDecides(w: World, w1: World, who: Who, d: Draw)
    requires d.begin in w.resting && (w.resting[d.begin].Idle? || w.resting[d.begin].Aborted?)
    requires LookedUp(w, w1, who, LookupsSound(w, who.key, d))
    ensures CameTo(w, Next(w1, Begin(who, d.begin, false)), who, d)
  {
    if LookupsSound(w, who.key, d) {
      BeginOn(w1, who, d.begin, Server(w, who.key).clock);
    } else {
      assert Next(w1, Begin(who, d.begin, false)) == w1;
    }
  }

  /** What is left of "no key is poisoned" on a pool that is: once the window has passed, a
      request with the same hash gets to work if and only if every connection it draws is
      sound.  Otherwise it gets a 500, and the row is as it was unless BEGIN was refused. */
  lemma WorksExactlyOnSoundConnections(w: World, who: Who, hash: I.Hash, appNow: int, d: Draw)
    requires Inv(w) && !Known(w, who) && Server(w, who.key).holder.None? && AllRest(w, d)
    requires I.Takeable(Server(w, who.key).row, hash, appNow)
    ensures Inv(Run(w, Attempt(who, hash, appNow, d)))
    ensures CameTo(w, Run(w, Attempt(who, hash, appNow, d)), who, d)
  {
    RunKeepsInv(w, Attempt(who, hash, appNow, d));
    FiveSteps(w, Attempt(who, hash, appNow, d));
    LookupsEnd(w, who, hash, appNow, d);
    assert RestingOk(w, d.begin);
    BeginDecides(w, Lookups(w, who, hash, appNow, d), who, d);
  }

  /** The release after a refused BEGIN is a statement through the pool as well: it frees
      the key if and only if the connection it draws is sound, and otherwise the key stays
      locked for another window. */
  lemma ReleaseFreesExactlyOnSoundConnection(w: World, who: Who, c: Conn)
    requires Inv(w) && c in w.resting && Known(w, who) && Server(w, who.key).holder.None?
    requires Req(w, who).phase.Releasing? && !Req(w, who).phase.connected
    requires I.Owns(Server(w, who.key).row, Some(Req(w, who).phase.token))
    ensures var w' := Next(w, Query(c, who.key, I.Release(who.rid, true)));
            && (Server(w', who.key).row.None? <==> Sound(w, c))
            && (!Sound(w, c) ==> Server(w', who.key).row == Server(w, who.key).row && c !in w'.resting)
            && Known(w', who) && Req(w', who).phase == I.Done(Req(w, who).phase.verdict)
  {
    assert RestingOk(w, c);
    HoldsNothing(w, who);
    ReleaseOn(w, who, c);
    if Sound(w, c) {
      ReleasesUnconnected(w, who, true);
    } else {
      ReleasesUnconnected(Drop(w, c), who, false);
    }
  }

  lemma ReleaseOn(w: World, who: Who, c: Conn)
    requires c in w.resting && Known(w, who) && Req(w, who).phase.Releasing?
    ensures Next(w, Query(c, who.key, I.Release(who.rid, true))) ==
            if Sound(w, c) then ServerStep(w, who.key, I.Release(who.rid, true))
            else ServerStep(Drop(w, c), who.key, I.Release(who.rid, false))
  {
  }

  lemma HoldsNothing(w: World, who: Who)
    requires ServersOk(w) && Known(w, who) && Req(w, who).phase.Releasing? && !Req(w, who).phase.connected
    ensures !HoldsIn(w, who)
  {
    assert I.Inv(Server(w, who.key));
    assert I.RequestOk(Server(w, who.key), who.rid, Req(w, who));
  }

  lemma ReleasesUnconnected(w: World, who: Who, executed: bool)
    requires Known(w, who) && Req(w, who).phase.Releasing? && !HoldsIn(w, who) && Server(w, who.key).holder.None?
    requires I.Owns(Server(w, who.key).row, Some(Req(w, who).phase.token))
    ensures var w' := ServerStep(w, who.key, I.Release(who.rid, executed));
            && Server(w', who.key).row == (if executed then None else Server(w, who.key).row)
            && Known(w', who) && Req(w', who).phase == I.Done(Req(w, who).phase.verdict) && w'.resting == w.resting
  {
  }

  // ----- what every event does to the pool, and nothing else -----

  /** The answers a lookup gets from a refused statement, and what a refused release says. */
  predicate RefusedAs(r: I.Request, r': I.Request) {
    if r.phase.Releasing? then r'.phase == I.Done(r.phase.verdict) else r'.phase == I.Done(I.Failed(500))
  }

  /** A new connection is fresh and idle; one that idles out leaves; nothing else moves. */
  lemma RestIsDecided(w: World, c: Conn)
    requires Inv(w)
    ensures var w' := Next(w, Connect);
            && w'.servers == w.servers && w'.drawn == w.drawn && w'.resting == w.resting[w.next := I.Idle]
            && w.next !in w.resting && w.next !in w.drawn.Values
    ensures Next(w, Expire(c)) == w.(resting := w.resting - {c})
  {
    assert w.next in w.resting ==> RestingOk(w, w.next);
    forall who | who in w.drawn
      ensures w.drawn[who] != w.next
    {
      assert DrawnOk(w, who);
    }
  }

  /** A refused statement moves its own request alone, and that one to its end. */
  lemma RefusalsAre(s: I.State, step: I.Event)
    requires Due(s, step)
    ensures var s' := I.Next(s, Refusal(step));
            && s'.row == s.row && s'.commits == s.commits
            && (step.Prune? ==> s' == s)
            && (HasMover(step) ==>
                  step.rid in s.requests && step.rid in s'.requests
                  && RefusedAs(s.requests[step.rid], s'.requests[step.rid]))
  {
  }

  /** The statements that go through the pool: the three lookups and the release of a
      request that has come to them, and a prune at any time. */
  lemma DueIsDecided(s: I.State, rid: Rid, appNow: int, executed: bool)
    ensures Due(s, I.Prune)
    ensures Due(s, I.Claim(rid)) <==>
              rid in s.requests && (s.requests[rid].phase == I.Arrived || s.requests[rid].phase == I.RowGone)
    ensures Due(s, I.Fetch(rid, appNow)) <==> rid in s.requests && s.requests[rid].phase == I.ClaimLost
    ensures Due(s, I.Reclaim(rid)) <==> rid in s.requests && s.requests[rid].phase.Stale?
    ensures Due(s, I.Release(rid, executed)) <==> executed && rid in s.requests && s.requests[rid].phase.Releasing?
  {
  }

  /** On an idle connection a statement runs as the protocol says, and leaves it there. */
  lemma SoundStatementIsDecided(w: World, conn: Conn, k: Key, step: I.Event)
    requires Inv(w) && conn in w.resting && w.resting[conn] == I.Idle && Due(Server(w, k), step)
    ensures var w' := Next(w, Query(conn, k, step));
            && Server(w', k) == I.Next(Server(w, k), step) && (forall j :: j != k ==> Server(w', j) == Server(w, j))
            && conn in w'.resting && w'.resting[conn] == I.Idle && w'.drawn == w.drawn
  {
    RestingIsUnheld(w, conn);
    QueryRests(w, conn, k, step, conn);
    ServersKeep(w, k, step);
  }

  /** On any other it is refused: it changes no row, ends its request, and takes the
      connection out of the pool. */
  lemma RefusedStatementIsDecided(w: World, conn: Conn, k: Key, step: I.Event)
    requires Inv(w) && conn in w.resting && w.resting[conn] != I.Idle && Due(Server(w, k), step)
    ensures var w' := Next(w, Query(conn, k, step)); var s, s' := Server(w, k), Server(w', k);
            && s'.row == s.row && s'.commits == s.commits && (forall j :: j != k ==> Server(w', j) == Server(w, j))
            && (step.Prune? ==> s' == s)
            && (HasMover(step) ==>
                  step.rid in s.requests && step.rid in s'.requests
                  && RefusedAs(s.requests[step.rid], s'.requests[step.rid]))
            && conn !in w'.resting && w'.drawn == w.drawn
  {
    assert RestingOk(w, conn);
    RefusedQueryIs(w, conn, k, step);
    RefusalsAre(Server(w, k), step);
  }

  lemma RefusedQueryIs(w: World, conn: Conn, k: Key, step: I.Event)
    requires Inv(w) && Poisoned(w, conn) && Due(Server(w, k), step)
    ensures var w' := Next(w, Query(conn, k, step));
            && conn !in w'.resting && w'.drawn == w.drawn
            && Server(w', k) == I.Next(Server(w, k), Refusal(step))
            && forall j :: j != k ==> Server(w', j) == Server(w, j)
  {
    RestingIsUnheld(w, conn);
    RefusedQueryRests(w, conn, k, step, conn);
    ServersKeep(Drop(w, conn), k, Refusal(step));
  }

  /** A connection that does not rest, or a statement that is not due, does nothing. */
  lemma NothingElseRuns(w: World, conn: Conn, k: Key, step: I.Event)
    requires conn !in w.resting || !Due(Server(w, k), step)
    ensures Next(w, Query(conn, k, step)) == w
  {
  }

  lemma ServersKeep(w: World, k: Key, step: I.Event)
    ensures Server(ServerStep(w, k, step), k) == I.Next(Server(w, k), step)
    ensures forall j :: j != k ==> Server(ServerStep(w, k, step), j) == Server(w, j)
    ensures ServerStep(w, k, step).drawn == w.drawn
  {
  }

  /** BEGIN takes an idle connection out for its request, which then works; it leaves an
      aborted one where it is and loses a broken one, and then the request goes on to
      release its claim. */
  lemma BeginIsDecided(w: World, who: Who, conn: Conn, breaks: bool)
    ensures var w' := Next(w, Begin(who, conn, breaks));
            if conn !in w.resting || !Known(w, who) || !Req(w, who).phase.Claimed? then w' == w
            else
              var token := Req(w, who).phase.token;
              && Known(w', who) && Server(w', who.key).row == Server(w, who.key).row
              && (!breaks && w.resting[conn] == I.Idle ==>
                    && Req(w', who).phase == I.Working(token) && Req(w', who).session == I.Open
                    && w'.resting == w.resting - {conn} && w'.drawn == w.drawn[who := conn])
              && (breaks || w.resting[conn] != I.Idle ==>
                    && Req(w', who).phase == I.Releasing(token, I.Failed(500), false) && w'.drawn == w.drawn
                    && w'.resting == if breaks then w.resting - {conn} else w.resting)
  {
  }

  /** The request at work ends with this step, on a connection that is not broken. */
  predicate GivesBack(w: World, k: Key, step: I.Event) {
    && HasMover(step) && HoldsIn(w, Who(k, step.rid))
    && var s' := I.Next(Server(w, k), step);
       step.rid in s'.requests && !Holds(s'.requests[step.rid]) && !s'.requests[step.rid].session.Lost?
  }

  lemma PutsBackExactly(w: World, k: Key, step: I.Event)
    requires Inv(w) && IsOwn(step)
    ensures PutsBack(w, k, step) <==> GivesBack(w, k, step)
  {
    if HasMover(step) && HoldsIn(w, Who(k, step.rid)) {
      HolderSteps(w, k, step);
    }
  }

  /** Then its connection rests again as its session is, idle or aborted, and nothing else
      in the pool changes. */
  lemma ConnectionsComeBack(w: World, k: Key, step: I.Event)
    requires Inv(w) && IsOwn(step) && GivesBack(w, k, step)
    ensures Who(k, step.rid) in w.drawn
    ensures var session := I.Next(Server(w, k), step).requests[step.rid].session;
            && (session.Idle? || session.Aborted?)
            && Next(w, Own(k, step)).resting == w.resting[w.drawn[Who(k, step.rid)] := session]
  {
    HolderSteps(w, k, step);
    PutsBackExactly(w, k, step);
  }

  /** In no other case does a connection come back. */
  lemma NothingElseComesBack(w: World, k: Key, step: I.Event)
    requires Inv(w) && IsOwn(step) && !GivesBack(w, k, step)
    ensures Next(w, Own(k, step)).resting == w.resting
  {
    PutsBackExactly(w, k, step);
  }

  /** What happens without the pool is the step of the protocol, on the server of its key. */
  lemma OwnIsDecided(w: World, k: Key, step: I.Event)
    requires IsOwn(step)
    ensures var w' := Next(w, Own(k, step));
            && w'.drawn == w.drawn && Server(w', k) == I.Next(Server(w, k), step)
            && forall j :: j != k ==> Server(w', j) == Server(w, j)
  {
    ServersKeep(w, k, step);
  }

  lemma HolderSteps(w: World, k: Key, step: I.Event)
    requires Inv(w) && IsOwn(step) && HasMover(step) && HoldsIn(w, Who(k, step.rid))
    ensures var who := Who(k, step.rid); var s' := I.Next(Server(w, k), step);
            && who in w.drawn && step.rid in s'.requests
            && (s'.requests[step.rid].session.Open? ==> Holds(s'.requests[step.rid]))
            && (s'.requests[step.rid].releases == 1 && !s'.requests[step.rid].session.Lost? <==>
                  !Holds(s'.requests[step.rid]) && !s'.requests[step.rid].session.Lost?)
  {
    assert DrawnOk(w, Who(k, step.rid));
    assert I.Inv(Server(w, k));
    StepIsSteady(Server(w, k), step, step.rid);
  }
}

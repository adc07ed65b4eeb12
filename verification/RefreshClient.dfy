/**
 * The 401 contract of apps/mobile/src/lib/apiClient.ts: any number of overlapping
 * calls share one refresh in flight.  The client is composed with the token table of
 * `RefreshTokens`; every await is a point where anything else may happen.
 */
module RefreshClient {
  import opened Prelude
  import T = RefreshTokens

  type CallId = nat

  datatype Conclusion = Refreshed | Retryable | LoggedOut

  /** The shared refresh, between two awaits of doRefresh. */
  datatype Flight =
    | NoFlight
    | Loading
    | Presented(token: T.Id)
    | Responded(outcome: T.Outcome)
    | Ended(conclusion: Conclusion)

  datatype CallPhase = Sending | Waiting | Retrying | Finished

  /** `store` is the refresh token of the saved session. */
  datatype Client = Client(store: Option<T.Id>, flight: Flight, calls: map<CallId, CallPhase>)

  // ----- the client's own steps -----

  function StartCall(c: Client, id: CallId): Client {
    if id in c.calls then c else c.(calls := c.calls[id := Sending])
  }

  /** A 401 on the first attempt joins the refresh in flight, or starts one. */
  function HearReply(c: Client, id: CallId, unauthorized: bool): Client {
    if id !in c.calls then c
    else if c.calls[id].Sending? && unauthorized then
      c.(calls := c.calls[id := Waiting], flight := if c.flight.NoFlight? then Loading else c.flight)
    else if c.calls[id].Sending? || c.calls[id].Retrying? then c.(calls := c.calls[id := Finished])
    else c
  }

  function LoadSession(c: Client): Client {
    if !c.flight.Loading? then c
    else c.(flight := if c.store.None? then Ended(LoggedOut) else Presented(c.store.value))
  }

  /** A well-formed answer is saved; a completed refusal clears the session. */
  function TakeAnswer(c: Client): Client {
    if !c.flight.Responded? then c
    else if c.flight.outcome.Rotated? then c.(store := Some(c.flight.outcome.successor), flight := Ended(Refreshed))
    else c.(store := None, flight := Ended(LoggedOut))
  }

  /** No answer, or one that could not be read: the session stands. */
  function LoseAnswer(c: Client): Client {
    if c.flight.Presented? || c.flight.Responded? then c.(flight := Ended(Retryable)) else c
  }

  /** The promise settles: the slot empties and every waiting call resumes. */
  function Conclude(c: Client): Client {
    if !c.flight.Ended? then c
    else
      var resumed := if c.flight.conclusion.Refreshed? then Retrying else Finished;
      c.(flight := NoFlight, calls := map id | id in c.calls :: if c.calls[id].Waiting? then resumed else c.calls[id])
  }

  /** `createApiClient`: the mutable state behind `request`. */
  class ApiClient {
    var store: Option<T.Id>
    var flight: Flight
    var calls: map<CallId, CallPhase>

    function View(): Client
      reads this
    {
      Client(store, flight, calls)
    }

    constructor (session: Option<T.Id>)
      ensures View() == Client(session, NoFlight, map[])
    {
      store, flight, calls := session, NoFlight, map[];
    }

    method Request(id: CallId)
      modifies this`calls
      ensures View() == StartCall(old(View()), id)
    {
      if id !in calls {
        calls := calls[id := Sending];
      }
    }

    /** refreshOnce: one refresh for any number of 401s. */
    method RefreshOnce()
      modifies this`flight
      ensures flight == if old(flight).NoFlight? then Loading else old(flight)
    {
      if flight.NoFlight? {
        flight := Loading;
      }
    }

    method Reply(id: CallId, unauthorized: bool)
      modifies this
      ensures View() == HearReply(old(View()), id, unauthorized)
    {
      if id !in calls || calls[id].Waiting? || calls[id].Finished? { return; }
      if calls[id].Sending? && unauthorized {
        RefreshOnce();
        calls := calls[id := Waiting];
      } else {
        calls := calls[id := Finished];
      }
    }

    /** doRefresh up to its request. */
    method BeginRefresh()
      modifies this`flight
      ensures View() == LoadSession(old(View()))
    {
      if flight.Loading? {
        if store.None? {
          flight := Ended(LoggedOut);
        } else {
          flight := Presented(store.value);
        }
      }
    }

    /** doRefresh from its answer on. */
    method EndRefresh(answered: bool)
      modifies this
      ensures View() == if answered then TakeAnswer(old(View())) else LoseAnswer(old(View()))
    {
      if !answered {
        if flight.Presented? || flight.Responded? {
          flight := Ended(Retryable);
        }
        return;
      }
      if !flight.Responded? { return; }
      if flight.outcome.Rotated? {
        store := Some(flight.outcome.successor);
        flight := Ended(Refreshed);
      } else {
        store := None;
        flight := Ended(LoggedOut);
      }
    }

    /** The `finally` of refreshOnce, and the waiting calls that resume behind it. */
    method SettleRefresh()
      modifies this
      ensures View() == Conclude(old(View()))
    {
      if !flight.Ended? { return; }
      var resumed := if flight.conclusion.Refreshed? then Retrying else Finished;
      flight := NoFlight;
      calls := map id | id in calls :: if calls[id].Waiting? then resumed else calls[id];
    }
  }

  // ----- the client with the server -----

  datatype World = World(client: Client, server: T.State, family: T.Id, answers: seq<T.Outcome>)

  datatype Event =
    | Call(id: CallId)
    | Reply(id: CallId, unauthorized: bool)
    | Load
    | Serve(now: int, mintedAt: int)
    | Deliver
    | Lose
    | Settle
    | Elsewhere(e: T.Event)

  function Next(w: World, e: Event): World
    requires T.Inv(w.server)
  {
    match e
    case Call(id) => w.(client := StartCall(w.client, id))
    case Reply(id, unauthorized) => w.(client := HearReply(w.client, id, unauthorized))
    case Load => w.(client := LoadSession(w.client))
    case Serve(now, mintedAt) =>
      if !w.client.flight.Presented? then w
      else
        var outcome := T.RefreshOutcome(w.server, w.client.flight.token, now);
        w.(client := w.client.(flight := Responded(outcome)),
           server := T.DoRefresh(w.server, w.client.flight.token, now, mintedAt),
           answers := w.answers + [outcome])
    case Deliver => w.(client := TakeAnswer(w.client))
    case Lose => w.(client := LoseAnswer(w.client))
    case Settle => w.(client := Conclude(w.client))
    case Elsewhere(e) => w.(server := T.Next(w.server, e))
  }

  /** An event elsewhere that does not end this login: anybody may log in, refresh, log out,
      be deactivated or change a password, as long as neither a token of this family rotates
      or is reused, nor its live token is logged out, nor its employee's tokens are revoked. */
  predicate ElsewhereCalm(s: T.State, family: T.Id, e: T.Event)
    requires family in s.rows
  {
    match e
    case Login(_, _, _) => true
    case Activate(_) => true
    case Refresh(id, now, _) =>
      (match T.RefreshOutcome(s, id, now)
       case Gone => true
       case Inactive => s.rows[id].employee != s.rows[family].employee
       case _ => s.rows[id].family != family)
    case Logout(id) => T.Live(s, id) ==> s.rows[id].family != family
    case RevokeAll(employee) => employee != s.rows[family].employee
    case Deactivate(employee) => employee != s.rows[family].employee
  }

  /** No answer of a completed rotation is lost, and nothing elsewhere ends this login. */
  predicate Calm(w: World, e: Event)
    requires w.family in w.server.rows
  {
    && (e.Lose? ==> !w.client.flight.Responded?)
    && (e.Elsewhere? ==> ElsewhereCalm(w.server, w.family, e.e))
  }

  predicate OurLiveToken(w: World, id: T.Id) {
    T.Live(w.server, id) && w.server.rows[id].family == w.family
  }

  predicate OurSpentToken(w: World, id: T.Id) {
    id in w.server.rows && w.server.rows[id].family == w.family && w.server.rows[id].revoked
  }

  /** The stored token is live unless the answer that replaces it is on its way. */
  ghost predicate Inv(w: World) {
    && T.Inv(w.server)
    && w.family in w.server.rows
    && (w.client.store.Some? && !w.client.flight.Responded? ==> OurLiveToken(w, w.client.store.value))
    && (w.client.flight.Presented? ==> w.client.store == Some(w.client.flight.token))
    && (w.client.flight.Responded? && w.client.flight.outcome.Rotated? ==>
          && OurLiveToken(w, w.client.flight.outcome.successor)
          && w.client.store.Some? && OurSpentToken(w, w.client.store.value))
    && (forall i :: 0 <= i < |w.answers| ==> w.answers[i] != T.Reused)
  }

  /** Exactly the calm events elsewhere leave the live token of this login alone. */
  lemma ElsewhereLeavesUsAlone(s: T.State, family: T.Id, e: T.Event, id: T.Id)
    requires T.Inv(s) && T.Live(s, id) && s.rows[id].family == family && family in s.rows
    ensures T.Live(T.Next(s, e), id) <==> ElsewhereCalm(s, family, e)
    ensures id in T.Next(s, e).rows && T.Next(s, e).rows[id].family == family
  {
    T.IdsBelowNext(s);
    assert T.RootOk(s, id);
    match e
    case Refresh(other, now, _) =>
      if other in s.rows && T.RefreshOutcome(s, other, now).Reused? {
        T.WalkVisitsTheRest(s, other, id);
        T.LiveIsTip(s, id);
      } else if T.Live(s, other) && s.rows[other].family == family {
        OneLiveToken(s, other, id);
      }
    case Logout(other) =>
      if T.Live(s, other) && s.rows[other].family == family { OneLiveToken(s, other, id); }
    case _ =>
  }

  lemma SpentStaysSpent(s: T.State, e: T.Event, id: T.Id)
    requires T.Inv(s) && id in s.rows && s.rows[id].revoked
    ensures id in T.Next(s, e).rows && T.Next(s, e).rows[id].revoked
        && T.Next(s, e).rows[id].family == s.rows[id].family
  {
    T.IdsBelowNext(s);
  }

  lemma ServeKeepsInv(w: World, now: int, mintedAt: int)
    requires Inv(w)
    ensures Inv(Next(w, Serve(now, mintedAt)))
  {
    if w.client.flight.Presented? {
      T.NextKeepsInv(w.server, T.Refresh(w.client.flight.token, now, mintedAt));
      T.IdsBelowNext(w.server);
    }
  }

  lemma NextKeepsInv(w: World, e: Event)
    requires Inv(w) && Calm(w, e)
    ensures Inv(Next(w, e))
  {
    match e
    case Serve(now, mintedAt) => ServeKeepsInv(w, now, mintedAt);
    case Elsewhere(other) =>
      T.NextKeepsInv(w.server, other);
      T.IdsBelowNext(w.server);
      if w.client.store.Some? && !w.client.flight.Responded? {
        ElsewhereLeavesUsAlone(w.server, w.family, other, w.client.store.value);
      }
      if w.client.flight.Responded? && w.client.flight.outcome.Rotated? {
        ElsewhereLeavesUsAlone(w.server, w.family, other, w.client.flight.outcome.successor);
        SpentStaysSpent(w.server, other, w.client.store.value);
      }
    case _ =>
  }

  /** A history in which every event was calm when it happened. */
  ghost predicate CalmRun(w: World, events: seq<Event>)
    requires Inv(w)
    decreases |events|
  {
    events == [] || (Calm(w, events[0]) && (NextKeepsInv(w, events[0]); CalmRun(Next(w, events[0]), events[1..])))
  }

  ghost function Run(w: World, events: seq<Event>): World
    requires Inv(w) && CalmRun(w, events)
    decreases |events|
  {
    if events == [] then w
    else
      NextKeepsInv(w, events[0]);
      Run(Next(w, events[0]), events[1..])
  }

  lemma {:induction false} RunKeepsInv(w: World, events: seq<Event>)
    requires Inv(w) && CalmRun(w, events)
    ensures Inv(Run(w, events))
    decreases |events|
  {
    if events == [] {
    } else {
      NextKeepsInv(w, events[0]);
      RunKeepsInv(Next(w, events[0]), events[1..]);
    }
  }

  /** A client that has just logged in. */
  ghost predicate SignedIn(w: World) {
    && T.Inv(w.server) && w.family in w.server.rows && w.client.flight.NoFlight? && w.answers == []
    && w.client.store.Some? && OurLiveToken(w, w.client.store.value)
  }

  /** However many calls overlap, the client never presents a revoked token, and while no
      refresh is in flight the stored token is the one live token of its login. */
  lemma NeverReusesAToken(w: World, events: seq<Event>, i: nat, id: T.Id)
    requires SignedIn(w) && CalmRun(w, events)
    ensures var w' := Run(w, events);
            && (i < |w'.answers| ==> w'.answers[i] != T.Reused)
            && (w'.client.flight.NoFlight? && w'.client.store.Some? ==>
                  (OurLiveToken(w', id) <==> id == w'.client.store.value))
  {
    RunKeepsInv(w, events);
    var w' := Run(w, events);
    if w'.client.store.Some? && w'.client.flight.NoFlight? && OurLiveToken(w', id) {
      OneLiveToken(w'.server, id, w'.client.store.value);
    }
  }

  lemma OneLiveToken(s: T.State, i: T.Id, j: T.Id)
    requires T.Inv(s) && T.Live(s, i) && T.Live(s, j) && s.rows[i].family == s.rows[j].family
    ensures i == j
  {
    T.LiveIsTip(s, i);
    T.LiveIsTip(s, j);
  }

  // ----- what each event comes to -----

  /** A call moves exactly so: a first 401 makes it wait, any other answer ends it, the end
      of the refresh sends it again if the session was renewed and ends it otherwise, and
      the second answer, whatever it is, ends it. */
  lemma CallsMoveExactly(w: World, e: Event, id: CallId)
    requires T.Inv(w.server) && id in w.client.calls
    ensures id in Next(w, e).client.calls
    ensures var before, after, flight := w.client.calls[id], Next(w, e).client.calls[id], w.client.flight;
            && (before == Sending && e == Reply(id, true) ==> after == Waiting)
            && (before == Sending && e == Reply(id, false) ==> after == Finished)
            && (before == Retrying && e.Reply? && e.id == id ==> after == Finished)
            && (before == Waiting && e.Settle? && flight == Ended(Refreshed) ==> after == Retrying)
            && (before == Waiting && e.Settle? && flight.Ended? && flight.conclusion != Refreshed ==> after == Finished)
            && (after != before ==>
                  || ((before == Sending || before == Retrying) && e.Reply? && e.id == id)
                  || (before == Waiting && e.Settle? && flight.Ended?))
  {
  }

  /** The slot of the shared refresh moves exactly so. */
  lemma FlightMovesExactly(w: World, e: Event)
    requires T.Inv(w.server)
    ensures var c, c' := w.client, Next(w, e).client;
            && (c.flight == NoFlight && e.Reply? && e.unauthorized && e.id in c.calls && c.calls[e.id] == Sending ==>
                  c'.flight == Loading)
            && (c.flight == Loading && e == Load ==>
                  c'.flight == if c.store.None? then Ended(LoggedOut) else Presented(c.store.value))
            && (c.flight.Presented? && e.Serve? ==>
                  c'.flight == Responded(T.RefreshOutcome(w.server, c.flight.token, e.now)))
            && (c.flight.Responded? && e == Deliver ==>
                  c'.flight == Ended(if c.flight.outcome.Rotated? then Refreshed else LoggedOut))
            && ((c.flight.Presented? || c.flight.Responded?) && e == Lose ==> c'.flight == Ended(Retryable))
            && (c.flight.Ended? && e == Settle ==> c'.flight == NoFlight)
            && (c'.flight != c.flight ==>
                  || (c.flight == NoFlight && e.Reply? && e.unauthorized && e.id in c.calls && c.calls[e.id] == Sending)
                  || (c.flight == Loading && e == Load)
                  || (c.flight.Presented? && (e.Serve? || e == Lose))
                  || (c.flight.Responded? && (e == Deliver || e == Lose))
                  || (c.flight.Ended? && e == Settle))
  {
  }

  /** The stored session changes exactly when an answer arrives: renewed by a rotation,
      cleared by a refusal; no answer leaves it alone. */
  lemma SessionMovesExactly(w: World, e: Event)
    requires T.Inv(w.server)
    ensures var c, c' := w.client, Next(w, e).client;
            if e == Deliver && c.flight.Responded?
            then c'.store == (if c.flight.outcome.Rotated? then Some(c.flight.outcome.successor) else None)
            else c'.store == c.store
  {
  }

  /** Any history at all, calm or not. */
  function AnyRun(w: World, events: seq<Event>): (w': World)
    requires T.Inv(w.server)
    ensures T.Inv(w'.server)
    decreases |events|
  {
    if events == [] then w
    else
      ServerStaysOk(w, events[0]);
      AnyRun(Next(w, events[0]), events[1..])
  }

  lemma ServerStaysOk(w: World, e: Event)
    requires T.Inv(w.server)
    ensures T.Inv(Next(w, e).server)
  {
    if e.Serve? && w.client.flight.Presented? {
      T.NextKeepsInv(w.server, T.Refresh(w.client.flight.token, e.now, e.mintedAt));
    } else if e.Elsewhere? {
      T.NextKeepsInv(w.server, e.e);
    }
  }

  /** A request of `id` goes out: the call begins, or it is sent again. */
  predicate GoesOut(c: Client, c': Client, id: CallId) {
    && id in c'.calls && (c'.calls[id].Sending? || c'.calls[id].Retrying?)
    && (id !in c.calls || c.calls[id] != c'.calls[id])
  }

  /** The refresh `id` waited for ends with a renewed session. */
  predicate Renews(c: Client, e: Event, id: CallId) {
    e.Settle? && id in c.calls && c.calls[id].Waiting? && c.flight == Ended(Refreshed)
  }

  function Requests(w: World, events: seq<Event>, id: CallId): nat
    requires T.Inv(w.server)
    decreases |events|
  {
    if events == [] then 0
    else
      ServerStaysOk(w, events[0]);
      (if GoesOut(w.client, Next(w, events[0]).client, id) then 1 else 0)
      + Requests(Next(w, events[0]), events[1..], id)
  }

  function Renewals(w: World, events: seq<Event>, id: CallId): nat
    requires T.Inv(w.server)
    decreases |events|
  {
    if events == [] then 0
    else
      ServerStaysOk(w, events[0]);
      (if Renews(w.client, events[0], id) then 1 else 0) + Renewals(Next(w, events[0]), events[1..], id)
  }

  /** The first request of a call that has not begun. */
  function FirstRequest(c: Client, c': Client, id: CallId): nat {
    if id !in c.calls && id in c'.calls then 1 else 0
  }

  lemma OneStepSends(w: World, e: Event, id: CallId)
    requires T.Inv(w.server)
    ensures id in w.client.calls ==> id in Next(w, e).client.calls
    ensures (if GoesOut(w.client, Next(w, e).client, id) then 1 else 0) ==
            FirstRequest(w.client, Next(w, e).client, id) + if Renews(w.client, e, id) then 1 else 0
  {
    if id in w.client.calls { CallsMoveExactly(w, e, id); }
  }

  /** Only a call that has had one request can be sent again. */
  predicate MayRenew(c: Client, id: CallId) {
    id !in c.calls || c.calls[id].Sending? || c.calls[id].Waiting?
  }

  lemma {:induction false} AtMostOneRenewal(w: World, events: seq<Event>, id: CallId)
    requires T.Inv(w.server)
    ensures Renewals(w, events, id) <= if MayRenew(w.client, id) then 1 else 0
    decreases |events|
  {
    if events == [] {
    } else {
      ServerStaysOk(w, events[0]);
      if id in w.client.calls { CallsMoveExactly(w, events[0], id); }
      AtMostOneRenewal(Next(w, events[0]), events[1..], id);
    }
  }

  lemma {:induction false} RequestsAdd(w: World, events: seq<Event>, id: CallId)
    requires T.Inv(w.server)
    ensures id in w.client.calls ==> id in AnyRun(w, events).client.calls
    ensures Requests(w, events, id) ==
            FirstRequest(w.client, AnyRun(w, events).client, id) + Renewals(w, events, id)
    decreases |events|
  {
    if events == [] {
    } else {
      ServerStaysOk(w, events[0]);
      OneStepSends(w, events[0], id);
      RequestsAdd(Next(w, events[0]), events[1..], id);
    }
  }

  /** In every history a call sends one request, and exactly one more if and only if the
      refresh it waited for renewed the session: never a second refresh for one call, and
      no retry on an old session. */
  lemma OneRetryExactlyWhenRenewed(w: World, events: seq<Event>, id: CallId)
    requires T.Inv(w.server) && id !in w.client.calls && id in AnyRun(w, events).client.calls
    ensures Requests(w, events, id) == 1 + Renewals(w, events, id)
    ensures Renewals(w, events, id) <= 1
  {
    RequestsAdd(w, events, id);
    AtMostOneRenewal(w, events, id);
  }

  /** An answer that refuses the token is read. */
  predicate Refused(c: Client, e: Event) {
    e == Deliver && c.flight.Responded? && !c.flight.outcome.Rotated?
  }

  predicate EverRefused(w: World, events: seq<Event>)
    requires T.Inv(w.server)
    decreases |events|
  {
    events != [] && (ServerStaysOk(w, events[0]);
                     Refused(w.client, events[0]) || EverRefused(Next(w, events[0]), events[1..]))
  }

  /** An answer can only be on its way while a session is stored. */
  predicate Asked(c: Client) {
    c.flight.Presented? || c.flight.Responded? ==> c.store.Some?
  }

  lemma AskedStays(w: World, e: Event)
    requires T.Inv(w.server) && Asked(w.client)
    ensures Asked(Next(w, e).client)
  {
    SessionMovesExactly(w, e);
  }

  /** In every history the session is gone exactly when the server refused a refresh: lost
      answers, however many, and anything that happens elsewhere leave it stored. */
  lemma {:induction false} LoggedOutExactlyWhenRefused(w: World, events: seq<Event>)
    requires T.Inv(w.server) && Asked(w.client)
    ensures AnyRun(w, events).client.store.None? <==> w.client.store.None? || EverRefused(w, events)
    decreases |events|
  {
    if events == [] {
    } else {
      ServerStaysOk(w, events[0]);
      AskedStays(w, events[0]);
      SessionMovesExactly(w, events[0]);
      LoggedOutExactlyWhenRefused(Next(w, events[0]), events[1..]);
    }
  }

  /** The guarantee needs the answer: if the answer of a rotation is lost, the next
      refresh presents the replaced token, and the whole login is ended. */
  lemma LostAnswerEndsTheLogin(w: World, call: CallId, now: int, mintedAt: int)
    requires Inv(w) && w.client.flight.Responded? && w.client.flight.outcome.Rotated?
    requires call !in w.client.calls
    ensures var w1 := Next(Next(w, Lose), Settle);
            var w2 := Next(Next(Next(w1, Call(call)), Reply(call, true)), Load);
            var w3 := Next(w2, Serve(now, mintedAt));
            w3.client.flight == Responded(T.Reused) && T.FamilyDead(w3.server, w.family)
  {
    T.ReuseKillsTheFamily(w.server, w.client.store.value, now, mintedAt);
  }
}

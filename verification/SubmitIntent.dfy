/**
 * One submit intent, end to end: the intent writer (apps/mobile/src/lib/intentWrite.ts)
 * over the fetch wrapper's 401-refresh-retry (apps/mobile/src/lib/apiClient.ts) over
 * the idempotency protocol, with a network that loses requests and answers.
 * A world has one server-side `Idempotency.State` per key ever minted.
 */
module SubmitIntent {
  import opened Prelude
  import I = Idempotency
  import N = NestedTransactions

  type Key = nat
  type Rid = nat

  /** What the fetch wrapper reports; status 0 is a failure at the network layer, `code`
      the code of the error envelope, if there was one. */
  datatype ApiResult = ApiResult(status: nat, body: string, code: string)

  /** What `send` tells its caller. */
  datatype Verdict =
    | Accepted(hash: I.Hash, response: I.Response)
    | Ambiguous
    | Refused(status: nat)

  /** Where `request` stands. */
  datatype Call =
    | Idle
    | FirstTry(rid: Rid)
    | Refreshing
    | SecondTry(rid: Rid)

  /** One request as it left the handset. */
  datatype Sent = Sent(key: Key, hash: I.Hash)

  datatype World = World(
    key: Option<Key>,
    call: Call,
    body: I.Hash,
    sent: seq<Sent>,
    wire: set<Rid>,
    servers: seq<I.State>,
    verdicts: seq<seq<Verdict>>)

  datatype Event =
    | Tap(hash: I.Hash)
    | Deliver(rid: Rid)
    | Drop(rid: Rid)
    | Server(key: Key, step: I.Event)
    | EarlyRefusal(rid: Rid, status: nat, code: string)
    | Answer(rid: Rid)
    | Lose(rid: Rid, status: nat)
    | TokenReused
    | RefreshEnded(refreshed: bool)

  const INIT := World(None, Idle, "", [], {}, [], [])

  // ----- intentWrite.ts -----

  predicate IsOk(status: nat) {
    200 <= status < 300
  }

  /** A network failure or a 5xx may have landed; any other refusal is definite. */
  function VerdictOf(hash: I.Hash, res: ApiResult): Verdict {
    if IsOk(res.status) then Accepted(hash, I.Response(res.status, res.body))
    else if res.status == 0 || res.status >= 500 || res.code == "NETWORK" then Ambiguous
    else Refused(res.status)
  }

  function KeyAfter(key: Option<Key>, v: Verdict): Option<Key> {
    if v.Ambiguous? then key else None
  }

  /** The closure of `createIntentWriter`: one pinned key. */
  class IntentWriter {
    var key: Option<Key>

    constructor ()
      ensures key == None
    {
      key := None;
    }

    /** `key ??=`, the look: no key is pinned. */
    method NeedsKey() returns (missing: bool)
      ensures missing == key.None?
    {
      missing := key.None?;
    }

    /** `key ??=`, the assignment, without another look. */
    method Assign(minted: Key)
      modifies this
      ensures key == Some(minted)
    {
      key := Some(minted);
    }

    /** Both, with no other send in between: keep the pinned key or take the minted one. */
    method Pin(minted: Key) returns (k: Key)
      modifies this
      ensures key == Some(k)
      ensures k == if old(key).Some? then old(key).value else minted
    {
      var missing := NeedsKey();
      if missing {
        Assign(minted);
      }
      k := key.value;
    }

    /** After the request: the key survives exactly the ambiguous failures. */
    method Settle(hash: I.Hash, res: ApiResult) returns (v: Verdict)
      modifies this
      ensures v == VerdictOf(hash, res)
      ensures key == KeyAfter(old(key), v)
    {
      if 200 <= res.status < 300 {
        key := None;
        return Accepted(hash, I.Response(res.status, res.body));
      }
      if res.status == 0 || res.status >= 500 || res.code == "NETWORK" {
        return Ambiguous;
      }
      key := None;
      return Refused(res.status);
    }
  }

  // ----- the events -----

  /** The HTTP answer of a finished request; nobody answers a dead or abandoned one. */
  function Wire(a: I.Answer): ApiResult
    requires !a.Vanished? && !a.Died?
  {
    match a
    case Fresh(p) => ApiResult(p.status, p.body, "")
    case Replayed(p) => ApiResult(p.status, p.body, "")
    case InFlight => ApiResult(409, "", "IDEMPOTENCY_IN_FLIGHT")
    case KeyReused => ApiResult(422, "", "IDEMPOTENCY_KEY_REUSED")
    case Failed(status) => ApiResult(status, "", "")
  }

  /** No answer, or one of a server in trouble. */
  function Unreached(status: nat): ApiResult {
    ApiResult(status, "", if status == 0 then "NETWORK" else "")
  }

  predicate Awaiting(w: World, rid: Rid) {
    w.call == FirstTry(rid) || w.call == SecondTry(rid)
  }

  /** A new request under the pinned key, with the body of the current send. */
  function Emit(w: World, second: bool): World
    requires w.key.Some?
  {
    w.(sent := w.sent + [Sent(w.key.value, w.body)],
       wire := w.wire + {|w.sent|},
       call := if second then SecondTry(|w.sent|) else FirstTry(|w.sent|))
  }

  /** `send` resolves or rejects. */
  function Finish(w: World, res: ApiResult): World
    requires w.key.Some? && w.key.value < |w.verdicts|
  {
    var v := VerdictOf(w.body, res);
    var k := w.key.value;
    w.(call := Idle, key := KeyAfter(w.key, v), verdicts := w.verdicts[k := w.verdicts[k] + [v]])
  }

  /** The raw answer of the awaited request: a first 401 goes to the refresh. */
  function Hear(w: World, rid: Rid, res: ApiResult): World
    requires w.key.Some? && w.key.value < |w.verdicts|
  {
    if w.call == FirstTry(rid) && res.status == 401 then w.(call := Refreshing) else Finish(w, res)
  }

  /** A fresh key with its own server row. */
  function Minted(w: World, hash: I.Hash): World {
    w.(key := Some(|w.servers|), body := hash, servers := w.servers + [I.INIT], verdicts := w.verdicts + [[]])
  }

  function Next(w: World, e: Event): World
    requires Shape(w)
  {
    match e
    case Tap(hash) =>
      if !w.call.Idle? then w
      else if w.key.Some? then Emit(w.(body := hash), false)
      else Emit(Minted(w, hash), false)
    case Deliver(rid) =>
      if rid !in w.wire then w
      else
        var k := w.sent[rid].key;
        w.(wire := w.wire - {rid}, servers := w.servers[k := I.DoArrive(w.servers[k], rid, w.sent[rid].hash)])
    case Drop(rid) => w.(wire := w.wire - {rid})
    case Server(k, step) =>
      if k >= |w.servers| || step.Arrive? then w
      else w.(servers := w.servers[k := I.Next(w.servers[k], step)])
    case EarlyRefusal(rid, status, code) =>
      if rid !in w.wire || !Awaiting(w, rid) || status < 400 then w
      else Hear(w.(wire := w.wire - {rid}), rid, ApiResult(status, "", code))
    case Answer(rid) =>
      if !Awaiting(w, rid) then w
      else
        var s := w.servers[w.key.value];
        if rid !in s.requests || !s.requests[rid].phase.Done?
           || s.requests[rid].phase.answer.Vanished? || s.requests[rid].phase.answer.Died? then w
        else Hear(w, rid, Wire(s.requests[rid].phase.answer))
    case Lose(rid, status) =>
      if !Awaiting(w, rid) || (status != 0 && status < 500) then w
      else Finish(w, Unreached(status))
    case TokenReused =>
      if !w.call.Refreshing? then w else Finish(w, ApiResult(401, "", "TOKEN_REUSED"))
    case RefreshEnded(refreshed) =>
      if !w.call.Refreshing? then w
      else if refreshed then Emit(w, true)
      else Finish(w, ApiResult(401, "", ""))
  }

  function Run(w: World, events: seq<Event>): (w': World)
    requires Shape(w)
    ensures Shape(w')
    decreases |events|
  {
    if events == [] then w
    else
      var last := |events| - 1;
      var before := Run(w, events[..last]);
      ShapeStays(before, events[last]);
      Next(before, events[last])
  }

  /** The bookkeeping that makes every event well defined. */
  predicate Shape(w: World) {
    && |w.servers| == |w.verdicts|
    && (w.key.Some? ==> w.key.value < |w.servers|)
    && (!w.call.Idle? ==> w.key.Some?)
    && (forall rid :: rid in w.wire ==> rid < |w.sent|)
    && (forall rid :: 0 <= rid < |w.sent| ==> w.sent[rid].key < |w.servers|)
  }

  lemma ShapeStays(w: World, e: Event)
    requires Shape(w)
    ensures Shape(Next(w, e))
  {
  }

  // ----- the invariant, one key at a time -----

  /** The server has finished with `rid` and committed nothing for it. */
  ghost predicate EndedEmpty(s: I.State, rid: Rid) {
    rid in s.requests ==> s.requests[rid].phase.Done? && I.CommitOf(s.commits, rid).None?
  }

  /** Every request under `k` but the awaited one is over and saved nothing. */
  ghost predicate Quiet(w: World, k: Key)
    requires k < |w.servers|
  {
    forall rid :: 0 <= rid < |w.sent| && w.sent[rid].key == k && !Awaiting(w, rid) ==>
      rid !in w.wire && EndedEmpty(w.servers[k], rid)
  }

  /** Requests reach only the server row of the key they carry, with the body they carry. */
  ghost predicate Routed(w: World, k: Key)
    requires k < |w.servers|
  {
    forall rid :: rid in w.servers[k].requests ==>
      rid < |w.sent| && w.sent[rid] == Sent(k, w.servers[k].requests[rid].hash) && rid !in w.wire
  }

  /** A definite first answer of 400 or more. */
  predicate RefusedOutright(vs: seq<Verdict>) {
    vs != [] && vs[0].Refused? && vs[0].status >= 400
  }

  /** Ambiguous failures, then at most one definite answer; an acceptance is backed by a commit. */
  ghost predicate VerdictShape(vs: seq<Verdict>, pinned: bool, s: I.State) {
    && (forall i :: 0 <= i < |vs| && (i < |vs| - 1 || pinned) ==> vs[i].Ambiguous?)
    && (vs != [] && vs[|vs| - 1].Accepted? ==>
          I.WasAnswered(s.commits, vs[|vs| - 1].hash, vs[|vs| - 1].response))
  }

  ghost predicate KeyInv(w: World, k: Key)
    requires Shape(w) && k < |w.servers|
  {
    && I.Inv(w.servers[k])
    && Routed(w, k)
    && VerdictShape(w.verdicts[k], w.key == Some(k), w.servers[k])
    && ((w.key == Some(k) && w.verdicts[k] == []) || RefusedOutright(w.verdicts[k]) ==> Quiet(w, k))
  }

  ghost predicate AwaitedSent(w: World)
    requires Shape(w)
  {
    w.call.FirstTry? || w.call.SecondTry? ==> w.call.rid < |w.sent| && w.sent[w.call.rid] == Sent(w.key.value, w.body)
  }

  ghost predicate Inv(w: World) {
    && Shape(w)
    && AwaitedSent(w)
    && (forall k :: 0 <= k < |w.servers| ==> KeyInv(w, k))
  }

  lemma ServerKeepsAnswers(s: I.State, e: I.Event, hash: I.Hash, p: I.Response)
    requires I.WasAnswered(s.commits, hash, p)
    ensures I.WasAnswered(I.Next(s, e).commits, hash, p)
  {
    if e.CommitWork? && I.Next(s, e).commits != s.commits {
      var r := s.requests[e.rid];
      I.WasAnsweredAppend(s.commits, I.Commit(e.rid, r.hash, r.pending, r.phase.response), hash, p);
    }
  }

  /** What a server row keeps for the handset, whatever happens to it. */
  ghost predicate Progressed(s: I.State, s': I.State) {
    && s'.requests.Keys == s.requests.Keys
    && (forall rid :: rid in s.requests ==> s'.requests[rid].hash == s.requests[rid].hash)
    && (forall rid :: rid in s.requests && EndedEmpty(s, rid) ==> EndedEmpty(s', rid))
    && (forall hash, p :: I.WasAnswered(s.commits, hash, p) ==> I.WasAnswered(s'.commits, hash, p))
  }

  lemma ServerProgresses(s: I.State, e: I.Event)
    requires !e.Arrive?
    ensures Progressed(s, I.Next(s, e))
  {
    var s' := I.Next(s, e);
    forall rid | rid in s.requests && EndedEmpty(s, rid)
      ensures EndedEmpty(s', rid)
    {
      I.DoneStays(s, e, rid);
    }
    forall hash, p | I.WasAnswered(s.commits, hash, p)
      ensures I.WasAnswered(s'.commits, hash, p)
    {
      ServerKeepsAnswers(s, e, hash, p);
    }
    HashesStay(s, e);
  }

  lemma HashesStay(s: I.State, e: I.Event)
    requires !e.Arrive?
    ensures I.Next(s, e).requests.Keys == s.requests.Keys
    ensures forall rid :: rid in s.requests ==> I.Next(s, e).requests[rid].hash == s.requests[rid].hash
  {
    if I.Next(s, e).requests != s.requests {
      OnlyOneMoves(s, e);
    }
  }

  lemma OnlyOneMoves(s: I.State, e: I.Event)
    requires !e.Arrive? && I.Next(s, e).requests != s.requests
    ensures !e.Prune? && !e.Tick? && e.rid in s.requests && e.rid in I.Next(s, e).requests
    ensures I.Next(s, e).requests == s.requests[e.rid := I.Next(s, e).requests[e.rid]]
    ensures I.Next(s, e).requests[e.rid].hash == s.requests[e.rid].hash
  {
  }

  lemma KeyProgresses(w: World, k: Key, s': I.State)
    requires Shape(w) && k < |w.servers| && KeyInv(w, k)
    requires I.Inv(s') && Progressed(w.servers[k], s')
    ensures KeyInv(w.(servers := w.servers[k := s']), k)
  {
    QuietProgresses(w, k, s');
  }

  lemma QuietProgresses(w: World, k: Key, s': I.State)
    requires Shape(w) && k < |w.servers| && Routed(w, k) && Progressed(w.servers[k], s')
    ensures Routed(w.(servers := w.servers[k := s']), k)
    ensures Quiet(w, k) ==> Quiet(w.(servers := w.servers[k := s']), k)
  {
  }

  lemma ServerStepKeepsKey(w: World, k: Key, e: I.Event)
    requires Shape(w) && k < |w.servers| && KeyInv(w, k) && !e.Arrive?
    ensures KeyInv(Next(w, Server(k, e)), k)
  {
    I.NextKeepsInv(w.servers[k], e);
    ServerProgresses(w.servers[k], e);
    KeyProgresses(w, k, I.Next(w.servers[k], e));
  }

  lemma ServerEventKeepsInv(w: World, k: Key, e: I.Event)
    requires Inv(w)
    ensures Inv(Next(w, Server(k, e)))
  {
    if k < |w.servers| && !e.Arrive? {
      ServerStepKeepsKey(w, k, e);
      var w' := Next(w, Server(k, e));
      forall j | 0 <= j < |w'.servers|
        ensures KeyInv(w', j)
      {
        assert KeyInv(w, j);
      }
    }
  }

  lemma DropKeepsInv(w: World, rid: Rid)
    requires Inv(w)
    ensures Inv(w.(wire := w.wire - {rid}))
  {
    var w' := w.(wire := w.wire - {rid});
    forall k | 0 <= k < |w'.servers|
      ensures KeyInv(w', k)
    {
      assert KeyInv(w, k);
    }
  }

  lemma DeliverKeepsKey(w: World, rid: Rid, k: Key)
    requires Inv(w) && rid in w.wire && k < |w.servers|
    ensures KeyInv(Next(w, Deliver(rid)), k)
  {
    assert KeyInv(w, k);
    if w.sent[rid].key == k {
      I.ArriveKeepsInv(w.servers[k], rid, w.sent[rid].hash);
    }
  }

  lemma DeliverKeepsInv(w: World, rid: Rid)
    requires Inv(w)
    ensures Inv(Next(w, Deliver(rid)))
  {
    if rid in w.wire {
      forall k | 0 <= k < |w.servers|
        ensures KeyInv(Next(w, Deliver(rid)), k)
      {
        DeliverKeepsKey(w, rid, k);
      }
    }
  }

  lemma MintKeepsInv(w: World, hash: I.Hash)
    requires Inv(w) && w.call.Idle? && w.key.None?
    ensures Inv(Minted(w, hash))
  {
    var w' := Minted(w, hash);
    forall k | 0 <= k < |w'.servers|
      ensures KeyInv(w', k)
    {
      if k < |w.servers| {
        assert KeyInv(w, k);
      }
    }
  }

  lemma EmitKeepsInv(w: World, second: bool)
    requires Inv(w) && w.key.Some? && (w.call.Idle? || w.call.Refreshing?)
    ensures Inv(Emit(w, second))
  {
    var w' := Emit(w, second);
    forall k | 0 <= k < |w'.servers|
      ensures KeyInv(w', k)
    {
      assert KeyInv(w, k);
    }
  }

  lemma TapKeepsInv(w: World, hash: I.Hash)
    requires Inv(w)
    ensures Inv(Next(w, Tap(hash)))
  {
    if w.call.Idle? {
      if w.key.Some? {
        var w1 := w.(body := hash);
        forall k | 0 <= k < |w1.servers|
          ensures KeyInv(w1, k)
        {
          assert KeyInv(w, k);
        }
        EmitKeepsInv(w1, false);
      } else {
        MintKeepsInv(w, hash);
        EmitKeepsInv(Minted(w, hash), false);
      }
    }
  }

  /** The answer `res` agrees with the server: an acceptance was committed, and a
      definite refusal of the awaited request saved nothing. */
  ghost predicate Honest(w: World, res: ApiResult)
    requires Shape(w) && w.key.Some?
  {
    var s := w.servers[w.key.value];
    && (IsOk(res.status) ==> I.WasAnswered(s.commits, w.body, I.Response(res.status, res.body)))
    && (400 <= res.status < 500 && !w.call.Idle? && !w.call.Refreshing? ==>
          w.call.rid !in w.wire && EndedEmpty(s, w.call.rid))
  }

  lemma FinishKeepsInv(w: World, res: ApiResult)
    requires Inv(w) && !w.call.Idle? && Honest(w, res)
    ensures Inv(Finish(w, res))
  {
    var w' := Finish(w, res);
    forall k | 0 <= k < |w'.servers|
      ensures KeyInv(w', k)
    {
      assert KeyInv(w, k);
    }
  }

  lemma HearKeepsInv(w: World, rid: Rid, res: ApiResult)
    requires Inv(w) && Awaiting(w, rid) && Honest(w, res)
    ensures Inv(Hear(w, rid, res))
  {
    if w.call == FirstTry(rid) && res.status == 401 {
      var w' := w.(call := Refreshing);
      forall k | 0 <= k < |w'.servers|
        ensures KeyInv(w', k)
      {
        assert KeyInv(w, k);
      }
    } else {
      FinishKeepsInv(w, res);
    }
  }

  /** The server's answer to the awaited request is honest. */
  lemma AnswersAreHonest(w: World, rid: Rid)
    requires Inv(w) && Awaiting(w, rid)
    requires var s := w.servers[w.key.value];
             rid in s.requests && s.requests[rid].phase.Done?
             && !s.requests[rid].phase.answer.Vanished? && !s.requests[rid].phase.answer.Died?
    ensures Honest(w, Wire(w.servers[w.key.value].requests[rid].phase.answer))
  {
    var k := w.key.value;
    var s := w.servers[k];
    assert KeyInv(w, k);
    assert I.RequestOk(s, rid, s.requests[rid]);
    if s.requests[rid].phase.answer.Fresh? {
      FreshWasAnswered(s.commits, rid);
    } else if s.requests[rid].phase.answer.Replayed? {
      AnswersBelow400(s, s.requests[rid].hash, s.requests[rid].phase.answer.stored);
    }
  }

  lemma {:induction false} FreshWasAnswered(commits: seq<I.Commit>, rid: Rid)
    requires I.CommitOf(commits, rid).Some?
    ensures I.WasAnswered(commits, I.CommitOf(commits, rid).value.hash, I.CommitOf(commits, rid).value.response)
  {
    if commits[|commits| - 1].rid != rid {
      FreshWasAnswered(commits[..|commits| - 1], rid);
    }
  }

  /** Only answers below 400 are ever stored, so no replay is a refusal. */
  lemma AnswersBelow400(s: I.State, hash: I.Hash, p: I.Response)
    requires I.Inv(s) && I.WasAnswered(s.commits, hash, p)
    ensures p.status < 400
  {
    var i := WitnessAnswer(s.commits, hash, p);
    assert I.RequestOk(s, s.commits[i].rid, s.requests[s.commits[i].rid]);
    CommitIsItsOwn(s.commits, i);
  }

  lemma {:induction false} WitnessAnswer(commits: seq<I.Commit>, hash: I.Hash, p: I.Response) returns (i: nat)
    requires I.WasAnswered(commits, hash, p)
    ensures i < |commits| && commits[i].hash == hash && commits[i].response == p
  {
    i := |commits| - 1;
    if commits[i].hash != hash || commits[i].response != p {
      i := WitnessAnswer(commits[..|commits| - 1], hash, p);
    }
  }

  lemma {:induction false} CommitIsItsOwn(commits: seq<I.Commit>, i: nat)
    requires i < |commits| && forall a, b :: 0 <= a < b < |commits| ==> commits[a].rid != commits[b].rid
    ensures I.CommitOf(commits, commits[i].rid) == Some(commits[i])
  {
    if i < |commits| - 1 {
      CommitIsItsOwn(commits[..|commits| - 1], i);
    }
  }

  lemma NextKeepsInv(w: World, e: Event)
    requires Inv(w)
    ensures Inv(Next(w, e))
  {
    match e
    case Tap(hash) => TapKeepsInv(w, hash);
    case Deliver(rid) => DeliverKeepsInv(w, rid);
    case Drop(rid) => DropKeepsInv(w, rid);
    case Server(k, step) => ServerEventKeepsInv(w, k, step);
    case EarlyRefusal(rid, status, code) => EarlyRefusalKeepsInv(w, rid, status, code);
    case Answer(rid) =>
      if Next(w, e) != w {
        AnswersAreHonest(w, rid);
        HearKeepsInv(w, rid, Wire(w.servers[w.key.value].requests[rid].phase.answer));
      }
    case Lose(rid, status) =>
      if Next(w, e) != w { FinishKeepsInv(w, Unreached(status)); }
    case TokenReused =>
      if Next(w, e) != w { FinishKeepsInv(w, ApiResult(401, "", "TOKEN_REUSED")); }
    case RefreshEnded(refreshed) =>
      if w.call.Refreshing? && refreshed { EmitKeepsInv(w, true); }
      else if w.call.Refreshing? { FinishKeepsInv(w, ApiResult(401, "", "")); }
  }

  /** A refusal before the claim (the auth wall, the rate limit) leaves no trace on the server. */
  lemma EarlyRefusalKeepsInv(w: World, rid: Rid, status: nat, code: string)
    requires Inv(w)
    ensures Inv(Next(w, EarlyRefusal(rid, status, code)))
  {
    if rid in w.wire && Awaiting(w, rid) && status >= 400 {
      assert KeyInv(w, w.key.value);
      DropKeepsInv(w, rid);
      HearKeepsInv(w.(wire := w.wire - {rid}), rid, ApiResult(status, "", code));
    }
  }

  lemma {:induction false} RunKeepsInv(w: World, events: seq<Event>)
    requires Inv(w)
    ensures Inv(Run(w, events))
    decreases |events|
  {
    if events == [] {
    } else {
      var last := |events| - 1;
      RunKeepsInv(w, events[..last]);
      NextKeepsInv(Run(w, events[..last]), events[last]);
    }
  }

  // ----- the theorems -----

  /** Under one key no more than one commit, while no stored answer was pruned. */
  lemma OneKeyOneCommit(events: seq<Event>, k: Key)
    requires k < |Run(INIT, events).servers|
    requires Run(INIT, events).servers[k].prunedAnswers == 0
    ensures |Run(INIT, events).servers[k].commits| <= 1
  {
    RunKeepsInv(INIT, events);
    assert KeyInv(Run(INIT, events), k);
  }

  /** `send` resolves only for a body that was committed, exactly once, with that answer. */
  lemma {:induction false} AcceptedMeansExactlyOnce(events: seq<Event>, k: Key, i: nat)
    requires k < |Run(INIT, events).servers| && Run(INIT, events).servers[k].prunedAnswers == 0
    requires i < |Run(INIT, events).verdicts[k]| && Run(INIT, events).verdicts[k][i].Accepted?
    ensures var w := Run(INIT, events); var c := w.servers[k].commits;
            |c| == 1 && c[0].hash == w.verdicts[k][i].hash && c[0].response == w.verdicts[k][i].response
  {
    RunKeepsInv(INIT, events);
    assert KeyInv(Run(INIT, events), k);
    AcceptedIsTheCommit(Run(INIT, events).servers[k], Run(INIT, events).verdicts[k], Run(INIT, events).key == Some(k),
        i);
  }

  lemma AcceptedIsTheCommit(s: I.State, vs: seq<Verdict>, pinned: bool, i: nat)
    requires VerdictShape(vs, pinned, s) && |s.commits| <= 1
    requires i < |vs| && vs[i].Accepted?
    ensures |s.commits| == 1 && s.commits[0].hash == vs[i].hash && s.commits[0].response == vs[i].response
  {
    assert i == |vs| - 1;
    var j := WitnessAnswer(s.commits, vs[i].hash, vs[i].response);
  }

  /** A 4xx as the first answer under a key: nothing was saved, and nothing ever will be. */
  lemma RefusedOutrightSavedNothing(events: seq<Event>, k: Key)
    requires k < |Run(INIT, events).servers| && RefusedOutright(Run(INIT, events).verdicts[k])
    ensures Run(INIT, events).servers[k].commits == []
  {
    RunKeepsInv(INIT, events);
    var w := Run(INIT, events);
    assert KeyInv(w, k);
    var s := w.servers[k];
    forall rid | rid in s.requests
      ensures I.CommitOf(s.commits, rid).None?
    {
      assert EndedEmpty(s, rid);
    }
    NobodyCommitted(s);
  }

  lemma NobodyCommitted(s: I.State)
    requires I.CommitsDistinct(s) && forall rid :: rid in s.requests ==> I.CommitOf(s.commits, rid).None?
    ensures s.commits == []
  {
    if s.commits != [] {
      I.CommitOfFound(s.commits, s.commits[0].rid);
    }
  }

  /** One intent, one key: a key sees ambiguous failures and then at most one definite
      answer, after which it is never pinned again; all its requests reach its own row. */
  lemma {:induction false} OneIntentOneKey(events: seq<Event>, k: Key, rid: Rid)
    requires k < |Run(INIT, events).servers|
    ensures var w := Run(INIT, events); var vs := w.verdicts[k];
            && (forall i :: 0 <= i < |vs| - 1 ==> vs[i].Ambiguous?)
            && (vs != [] && !vs[|vs| - 1].Ambiguous? ==> w.key != Some(k))
            && (rid in w.servers[k].requests ==> rid < |w.sent| && w.sent[rid].key == k)
  {
    RunKeepsInv(INIT, events);
    assert KeyInv(Run(INIT, events), k);
  }

  // ----- where the guarantee ends -----

  /** The promise of the writer's own comment, for a 4xx that came after `n` ambiguous
      failures: nothing was saved under the key. */
  ghost predicate RefusalIsSafe(n: nat, status: nat) {
    forall events, k: Key :: EndedRefused(events, k, n, status) ==> Run(INIT, events).servers[k].commits == []
  }

  ghost predicate EndedRefused(events: seq<Event>, k: Key, n: nat, status: nat) {
    k < |Run(INIT, events).servers| && Run(INIT, events).verdicts[k] == Ambiguities(n) + [Refused(status)]
  }

  function Ambiguities(n: nat): seq<Verdict> { seq(n, _ => Ambiguous) }

  function Sents(n: nat): seq<Sent> { seq(n, _ => Sent(0, "h")) }

  /** `n` attempts without an answer; the first is still under way in the network. */
  function Attempts(n: nat): seq<Event> {
    if n == 0 then []
    else if n == 1 then [Tap("h")] + [Lose(0, 0)]
    else Attempts(n - 1) + [Tap("h")] + [Lose(n - 1, 0)] + [Drop(n - 1)]
  }

  /** One more attempt is refused outright, which unpins the key.  A 401 is final once
      the refresh has failed. */
  function Refusal(n: nat, status: nat): seq<Event> {
    Attempts(n) + [Tap("h")] + [EarlyRefusal(n, status, "REFUSED")] + [RefreshEnded(false)]
  }

  /** Then the first attempt arrives after all, and commits. */
  function LateArrival(n: nat, status: nat): seq<Event> {
    Refusal(n, status) + [Deliver(0)] + [Server(0, I.Claim(0))] + [Server(0, I.Begin(0, I.Opened))]
    + [Server(0, I.Send(0, CREATED))] + [Server(0, I.CommitWork(0, I.Answered))]
  }

  const CREATED := I.Response(201, "")

  function Waiting(n: nat, wire: set<Rid>): World {
    World(Some(0), Idle, "h", Sents(n), wire, [I.INIT], [Ambiguities(n)])
  }

  function Sending(n: nat, call: Call, wire: set<Rid>): World {
    World(Some(0), call, "h", Sents(n + 1), wire, [I.INIT], [Ambiguities(n)])
  }

  /** The handset after the refusal; only the server still moves. */
  function Unpinned(n: nat, status: nat, wire: set<Rid>, s: I.State): World {
    World(None, Idle, "h", Sents(n + 1), wire, [s], [Ambiguities(n) + [Refused(status)]])
  }

  /** A request with an empty handler, while its connection is sound. */
  function Attempt(phase: I.Phase, connects: nat): I.Request {
    I.Request("h", phase, N.Skip, [], if phase.Working? || phase.Stored? then I.Open else I.Idle,
              if phase.Stored? then Some(phase.response.status) else None, connects, 0)
  }

  /** The server row once the late request has arrived. */
  function Late(row: Option<I.Row>, phase: I.Phase, connects: nat): I.State {
    I.State(row, if phase.Stored? then Some(0) else None,
            map[0 := Attempt(phase, connects)], [],
            0, if row.Some? then 1 else 0)
  }

  const LOCKED := Some(I.Row("h", Some(0), None, I.RETENTION_MS))

  lemma Follow(events: seq<Event>, w: World, e: Event, w': World)
    requires Run(INIT, events) == w && Shape(w) && Next(w, e) == w'
    ensures Run(INIT, events + [e]) == w'
  {
    assert (events + [e])[..|events|] == events;
  }

  lemma OneMore(n: nat)
    ensures Sents(n) + [Sent(0, "h")] == Sents(n + 1) && Ambiguities(n) + [Ambiguous] == Ambiguities(n + 1)
  {
  }

  lemma FirstAttempt()
    ensures Run(INIT, Attempts(1)) == Waiting(1, {0})
  {
    OneMore(0);
    Follow([], INIT, Tap("h"), Sending(0, FirstTry(0), {0}));
    Follow([] + [Tap("h")], Sending(0, FirstTry(0), {0}), Lose(0, 0), Waiting(1, {0}));
    assert [] + [Tap("h")] == [Tap("h")];
  }

  lemma TapAgain(events: seq<Event>, n: nat)
    requires n > 0 && Run(INIT, events) == Waiting(n, {0})
    ensures Run(INIT, events + [Tap("h")]) == Sending(n, FirstTry(n), {0, n})
  {
    OneMore(n);
    Follow(events, Waiting(n, {0}), Tap("h"), Sending(n, FirstTry(n), {0, n}));
  }

  lemma {:induction false} AttemptsRun(n: nat)
    requires n > 0
    ensures Run(INIT, Attempts(n)) == Waiting(n, {0})
  {
    if n == 1 {
      FirstAttempt();
    } else {
      AttemptsRun(n - 1);
      AttemptFails(Attempts(n - 1), n - 1);
    }
  }

  lemma AttemptFails(events: seq<Event>, m: nat)
    requires m > 0 && Run(INIT, events) == Waiting(m, {0})
    ensures Run(INIT, events + [Tap("h")] + [Lose(m, 0)] + [Drop(m)]) == Waiting(m + 1, {0})
  {
    TapAgain(events, m);
    LoseAgain(m);
    Follow(events + [Tap("h")], Sending(m, FirstTry(m), {0, m}), Lose(m, 0), Waiting(m + 1, {0, m}));
    Follow(events + [Tap("h")] + [Lose(m, 0)], Waiting(m + 1, {0, m}), Drop(m), Waiting(m + 1, {0}));
  }

  lemma LoseAgain(m: nat)
    requires m > 0
    ensures Next(Sending(m, FirstTry(m), {0, m}), Lose(m, 0)) == Waiting(m + 1, {0, m})
    ensures Next(Waiting(m + 1, {0, m}), Drop(m)) == Waiting(m + 1, {0})
  {
    OneMore(m);
  }

  lemma RefusalRuns(n: nat, status: nat)
    requires n > 0 && 400 <= status < 500
    ensures Run(INIT, Refusal(n, status)) == Unpinned(n, status, {0}, I.INIT)
  {
    var es := Attempts(n);
    AttemptsRun(n);
    TapAgain(es, n);
    var heard := if status == 401 then Sending(n, Refreshing, {0}) else Unpinned(n, status, {0}, I.INIT);
    RefusalIsHeard(n, status);
    Follow(es + [Tap("h")], Sending(n, FirstTry(n), {0, n}), EarlyRefusal(n, status, "REFUSED"), heard);
    Follow(es + [Tap("h")] + [EarlyRefusal(n, status, "REFUSED")], heard, RefreshEnded(false),
        Unpinned(n, status, {0}, I.INIT));
  }

  lemma RefusalIsHeard(n: nat, status: nat)
    requires n > 0 && 400 <= status < 500
    ensures var heard := if status == 401 then Sending(n, Refreshing, {0}) else Unpinned(n, status, {0}, I.INIT);
            && Next(Sending(n, FirstTry(n), {0, n}), EarlyRefusal(n, status, "REFUSED")) == heard
            && Next(heard, RefreshEnded(false)) == Unpinned(n, status, {0}, I.INIT)
  {
  }

  lemma LateClaims()
    ensures I.DoArrive(I.INIT, 0, "h") == Late(None, I.Arrived, 0)
    ensures I.DoClaim(Late(None, I.Arrived, 0), 0) == Late(LOCKED, I.Claimed(0), 0)
    ensures I.DoBegin(Late(LOCKED, I.Claimed(0), 0), 0, I.Opened) == Late(LOCKED, I.Working(0), 1)
  {
  }

  lemma LateCommits()
    ensures I.DoSend(Late(LOCKED, I.Working(0), 1), 0, CREATED) == Late(LOCKED, I.Stored(0, CREATED), 1)
    ensures |I.DoCommit(Late(LOCKED, I.Stored(0, CREATED), 1), 0, I.Answered).commits| == 1
  {
  }

  lemma LateWorks()
    ensures I.DoArrive(I.INIT, 0, "h") == Late(None, I.Arrived, 0)
    ensures I.Next(Late(None, I.Arrived, 0), I.Claim(0)) == Late(LOCKED, I.Claimed(0), 0)
    ensures I.Next(Late(LOCKED, I.Claimed(0), 0), I.Begin(0, I.Opened)) == Late(LOCKED, I.Working(0), 1)
    ensures I.Next(Late(LOCKED, I.Working(0), 1), I.Send(0, CREATED)) == Late(LOCKED, I.Stored(0, CREATED), 1)
    ensures |I.Next(Late(LOCKED, I.Stored(0, CREATED), 1), I.CommitWork(0, I.Answered)).commits| == 1
  {
    LateClaims();
    LateCommits();
  }

  lemma ServerFollows(events: seq<Event>, n: nat, status: nat, s: I.State, step: I.Event)
    requires Run(INIT, events) == Unpinned(n, status, {}, s) && !step.Arrive?
    ensures Run(INIT, events + [Server(0, step)]) == Unpinned(n, status, {}, I.Next(s, step))
  {
    Follow(events, Unpinned(n, status, {}, s), Server(0, step), Unpinned(n, status, {}, I.Next(s, step)));
  }

  /** However many ambiguous failures came before: the refused intent may still be saved. */
  lemma RefusalAfterAmbiguityMaySave(n: nat, status: nat)
    requires n > 0 && 400 <= status < 500
    ensures EndedRefused(LateArrival(n, status), 0, n, status)
    ensures |Run(INIT, LateArrival(n, status)).servers[0].commits| == 1
  {
    var es := Refusal(n, status);
    RefusalRuns(n, status);
    LateWorks();
    Follow(es, Unpinned(n, status, {0}, I.INIT), Deliver(0), Unpinned(n, status, {}, Late(None, I.Arrived, 0)));
    var e1 := es + [Deliver(0)];
    ServerFollows(e1, n, status, Late(None, I.Arrived, 0), I.Claim(0));
    var e2 := e1 + [Server(0, I.Claim(0))];
    ServerFollows(e2, n, status, Late(LOCKED, I.Claimed(0), 0), I.Begin(0, I.Opened));
    var e3 := e2 + [Server(0, I.Begin(0, I.Opened))];
    ServerFollows(e3, n, status, Late(LOCKED, I.Working(0), 1), I.Send(0, CREATED));
    var e4 := e3 + [Server(0, I.Send(0, CREATED))];
    ServerFollows(e4, n, status, Late(LOCKED, I.Stored(0, CREATED), 1), I.CommitWork(0, I.Answered));
  }

  /** A 4xx means that nothing was saved exactly when no ambiguous failure came before it. */
  lemma RefusalIsSafeExactlyWhenFirst(n: nat, status: nat)
    requires 400 <= status < 500
    ensures RefusalIsSafe(n, status) <==> n == 0
  {
    if n == 0 {
      forall events, k: Key | EndedRefused(events, k, n, status)
        ensures Run(INIT, events).servers[k].commits == []
      {
        assert Run(INIT, events).verdicts[k][0] == Refused(status);
        RefusedOutrightSavedNothing(events, k);
      }
    } else {
      RefusalAfterAmbiguityMaySave(n, status);
    }
  }

  // ----- a refusal the protocol gives by itself -----

  /** The server row with two attempts of one intent. */
  function Racing(first: I.Phase, second: I.Phase): I.State {
    I.State(LOCKED, if first.Stored? then Some(0) else None,
            map[0 := Attempt(first, 1), 1 := Attempt(second, 0)],
            [], 0, 1)
  }

  /** The first attempt is still at work when its client gives up. */
  function FirstPart(): seq<Event> {
    [] + [Tap("h")] + [Deliver(0)] + [Server(0, I.Claim(0))] + [Server(0, I.Begin(0, I.Opened))] + [Lose(0, 0)]
  }

  /** The retry finds the row locked and gets the 409, which unpins the key. */
  function SecondPart(): seq<Event> {
    FirstPart() + [Tap("h")] + [Deliver(1)] + [Server(0, I.Claim(1))] + [Server(0, I.Fetch(1, 0))] + [Answer(1)]
  }

  /** Then the first attempt commits. */
  function Overtaken(): seq<Event> {
    SecondPart() + [Server(0, I.Send(0, CREATED))] + [Server(0, I.CommitWork(0, I.Answered))]
  }

  lemma RetryIsRefused()
    ensures I.DoArrive(Late(LOCKED, I.Working(0), 1), 1, "h") == Racing(I.Working(0), I.Arrived)
    ensures I.DoClaim(Racing(I.Working(0), I.Arrived), 1) == Racing(I.Working(0), I.ClaimLost)
    ensures I.DoFetch(Racing(I.Working(0), I.ClaimLost), 1, 0) == Racing(I.Working(0), I.Done(I.InFlight))
  {
  }

  lemma OvertakenCommits()
    ensures I.DoSend(Racing(I.Working(0), I.Done(I.InFlight)), 0, CREATED) ==
            Racing(I.Stored(0, CREATED), I.Done(I.InFlight))
    ensures |I.DoCommit(Racing(I.Stored(0, CREATED), I.Done(I.InFlight)), 0, I.Answered).commits| == 1
  {
  }

  lemma RaceSteps()
    ensures I.DoArrive(Late(LOCKED, I.Working(0), 1), 1, "h") == Racing(I.Working(0), I.Arrived)
    ensures I.Next(Racing(I.Working(0), I.Arrived), I.Claim(1)) == Racing(I.Working(0), I.ClaimLost)
    ensures I.Next(Racing(I.Working(0), I.ClaimLost), I.Fetch(1, 0)) == Racing(I.Working(0), I.Done(I.InFlight))
    ensures I.Next(Racing(I.Working(0), I.Done(I.InFlight)), I.Send(0, CREATED)) ==
            Racing(I.Stored(0, CREATED), I.Done(I.InFlight))
    ensures |I.Next(Racing(I.Stored(0, CREATED), I.Done(I.InFlight)), I.CommitWork(0, I.Answered)).commits| == 1
  {
    RetryIsRefused();
    OvertakenCommits();
  }

  /** The first attempt, on the handset and on its server. */
  function FirstSent(call: Call, wire: set<Rid>, s: I.State, told: seq<Verdict>): World {
    World(Some(0), call, "h", Sents(1), wire, [s], [told])
  }

  function SecondSent(wire: set<Rid>, s: I.State): World {
    World(Some(0), FirstTry(1), "h", Sents(2), wire, [s], [[Ambiguous]])
  }

  function Refused409(s: I.State): World {
    World(None, Idle, "h", Sents(2), {}, [s], [[Ambiguous, Refused(409)]])
  }

  lemma FirstClaims()
    ensures Run(INIT, [] + [Tap("h")] + [Deliver(0)] + [Server(0, I.Claim(0))]) ==
            FirstSent(FirstTry(0), {}, Late(LOCKED, I.Claimed(0), 0), [])
  {
    LateWorks();
    OneMore(0);
    var w1 := FirstSent(FirstTry(0), {0}, I.INIT, []);
    var w2 := FirstSent(FirstTry(0), {}, Late(None, I.Arrived, 0), []);
    Follow([], INIT, Tap("h"), w1);
    Follow([] + [Tap("h")], w1, Deliver(0), w2);
    Follow([] + [Tap("h")] + [Deliver(0)], w2, Server(0, I.Claim(0)),
           FirstSent(FirstTry(0), {}, Late(LOCKED, I.Claimed(0), 0), []));
  }

  lemma FirstIsAtWork()
    ensures Run(INIT, FirstPart()) == FirstSent(Idle, {}, Late(LOCKED, I.Working(0), 1), [Ambiguous])
  {
    FirstClaims();
    LateWorks();
    var es := [] + [Tap("h")] + [Deliver(0)] + [Server(0, I.Claim(0))];
    var w4 := FirstSent(FirstTry(0), {}, Late(LOCKED, I.Working(0), 1), []);
    Follow(es, FirstSent(FirstTry(0), {}, Late(LOCKED, I.Claimed(0), 0), []), Server(0, I.Begin(0, I.Opened)), w4);
    es := es + [Server(0, I.Begin(0, I.Opened))];
    assert [] + [Ambiguous] == [Ambiguous];
    Follow(es, w4, Lose(0, 0), FirstSent(Idle, {}, Late(LOCKED, I.Working(0), 1), [Ambiguous]));
  }

  lemma SecondLosesTheClaim()
    ensures Run(INIT, FirstPart() + [Tap("h")] + [Deliver(1)] + [Server(0, I.Claim(1))]) ==
            SecondSent({}, Racing(I.Working(0), I.ClaimLost))
  {
    FirstIsAtWork();
    RaceSteps();
    OneMore(1);
    var es := FirstPart();
    var w1 := SecondSent({1}, Late(LOCKED, I.Working(0), 1));
    var w2 := SecondSent({}, Racing(I.Working(0), I.Arrived));
    var w3 := SecondSent({}, Racing(I.Working(0), I.ClaimLost));
    Follow(es, FirstSent(Idle, {}, Late(LOCKED, I.Working(0), 1), [Ambiguous]), Tap("h"), w1);
    Follow(es + [Tap("h")], w1, Deliver(1), w2);
    Follow(es + [Tap("h")] + [Deliver(1)], w2, Server(0, I.Claim(1)), w3);
  }

  lemma FetchIsInFlight()
    ensures Run(INIT, FirstPart() + [Tap("h")] + [Deliver(1)] + [Server(0, I.Claim(1))] + [Server(0, I.Fetch(1, 0))]) ==
            SecondSent({}, Racing(I.Working(0), I.Done(I.InFlight)))
  {
    SecondLosesTheClaim();
    RaceSteps();
    Follow(FirstPart() + [Tap("h")] + [Deliver(1)] + [Server(0, I.Claim(1))],
           SecondSent({}, Racing(I.Working(0), I.ClaimLost)), Server(0, I.Fetch(1, 0)),
           SecondSent({}, Racing(I.Working(0), I.Done(I.InFlight))));
  }

  lemma SecondIsRefused()
    ensures Run(INIT, SecondPart()) == Refused409(Racing(I.Working(0), I.Done(I.InFlight)))
  {
    FetchIsInFlight();
    assert [Ambiguous] + [Refused(409)] == [Ambiguous, Refused(409)];
    Follow(FirstPart() + [Tap("h")] + [Deliver(1)] + [Server(0, I.Claim(1))] + [Server(0, I.Fetch(1, 0))],
           SecondSent({}, Racing(I.Working(0), I.Done(I.InFlight))), Answer(1),
           Refused409(Racing(I.Working(0), I.Done(I.InFlight))));
  }

  /** No packet need be delayed and nobody else need refuse: the protocol's own 409 to a
      retry unpins the key of an intent that is then saved. */
  lemma OvertakenRetryMaySave()
    ensures var w := Run(INIT, Overtaken());
            && |w.servers| == 1 && w.key == None && w.verdicts[0] == [Ambiguous, Refused(409)]
            && |w.servers[0].commits| == 1
  {
    SecondIsRefused();
    RaceSteps();
    var es := SecondPart();
    var s1 := Racing(I.Working(0), I.Done(I.InFlight));
    var s2 := Racing(I.Stored(0, CREATED), I.Done(I.InFlight));
    Follow(es, Refused409(s1), Server(0, I.Send(0, CREATED)), Refused409(s2));
    Follow(es + [Server(0, I.Send(0, CREATED))], Refused409(s2), Server(0, I.CommitWork(0, I.Answered)),
           Refused409(I.Next(s2, I.CommitWork(0, I.Answered))));
  }

  // ----- what a send comes to -----

  /** The verdict of an answer, by its number and its code. */
  lemma VerdictIsDecided(hash: I.Hash, res: ApiResult, key: Option<Key>)
    ensures var v := VerdictOf(hash, res); var reached := res.status != 0 && res.code != "NETWORK";
            && (v.Accepted? <==> 200 <= res.status < 300)
            && (v.Accepted? ==> v == Accepted(hash, I.Response(res.status, res.body)))
            && (v.Ambiguous? <==> !(200 <= res.status < 300) && (!reached || res.status >= 500))
            && (v.Refused? <==> !(200 <= res.status < 300) && reached && res.status < 500)
            && (v.Refused? ==> v.status == res.status)
            && KeyAfter(key, v) == if v.Ambiguous? then key else None
  {
  }

  /** The awaited request has ended on its server with this stored or fresh answer. */
  predicate EndedWith(w: World, rid: Rid, p: I.Response)
    requires Shape(w)
  {
    && Awaiting(w, rid) && rid in w.servers[w.key.value].requests
    && (w.servers[w.key.value].requests[rid].phase == I.Done(I.Fresh(p))
        || w.servers[w.key.value].requests[rid].phase == I.Done(I.Replayed(p)))
  }

  /** In every reachable world: when the answer of the awaited request is a success, `send`
      accepts it with exactly those bytes and lets go of the key, and the next intent goes
      out under a key that no request before it carried. */
  lemma SuccessIsAccepted(events: seq<Event>, rid: Rid, p: I.Response, next: I.Hash)
    requires EndedWith(Run(INIT, events), rid, p) && 200 <= p.status < 300
    ensures var w := Run(INIT, events); var k := w.key.value; var w' := Next(w, Answer(rid));
            && w'.verdicts == w.verdicts[k := w.verdicts[k] + [Accepted(w.body, p)]]
            && w'.key.None? && w'.call.Idle? && w'.servers == w.servers && w'.sent == w.sent
    ensures var w' := Next(Run(INIT, events), Answer(rid));
            && Shape(w') && var w'' := Next(w', Tap(next));
            && w''.key == Some(|w'.servers|) && w''.sent == w'.sent + [Sent(|w'.servers|, next)]
            && forall i :: 0 <= i < |w'.sent| ==> w'.sent[i].key != |w'.servers|
  {
    var w := Run(INIT, events);
    VerdictIsDecided(w.body, ApiResult(p.status, p.body, ""), w.key);
    ShapeStays(w, Answer(rid));
  }

  /** The send ended with this verdict: the key survives exactly an ambiguous one. */
  predicate Ended(w: World, w': World, v: Verdict)
    requires Shape(w) && w.key.Some?
  {
    var k := w.key.value;
    && w'.verdicts == w.verdicts[k := w.verdicts[k] + [v]] && w'.call.Idle?
    && w'.key == (if v == Ambiguous then w.key else None)
    && w'.servers == w.servers && w'.sent == w.sent && w'.body == w.body
  }

  /** In every reachable world, what any other answer of the awaited request comes to: a 409
      and a 422 of the protocol refuse the intent, a failure is judged by its status, and a
      first 401 goes to the refresh and is not an answer yet. */
  lemma FailuresAreDecided(events: seq<Event>, rid: Rid)
    requires var w := Run(INIT, events);
             Awaiting(w, rid) && rid in w.servers[w.key.value].requests
             && w.servers[w.key.value].requests[rid].phase.Done?
    ensures var w := Run(INIT, events); var w' := Next(w, Answer(rid));
            && Shape(w) && w.key.Some?
            && match w.servers[w.key.value].requests[rid].phase.answer
               case InFlight => Ended(w, w', Refused(409))
               case KeyReused => Ended(w, w', Refused(422))
               case Failed(status) =>
                 && (status == 401 && w.call == FirstTry(rid) ==> w' == w.(call := Refreshing))
                 && (400 <= status < 500 && (status != 401 || w.call == SecondTry(rid)) ==>
                       Ended(w, w', Refused(status)))
                 && (status >= 500 ==> Ended(w, w', Ambiguous))
               case Vanished => w' == w
               case Died => w' == w
               case _ => true
  {
  }

  /** An answer that is lost, or replaced by one of a server in trouble, is an ambiguous
      failure; every other status is an answer and not lost.  A refusal on the way to the
      claim, of any status from 400 on, never reaches the server. */
  lemma LossesAreDecided(w: World, rid: Rid, status: nat, code: string)
    requires Shape(w) && Awaiting(w, rid)
    ensures status == 0 || status >= 500 ==> Ended(w, Next(w, Lose(rid, status)), Ambiguous)
    ensures 0 < status < 500 ==> Next(w, Lose(rid, status)) == w
    ensures var w' := Next(w, EarlyRefusal(rid, status, code));
            && (rid !in w.wire || status < 400 ==> w' == w)
            && (rid in w.wire && status >= 400 ==>
                  && w'.wire == w.wire - {rid} && w'.servers == w.servers
                  && (status == 401 && w.call == FirstTry(rid) ==>
                        w'.call == Refreshing && w'.verdicts == w.verdicts && w'.key == w.key)
                  && (status != 401 || w.call == SecondTry(rid) ==>
                        Ended(w, w', if status >= 500 || code == "NETWORK" then Ambiguous else Refused(status))))
  {
  }

  /** After a first 401: a renewed session sends the same body once more under the same key,
      any other end of the refresh is a refusal. */
  lemma RefreshIsDecided(w: World, refreshed: bool)
    requires Shape(w) && w.call == Refreshing
    ensures var w', rid := Next(w, RefreshEnded(refreshed)), |w.sent|;
            if refreshed
            then w' == w.(sent := w.sent + [Sent(w.key.value, w.body)], wire := w.wire + {rid}, call := SecondTry(rid))
            else Ended(w, w', Refused(401))
    ensures Ended(w, Next(w, TokenReused), Refused(401))
  {
  }

  /** A tap while nothing is under way sends one request with its body: under the pinned key
      if there is one, and otherwise under a key that has no server row yet. */
  lemma TapIsDecided(w: World, hash: I.Hash)
    requires Shape(w)
    ensures var w', rid := Next(w, Tap(hash)), |w.sent|;
            if w.call != Idle then w' == w
            else
              var k := if w.key.Some? then w.key.value else |w.servers|;
              && w'.key == Some(k) && w'.body == hash && w'.call == FirstTry(rid)
              && w'.sent == w.sent + [Sent(k, hash)] && w'.wire == w.wire + {rid}
              && (w.key.Some? ==> w'.servers == w.servers && w'.verdicts == w.verdicts)
              && (w.key.None? ==> w'.servers == w.servers + [I.INIT] && w'.verdicts == w.verdicts + [[]])
  {
  }

  /** The server of a fresh key with one request. */
  function Serving(rid: Rid, hash: I.Hash, row: Option<I.Row>, phase: I.Phase, connects: nat, clock: nat): I.State {
    I.State(row, if phase.Stored? then Some(rid) else None,
            map[rid := I.Request(hash, phase, N.Skip, [], if phase.Working? || phase.Stored? then I.Open else I.Idle,
                                 if phase.Stored? then Some(phase.response.status) else None, connects, 0)],
            [], 0, clock)
  }

  function LockedRow(hash: I.Hash): Option<I.Row> {
    Some(I.Row(hash, Some(0), None, I.RETENTION_MS))
  }

  /** The server when the request has committed. */
  function Served(rid: Rid, hash: I.Hash, reply: I.Response): I.State {
    I.DoCommit(Serving(rid, hash, LockedRow(hash), I.Stored(0, reply), 1, 1), rid, I.Answered)
  }

  lemma ServerClaims(rid: Rid, hash: I.Hash)
    ensures I.DoArrive(I.INIT, rid, hash) == Serving(rid, hash, None, I.Arrived, 0, 0)
    ensures I.DoClaim(Serving(rid, hash, None, I.Arrived, 0, 0), rid) ==
            Serving(rid, hash, LockedRow(hash), I.Claimed(0), 0, 1)
    ensures I.DoBegin(Serving(rid, hash, LockedRow(hash), I.Claimed(0), 0, 1), rid, I.Opened) ==
            Serving(rid, hash, LockedRow(hash), I.Working(0), 1, 1)
  {
  }

  lemma ServerCommits(rid: Rid, hash: I.Hash, reply: I.Response)
    requires reply.status < 400
    ensures I.DoSend(Serving(rid, hash, LockedRow(hash), I.Working(0), 1, 1), rid, reply) ==
            Serving(rid, hash, LockedRow(hash), I.Stored(0, reply), 1, 1)
    ensures var s := Served(rid, hash, reply);
            && s.commits == [I.Commit(rid, hash, [], reply)]
            && rid in s.requests && s.requests[rid].phase == I.Done(I.Fresh(reply))
  {
  }

  /** The world while the new intent is under way on its server. */
  function Underway(w: World, hash: I.Hash, wire: set<Rid>, s: I.State): World {
    World(Some(|w.servers|), FirstTry(|w.sent|), hash, w.sent + [Sent(|w.servers|, hash)], wire,
          w.servers + [s], w.verdicts + [[]])
  }

  /** The world when it was accepted. */
  function AcceptedBy(w: World, hash: I.Hash, reply: I.Response): World {
    World(None, Idle, hash, w.sent + [Sent(|w.servers|, hash)], w.wire,
          w.servers + [Served(|w.sent|, hash, reply)], w.verdicts + [[Accepted(hash, reply)]])
  }

  lemma ServerMoves(w: World, hash: I.Hash, s: I.State, step: I.Event)
    requires Inv(w) && !step.Arrive? && Shape(Underway(w, hash, w.wire, s))
    ensures Next(Underway(w, hash, w.wire, s), Server(|w.servers|, step)) == Underway(w, hash, w.wire, I.Next(s, step))
  {
    assert (w.servers + [s])[|w.servers| := I.Next(s, step)] == w.servers + [I.Next(s, step)];
  }

  lemma TapMoves(w: World, hash: I.Hash)
    requires Inv(w) && w.call.Idle? && w.key.None?
    ensures Next(w, Tap(hash)) == Underway(w, hash, w.wire + {|w.sent|}, I.INIT)
  {
  }

  lemma DeliverMoves(w: World, hash: I.Hash)
    requires Inv(w)
    ensures Shape(Underway(w, hash, w.wire + {|w.sent|}, I.INIT))
    ensures Next(Underway(w, hash, w.wire + {|w.sent|}, I.INIT), Deliver(|w.sent|)) ==
            Underway(w, hash, w.wire, Serving(|w.sent|, hash, None, I.Arrived, 0, 0))
  {
    ServerClaims(|w.sent|, hash);
    assert w.wire + {|w.sent|} - {|w.sent|} == w.wire;
    var s := Serving(|w.sent|, hash, None, I.Arrived, 0, 0);
    assert (w.servers + [I.INIT])[|w.servers| := s] == w.servers + [s];
  }

  lemma AnswerMoves(w: World, hash: I.Hash, reply: I.Response)
    requires Inv(w) && 200 <= reply.status < 300
    ensures Shape(Underway(w, hash, w.wire, Served(|w.sent|, hash, reply)))
    ensures Next(Underway(w, hash, w.wire, Served(|w.sent|, hash, reply)), Answer(|w.sent|)) ==
            AcceptedBy(w, hash, reply)
  {
    ServerCommits(|w.sent|, hash, reply);
    var told := [Accepted(hash, reply)];
    assert [] + told == told;
    assert (w.verdicts + [[]])[|w.servers| := told] == w.verdicts + [told];
  }

  lemma FollowFrom(w: World, events: seq<Event>, e: Event)
    requires Shape(w)
    ensures Run(w, events + [e]) == Next(Run(w, events), e)
  {
    assert (events + [e])[..|events|] == events;
  }

  /** One more statement on the server of the new key. */
  lemma ServerFollowsFrom(w: World, events: seq<Event>, hash: I.Hash, s: I.State, step: I.Event, s': I.State)
    requires Inv(w) && !step.Arrive? && I.Next(s, step) == s' && Run(w, events) == Underway(w, hash, w.wire, s)
    ensures Run(w, events + [Server(|w.servers|, step)]) == Underway(w, hash, w.wire, s')
  {
    FollowFrom(w, events, Server(|w.servers|, step));
    ServerMoves(w, hash, s, step);
  }

  function Delivered(w: World, hash: I.Hash): seq<Event> {
    [] + [Tap(hash)] + [Deliver(|w.sent|)]
  }

  /** A send that nobody interrupts. */
  function Undisturbed(w: World, hash: I.Hash, reply: I.Response): seq<Event> {
    var k, rid := |w.servers|, |w.sent|;
    Delivered(w, hash) + [Server(k, I.Claim(rid))] + [Server(k, I.Begin(rid, I.Opened))]
    + [Server(k, I.Send(rid, reply))] + [Server(k, I.CommitWork(rid, I.Answered))] + [Answer(rid)]
  }

  lemma DeliveredRuns(w: World, hash: I.Hash)
    requires Inv(w) && w.call.Idle? && w.key.None?
    ensures Run(w, Delivered(w, hash)) == Underway(w, hash, w.wire, Serving(|w.sent|, hash, None, I.Arrived, 0, 0))
  {
    FollowFrom(w, [], Tap(hash));
    TapMoves(w, hash);
    FollowFrom(w, [] + [Tap(hash)], Deliver(|w.sent|));
    DeliverMoves(w, hash);
  }

  lemma ClaimRuns(w: World, hash: I.Hash)
    requires Inv(w) && w.call.Idle? && w.key.None?
    ensures Run(w, Delivered(w, hash) + [Server(|w.servers|, I.Claim(|w.sent|))]) ==
            Underway(w, hash, w.wire, Serving(|w.sent|, hash, LockedRow(hash), I.Claimed(0), 0, 1))
  {
    DeliveredRuns(w, hash);
    ServerClaims(|w.sent|, hash);
    ServerFollowsFrom(w, Delivered(w, hash), hash, Serving(|w.sent|, hash, None, I.Arrived, 0, 0), I.Claim(|w.sent|),
                      Serving(|w.sent|, hash, LockedRow(hash), I.Claimed(0), 0, 1));
  }

  lemma WorkRuns(w: World, events: seq<Event>, hash: I.Hash)
    requires Inv(w)
    requires Run(w, events) == Underway(w, hash, w.wire, Serving(|w.sent|, hash, LockedRow(hash), I.Claimed(0), 0, 1))
    ensures Run(w, events + [Server(|w.servers|, I.Begin(|w.sent|, I.Opened))]) ==
            Underway(w, hash, w.wire, Serving(|w.sent|, hash, LockedRow(hash), I.Working(0), 1, 1))
  {
    ServerClaims(|w.sent|, hash);
    ServerFollowsFrom(w, events, hash, Serving(|w.sent|, hash, LockedRow(hash), I.Claimed(0), 0, 1),
                      I.Begin(|w.sent|, I.Opened), Serving(|w.sent|, hash, LockedRow(hash), I.Working(0), 1, 1));
  }

  lemma CommitRuns(w: World, events: seq<Event>, hash: I.Hash, reply: I.Response)
    requires Inv(w) && reply.status < 400
    requires Run(w, events) == Underway(w, hash, w.wire, Serving(|w.sent|, hash, LockedRow(hash), I.Working(0), 1, 1))
    ensures var k, rid := |w.servers|, |w.sent|;
            Run(w, events + [Server(k, I.Send(rid, reply))] + [Server(k, I.CommitWork(rid, I.Answered))]) ==
            Underway(w, hash, w.wire, Served(rid, hash, reply))
  {
    var k, rid := |w.servers|, |w.sent|;
    ServerCommits(rid, hash, reply);
    var stored := Serving(rid, hash, LockedRow(hash), I.Stored(0, reply), 1, 1);
    ServerFollowsFrom(w, events, hash, Serving(rid, hash, LockedRow(hash), I.Working(0), 1, 1), I.Send(rid, reply),
                      stored);
    ServerFollowsFrom(w, events + [Server(k, I.Send(rid, reply))], hash, stored, I.CommitWork(rid, I.Answered),
                      Served(rid, hash, reply));
  }

  lemma UndisturbedRuns(w: World, hash: I.Hash, reply: I.Response)
    requires Inv(w) && w.call.Idle? && w.key.None? && 200 <= reply.status < 300
    ensures Run(w, Undisturbed(w, hash, reply)) == AcceptedBy(w, hash, reply)
  {
    var k, rid := |w.servers|, |w.sent|;
    var es := Delivered(w, hash) + [Server(k, I.Claim(rid))] + [Server(k, I.Begin(rid, I.Opened))];
    ClaimRuns(w, hash);
    WorkRuns(w, Delivered(w, hash) + [Server(k, I.Claim(rid))], hash);
    CommitRuns(w, es, hash, reply);
    FollowFrom(w, es + [Server(k, I.Send(rid, reply))] + [Server(k, I.CommitWork(rid, I.Answered))], Answer(rid));
    AnswerMoves(w, hash, reply);
  }

  /** From every world without a pinned key: a send that nobody interrupts is accepted with
      the answer of its one commit, under a key of its own, and touches no other key. */
  lemma UndisturbedSendIsAccepted(w: World, hash: I.Hash, reply: I.Response)
    requires Inv(w) && w.call.Idle? && w.key.None? && 200 <= reply.status < 300
    ensures var w' := Run(w, Undisturbed(w, hash, reply)); var k := |w.servers|;
            && Inv(w') && w'.key.None? && w'.call.Idle?
            && w'.sent == w.sent + [Sent(k, hash)]
            && w'.verdicts == w.verdicts + [[Accepted(hash, reply)]]
            && |w'.servers| == k + 1 && w'.servers[..k] == w.servers
            && w'.servers[k].commits == [I.Commit(|w.sent|, hash, [], reply)]
  {
    UndisturbedRuns(w, hash, reply);
    ServerCommits(|w.sent|, hash, reply);
    RunKeepsInv(w, Undisturbed(w, hash, reply));
    assert AcceptedBy(w, hash, reply).servers[..|w.servers|] == w.servers;
  }

  /** From the start: one intent after the other, each accepted under its own key. */
  lemma TwoIntentsTwoKeys(first: I.Hash, second: I.Hash, reply: I.Response)
    requires 200 <= reply.status < 300
    ensures var w1 := Run(INIT, Undisturbed(INIT, first, reply)); var w2 := Run(w1, Undisturbed(w1, second, reply));
            && w2.verdicts == [[Accepted(first, reply)], [Accepted(second, reply)]]
            && w2.sent == [Sent(0, first), Sent(1, second)]
            && |w2.servers| == 2 && |w2.servers[0].commits| == 1 && |w2.servers[1].commits| == 1
  {
    UndisturbedSendIsAccepted(INIT, first, reply);
    var w1 := Run(INIT, Undisturbed(INIT, first, reply));
    UndisturbedSendIsAccepted(w1, second, reply);
    var w2 := Run(w1, Undisturbed(w1, second, reply));
    assert w2.servers[..1][0] == w2.servers[0];
  }
}

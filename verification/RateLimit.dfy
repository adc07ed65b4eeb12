/**
 * The sliding-window limiter of apps/api/src/lib/rate-limit.ts.  The map it keeps is
 * pruned on every hit and swept when it grows; the specification is the full history of
 * hits, never pruned.
 */
module RateLimit {
  datatype Hit = Hit(key: string, at: int, accepted: bool)

  /** `timestamps.filter((t) => now - t < windowMs)`. */
  function Alive(ts: seq<int>, now: int, window: int): seq<int> {
    if ts == [] then []
    else (if now - ts[0] < window then [ts[0]] else []) + Alive(ts[1..], now, window)
  }

  /** Every hit ever made on a key. */
  function TimesOf(history: seq<Hit>, key: string): seq<int> {
    if history == [] then []
    else
      var last := |history| - 1;
      TimesOf(history[..last], key) + if history[last].key == key then [history[last].at] else []
  }

  /** The answer the unpruned history gives; refused hits count as well. */
  predicate Admits(history: seq<Hit>, key: string, now: int, limit: nat, window: int) {
    |Alive(TimesOf(history, key) + [now], now, window)| <= limit
  }

  // ----- pruning changes no later answer -----

  lemma {:induction false} AliveConcat(a: seq<int>, b: seq<int>, now: int, window: int)
    ensures Alive(a + b, now, window) == Alive(a, now, window) + Alive(b, now, window)
  {
    if a == [] {
      assert a + b == b;
    } else {
      assert (a + b)[1..] == a[1..] + b;
      AliveConcat(a[1..], b, now, window);
    }
  }

  lemma AliveOne(t: int, now: int, window: int)
    ensures Alive([t], now, window) == if now - t < window then [t] else []
  {
    assert [t][1..] == [];
  }

  /** What is dead stays dead: pruning now cannot be noticed later. */
  lemma {:induction false} PruningIsUnobservable(ts: seq<int>, now: int, later: int, window: int)
    requires now <= later
    ensures Alive(Alive(ts, now, window), later, window) == Alive(ts, later, window)
  {
    if ts == [] {
    } else {
      PruningIsUnobservable(ts[1..], now, later, window);
      var head := if now - ts[0] < window then [ts[0]] else [];
      AliveConcat(head, Alive(ts[1..], now, window), later, window);
      if head != [] {
        assert head[1..] == [];
      }
    }
  }

  function Lookup(hits: map<string, seq<int>>, key: string): seq<int> {
    if key in hits then hits[key] else []
  }

  /** The kept timestamps agree with the full history from `clock` on. */
  ghost predicate Agrees(hits: map<string, seq<int>>, history: seq<Hit>, key: string, clock: int, window: int) {
    forall later :: clock <= later ==>
        Alive(Lookup(hits, key), later, window) == Alive(TimesOf(history, key), later, window)
  }

  lemma AgreesLater(hits: map<string, seq<int>>, history: seq<Hit>, key: string, clock: int, now: int, window: int)
    requires Agrees(hits, history, key, clock, window) && clock <= now
    ensures Agrees(hits, history, key, now, window)
  {
    forall later | now <= later
      ensures Alive(Lookup(hits, key), later, window) == Alive(TimesOf(history, key), later, window)
    {
    }
  }

  /** The sweep: dead timestamps go, and keys without a live one go with them. */
  function Swept(hits: map<string, seq<int>>, now: int, window: int): map<string, seq<int>> {
    map k | k in hits && Alive(hits[k], now, window) != [] :: Alive(hits[k], now, window)
  }

  /** Nobody can tell that the sweep ran. */
  lemma SweepAgrees(hits: map<string, seq<int>>, history: seq<Hit>, now: int, window: int, key: string)
    requires Agrees(hits, history, key, now, window)
    ensures Agrees(Swept(hits, now, window), history, key, now, window)
  {
    forall later | now <= later
      ensures Alive(Lookup(Swept(hits, now, window), key), later, window) == Alive(TimesOf(history, key), later, window)
    {
      PruningIsUnobservable(Lookup(hits, key), now, later, window);
      assert Alive(Lookup(hits, key), later, window) == Alive(TimesOf(history, key), later, window);
    }
  }

  lemma {:induction false} AliveMembers(ts: seq<int>, now: int, window: int, t: int)
    ensures t in Alive(ts, now, window) <==> t in ts && now - t < window
  {
    if ts == [] {
    } else {
      AliveMembers(ts[1..], now, window, t);
    }
  }

  /** A key outlives the sweep exactly when its history has a hit inside the window. */
  lemma SweepKeepsTheRecent(hits: map<string, seq<int>>, history: seq<Hit>, now: int, window: int, key: string)
    requires Agrees(hits, history, key, now, window)
    ensures key in Swept(hits, now, window) <==> exists t :: t in TimesOf(history, key) && now - t < window
  {
    var alive := Alive(TimesOf(history, key), now, window);
    assert Alive(Lookup(hits, key), now, window) == alive;
    if alive != [] {
      AliveMembers(TimesOf(history, key), now, window, alive[0]);
      assert alive[0] in TimesOf(history, key) && now - alive[0] < window;
    }
    forall t
      ensures t in alive <==> t in TimesOf(history, key) && now - t < window
    {
      AliveMembers(TimesOf(history, key), now, window, t);
    }
  }

  lemma TimesOfAppend(history: seq<Hit>, h: Hit, key: string)
    ensures TimesOf(history + [h], key) == TimesOf(history, key) + if h.key == key then [h.at] else []
  {
    assert (history + [h])[..|history|] == history;
  }

  // ----- the bound -----

  /** Every hit was answered as the full history demands, and time never ran backwards. */
  ghost predicate Faithful(history: seq<Hit>, limit: nat, window: int) {
    && (forall i, j :: 0 <= i < j < |history| ==> history[i].at <= history[j].at)
    && (forall i :: 0 <= i < |history| ==>
          (history[i].accepted <==> Admits(history[..i], history[i].key, history[i].at, limit, window)))
  }

  lemma FaithfulAppend(history: seq<Hit>, h: Hit, limit: nat, window: int)
    requires Faithful(history, limit, window) && forall i :: 0 <= i < |history| ==> history[i].at <= h.at
    requires h.accepted <==> Admits(history, h.key, h.at, limit, window)
    ensures Faithful(history + [h], limit, window)
  {
    var all := history + [h];
    forall i | 0 <= i < |all|
      ensures all[i].accepted <==> Admits(all[..i], all[i].key, all[i].at, limit, window)
    {
      assert all[..i] == history[..i];
      assert history[..|history|] == history;
    }
  }

  predicate AcceptedIn(h: Hit, key: string, from: int, window: int) {
    h.key == key && h.accepted && from <= h.at < from + window
  }

  function CountAccepted(history: seq<Hit>, key: string, from: int, window: int): nat {
    if history == [] then 0
    else
      var last := |history| - 1;
      CountAccepted(history[..last], key, from, window) + if AcceptedIn(history[last], key, from, window) then 1 else 0
  }

  /** Accepted hits of an interval are all alive at any instant inside it. */
  lemma {:induction false} AcceptedAreAlive(history: seq<Hit>, key: string, from: int, now: int, window: int)
    requires now < from + window
    ensures CountAccepted(history, key, from, window) <= |Alive(TimesOf(history, key), now, window)|
  {
    if history == [] {
    } else {
      var last := |history| - 1;
      var rest, h := history[..last], history[last];
      AcceptedAreAlive(rest, key, from, now, window);
      if h.key == key {
        AliveConcat(TimesOf(rest, key), [h.at], now, window);
        AliveOne(h.at, now, window);
      } else {
        assert TimesOf(rest, key) + [] == TimesOf(rest, key);
      }
    }
  }

  lemma FaithfulFront(history: seq<Hit>, limit: nat, window: int)
    requires Faithful(history, limit, window) && history != []
    ensures Faithful(history[..|history| - 1], limit, window)
  {
    var rest := history[..|history| - 1];
    forall i | 0 <= i < |rest|
      ensures rest[i].accepted <==> Admits(rest[..i], rest[i].key, rest[i].at, limit, window)
    {
      assert rest[..i] == history[..i];
    }
  }

  /** The last hit, if it was accepted, and what counts beside it were within the limit. */
  lemma LastFits(history: seq<Hit>, key: string, from: int, limit: nat, window: int)
    requires Faithful(history, limit, window) && history != []
    requires AcceptedIn(history[|history| - 1], key, from, window)
    ensures CountAccepted(history, key, from, window) <= limit
  {
    var last := |history| - 1;
    var rest, h := history[..last], history[last];
    assert Admits(rest, key, h.at, limit, window);
    AcceptedAreAlive(rest, key, from, h.at, window);
    AliveConcat(TimesOf(rest, key), [h.at], h.at, window);
    AliveOne(h.at, h.at, window);
  }

  /** No half-open interval of one window's length holds more than `limit` accepted hits of a key. */
  lemma {:induction false} NeverMoreThanTheLimit(history: seq<Hit>, key: string, from: int, limit: nat, window: int)
    requires Faithful(history, limit, window)
    ensures CountAccepted(history, key, from, window) <= limit
  {
    if history == [] {
    } else if AcceptedIn(history[|history| - 1], key, from, window) {
      LastFits(history, key, from, limit, window);
    } else {
      FaithfulFront(history, limit, window);
      NeverMoreThanTheLimit(history[..|history| - 1], key, from, limit, window);
    }
  }

  // ----- the limiter in its own form -----

  class SlidingWindowLimiter {
    var hits: map<string, seq<int>>
    const limit: nat
    const windowMs: int
    const maxKeys: nat
    ghost var history: seq<Hit>
    ghost var clock: int

    ghost predicate Valid()
      reads this
    {
      && windowMs > 0
      && (forall key :: Agrees(hits, history, key, clock, windowMs))
      && (forall i :: 0 <= i < |history| ==> history[i].at <= clock)
      && Faithful(history, limit, windowMs)
    }

    constructor (limit: nat, windowMs: int, maxKeys: nat)
      requires windowMs > 0
      ensures Valid() && history == [] && this.limit == limit && this.windowMs == windowMs && this.maxKeys == maxKeys
    {
      this.limit, this.windowMs, this.maxKeys := limit, windowMs, maxKeys;
      hits, history, clock := map[], [], 0;
    }

    /** The sweep over all keys, deleting and rewriting entries in place. */
    method Sweep(now: int)
      modifies this`hits
      ensures hits == Swept(old(hits), now, windowMs)
    {
      var todo := hits.Keys;
      while todo != {}
        invariant todo <= hits.Keys <= old(hits).Keys
        invariant forall k :: k in todo ==> hits[k] == old(hits)[k]
        invariant forall k :: k in old(hits) && k !in todo ==>
                    if Alive(old(hits)[k], now, windowMs) == [] then k !in hits
                    else k in hits && hits[k] == Alive(old(hits)[k], now, windowMs)
        decreases todo
      {
        var k :| k in todo;
        var alive := Alive(hits[k], now, windowMs);
        if |alive| == 0 {
          hits := hits - {k};
        } else {
          hits := hits[k := alive];
        }
        todo := todo - {k};
      }
    }

    /** take: the map it leaves, and the answer, which is the full history's. */
    method Take(key: string, now: int) returns (ok: bool)
      requires Valid() && clock <= now
      modifies this
      ensures Valid() && clock == now
      ensures var swept := if |old(hits)| > maxKeys then Swept(old(hits), now, windowMs) else old(hits);
              hits == Struck(swept, key, now, windowMs)
      ensures ok <==> Admits(old(history), key, now, limit, windowMs)
      ensures history == old(history) + [Hit(key, now, ok)]
    {
      if |hits| > maxKeys {
        Sweep(now);
      }
      StillAgrees(old(hits), hits, clock, now);
      ghost var swept := hits;
      var recent := Alive(Lookup(hits, key), now, windowMs);
      assert Agrees(swept, history, key, now, windowMs);
      assert recent == Alive(TimesOf(history, key), now, windowMs);
      AliveConcat(TimesOf(history, key), [now], now, windowMs);
      AliveOne(now, now, windowMs);
      hits := hits[key := recent + [now]];
      ok := |recent + [now]| <= limit;
      history := history + [Hit(key, now, ok)];
      clock := now;
      assert hits == Struck(swept, key, now, windowMs);
      AllTakesAgree(swept, old(history), key, now, ok, windowMs);
      FaithfulAppend(old(history), Hit(key, now, ok), limit, windowMs);
    }

    lemma StillAgrees(before: map<string, seq<int>>, after: map<string, seq<int>>, clock: int, now: int)
      requires clock <= now && (forall key :: Agrees(before, history, key, clock, windowMs))
      requires after == before || after == Swept(before, now, windowMs)
      ensures forall key :: Agrees(after, history, key, now, windowMs)
    {
      forall key
        ensures Agrees(after, history, key, now, windowMs)
      {
        AgreesLater(before, history, key, clock, now, windowMs);
        SweepAgrees(before, history, now, windowMs, key);
      }
    }
  }

  /** One more hit on a key, after its dead ones are dropped. */
  function Struck(hits: map<string, seq<int>>, key: string, now: int, window: int): map<string, seq<int>> {
    hits[key := Alive(Lookup(hits, key), now, window) + [now]]
  }

  lemma AllTakesAgree(hits: map<string, seq<int>>, history: seq<Hit>, key: string, now: int, ok: bool, window: int)
    requires forall k :: Agrees(hits, history, k, now, window)
    ensures forall k :: Agrees(Struck(hits, key, now, window), history + [Hit(key, now, ok)], k, now, window)
  {
    forall k
      ensures Agrees(Struck(hits, key, now, window), history + [Hit(key, now, ok)], k, now, window)
    {
      assert Agrees(hits, history, k, now, window);
      TakeAgrees(hits, history, key, now, ok, window, k);
    }
  }

  lemma TakeAgrees(hits: map<string, seq<int>>, history: seq<Hit>, key: string, now: int, ok: bool, window: int,
      k: string)
    requires Agrees(hits, history, k, now, window)
    ensures Agrees(Struck(hits, key, now, window), history + [Hit(key, now, ok)], k, now, window)
  {
    var hits' := Struck(hits, key, now, window);
    TimesOfAppend(history, Hit(key, now, ok), k);
    forall later | now <= later
      ensures Alive(Lookup(hits', k), later, window) == Alive(TimesOf(history + [Hit(key, now, ok)], k), later, window)
    {
      assert Alive(Lookup(hits, k), later, window) == Alive(TimesOf(history, k), later, window);
      if k == key {
        PruningIsUnobservable(Lookup(hits, key), now, later, window);
        AliveConcat(Alive(Lookup(hits, key), now, window), [now], later, window);
        AliveConcat(TimesOf(history, key), [now], later, window);
      } else {
        assert TimesOf(history, k) + [] == TimesOf(history, k);
      }
    }
  }

  // ----- the limit, counted on the hits themselves -----

  /** The hits of a key made less than a window ago. */
  ghost function Recent(history: seq<Hit>, key: string, now: int, window: int): (hits: set<int>) {
    set i | 0 <= i < |history| && history[i].key == key && now < history[i].at + window
  }

  lemma {:induction false} AliveCounts(history: seq<Hit>, key: string, now: int, window: int)
    ensures |Alive(TimesOf(history, key), now, window)| == |Recent(history, key, now, window)|
  {
    if history != [] {
      var last := |history| - 1;
      var rest, h := history[..last], history[last];
      AliveCounts(rest, key, now, window);
      AliveConcat(TimesOf(rest, key), [h.at], now, window);
      AliveOne(h.at, now, window);
      assert TimesOf(rest, key) + [] == TimesOf(rest, key);
      var before, all := Recent(rest, key, now, window), Recent(history, key, now, window);
      if h.key == key && now < h.at + window {
        assert all == before + {last};
      } else {
        assert all == before;
      }
    } else {
      assert Recent(history, key, now, window) == {};
    }
  }

  /** A hit is accepted exactly when fewer than `limit` hits of its key, accepted or
      refused, were made less than a window before it: hit number `limit` of a window
      passes and hit `limit + 1` does not. */
  lemma AdmitsExactlyBelowTheLimit(history: seq<Hit>, key: string, now: int, limit: nat, window: int)
    requires 0 < window
    ensures Admits(history, key, now, limit, window) <==> |Recent(history, key, now, window)| < limit
  {
    AliveConcat(TimesOf(history, key), [now], now, window);
    AliveOne(now, now, window);
    AliveCounts(history, key, now, window);
  }

  /** The accepted hits of a key in one half-open window. */
  ghost function AcceptedFrom(history: seq<Hit>, key: string, from: int, window: int): (hits: set<int>) {
    set i | 0 <= i < |history| && history[i].key == key && history[i].accepted && from <= history[i].at < from + window
  }

  lemma {:induction false} CountIsCardinality(history: seq<Hit>, key: string, from: int, window: int)
    ensures CountAccepted(history, key, from, window) == |AcceptedFrom(history, key, from, window)|
  {
    if history != [] {
      var last := |history| - 1;
      CountIsCardinality(history[..last], key, from, window);
      var before, all := AcceptedFrom(history[..last], key, from, window), AcceptedFrom(history, key, from, window);
      assert all == if last in all then before + {last} else before;
    } else {
      assert AcceptedFrom(history, key, from, window) == {};
    }
  }

  /** The bound on the hits themselves. */
  lemma AtMostTheLimitPerWindow(history: seq<Hit>, key: string, from: int, limit: nat, window: int)
    requires Faithful(history, limit, window)
    ensures |AcceptedFrom(history, key, from, window)| <= limit
  {
    NeverMoreThanTheLimit(history, key, from, limit, window);
    CountIsCardinality(history, key, from, window);
  }
}

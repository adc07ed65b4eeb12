/**
 * Sends of one intent writer that overlap: `key ??= await uuid()` of
 * apps/mobile/src/lib/intentWrite.ts looks at the key, waits, and then assigns.
 * `SubmitIntent` takes the sends of a writer one at a time; here any number of them
 * share its key, and every await is a point where the others may go on.
 */
module OverlappingSends {
  import opened Prelude
  import S = SubmitIntent

  type Sid = nat
  type Key = S.Key

  /** `Minting`: it saw no key and waits for its own.  `Sent`: its request is under way. */
  datatype Stage = Minting | Sent(key: Key) | Settled(key: Key)

  datatype Writer = Writer(key: Option<Key>, minted: nat, sends: map<Sid, Stage>)

  datatype Event =
    | Start(sid: Sid)
    | Minted(sid: Sid)
    | Answer(sid: Sid, verdict: S.Verdict)

  const INIT := Writer(None, 0, map[])

  predicate IsMinting(w: Writer, sid: Sid) {
    sid in w.sends && w.sends[sid].Minting?
  }

  predicate IsSent(w: Writer, sid: Sid) {
    sid in w.sends && w.sends[sid].Sent?
  }

  /** The assignment does not look again: it replaces whatever was pinned meanwhile. */
  function Next(w: Writer, e: Event): Writer {
    match e
    case Start(sid) =>
      if sid in w.sends then w
      else w.(sends := w.sends[sid := if w.key.Some? then Sent(w.key.value) else Minting])
    case Minted(sid) =>
      if !IsMinting(w, sid) then w
      else Writer(Some(w.minted), w.minted + 1, w.sends[sid := Sent(w.minted)])
    case Answer(sid, verdict) =>
      if !IsSent(w, sid) then w
      else w.(key := S.KeyAfter(w.key, verdict), sends := w.sends[sid := Settled(w.sends[sid].key)])
  }

  function Run(w: Writer, events: seq<Event>): Writer
    decreases |events|
  {
    if events == [] then w else Run(Next(w, events[0]), events[1..])
  }

  function Minters(w: Writer): set<Sid> {
    set sid | sid in w.sends && w.sends[sid].Minting?
  }

  /** Some send carried this key. */
  ghost predicate Used(w: Writer, k: Key) {
    exists sid :: sid in w.sends && !w.sends[sid].Minting? && w.sends[sid].key == k
  }

  /** The sends carry exactly the minted keys, and a pinned key is one of them. */
  ghost predicate Inv(w: Writer) {
    && (forall k: nat :: Used(w, k) <==> k < w.minted)
    && (w.key.Some? ==> w.key.value < w.minted)
  }

  lemma UsedAfter(w: Writer, e: Event, k: Key)
    requires Inv(w)
    ensures Used(Next(w, e), k) <==> Used(w, k) || (e.Minted? && IsMinting(w, e.sid) && k == w.minted)
  {
    var w' := Next(w, e);
    if Used(w, k) {
      var sid :| sid in w.sends && !w.sends[sid].Minting? && w.sends[sid].key == k;
      assert sid in w'.sends && !w'.sends[sid].Minting? && w'.sends[sid].key == k;
    } else if e.Minted? && IsMinting(w, e.sid) && k == w.minted {
      assert w'.sends[e.sid].key == k;
    }
  }

  lemma NextKeepsInv(w: Writer, e: Event)
    requires Inv(w)
    ensures Inv(Next(w, e))
  {
    forall k: nat
      ensures Used(Next(w, e), k) <==> k < Next(w, e).minted
    {
      UsedAfter(w, e, k);
    }
  }

  lemma {:induction false} RunKeepsInv(w: Writer, events: seq<Event>)
    requires Inv(w)
    ensures Inv(Run(w, events))
    decreases |events|
  {
    if events == [] {
    } else {
      NextKeepsInv(w, events[0]);
      RunKeepsInv(Next(w, events[0]), events[1..]);
    }
  }

  // ----- one key for one intent -----

  /** No definite answer came yet: all these sends are attempts at one intent. */
  predicate SameIntent(events: seq<Event>) {
    forall e :: e in events && e.Answer? ==> e.verdict.Ambiguous?
  }

  /** A send starts between the look of another one at the key and its assignment. */
  predicate Overlaps(w: Writer, e: Event) {
    e.Start? && e.sid !in w.sends && Minters(w) != {}
  }

  predicate EverOverlaps(w: Writer, events: seq<Event>)
    decreases |events|
  {
    events != [] && (Overlaps(w, events[0]) || EverOverlaps(Next(w, events[0]), events[1..]))
  }

  /** The keys that were minted or will be. */
  function Lookers(w: Writer): nat {
    |Minters(w)| + w.minted
  }

  /** Until the first definite answer a writer without a key has minted none. */
  predicate Pinned(w: Writer) {
    w.key.None? ==> w.minted == 0
  }

  /** The event makes a send look and find no key. */
  predicate Looks(w: Writer, e: Event) {
    e.Start? && e.sid !in w.sends && w.key.None?
  }

  lemma MintersAre(w: Writer, e: Event)
    ensures Minters(Next(w, e)) ==
            if Looks(w, e) then Minters(w) + {e.sid}
            else if e.Minted? && IsMinting(w, e.sid) then Minters(w) - {e.sid}
            else Minters(w)
  {
  }

  lemma LookersStep(w: Writer, e: Event)
    requires Pinned(w) && (e.Answer? ==> e.verdict.Ambiguous?)
    ensures Pinned(Next(w, e))
    ensures Lookers(Next(w, e)) == Lookers(w) + if Looks(w, e) then 1 else 0
  {
    MintersAre(w, e);
    if Looks(w, e) {
      assert e.sid !in Minters(w);
    } else if e.Minted? && IsMinting(w, e.sid) {
      assert e.sid in Minters(w);
    }
  }

  lemma {:induction false} LookersRun(w: Writer, events: seq<Event>)
    requires Pinned(w) && SameIntent(events) && (w.key.Some? ==> w.minted > 0)
    ensures Lookers(Run(w, events)) >= 2 <==> Lookers(w) >= 2 || EverOverlaps(w, events)
    decreases |events|
  {
    if events == [] {
    } else {
      LookersStep(w, events[0]);
      LookersRun(Next(w, events[0]), events[1..]);
    }
  }

  /** All sends that got a key got the same one. */
  ghost predicate OneKey(w: Writer) {
    forall a, b :: Used(w, a) && Used(w, b) ==> a == b
  }

  /** One key serves all the attempts at an intent exactly when none of them started
      between the look of another one at the key and its assignment. */
  lemma OneKeyExactlyWithoutOverlap(events: seq<Event>)
    requires SameIntent(events) && Minters(Run(INIT, events)) == {}
    ensures OneKey(Run(INIT, events)) <==> !EverOverlaps(INIT, events)
  {
    assert Minters(INIT) == {};
    RunKeepsInv(INIT, events);
    LookersRun(INIT, events);
    var w := Run(INIT, events);
    if w.minted >= 2 {
      assert Used(w, 0) && Used(w, 1);
    }
  }

  /** The input: a double tap.  Both sends see no key, and their requests carry two, so the
      server takes them for two intents. */
  lemma DoubleTapSendsTwoKeys()
    ensures var w := Run(INIT, [Start(0), Start(1), Minted(0), Minted(1)]);
            w.sends[0] == Sent(0) && w.sends[1] == Sent(1) && w.key == Some(1)
  {
    var es := [Start(0), Start(1), Minted(0), Minted(1)];
    assert es[1..] == [Start(1), Minted(0), Minted(1)];
    assert es[1..][1..] == [Minted(0), Minted(1)];
    assert es[1..][1..][1..] == [Minted(1)];
  }

  // ----- how long a key stays pinned -----

  /** The events that take a pinned key away from its intent: a definite answer to any
      send, whatever key it carried, and an assignment of a send that looked earlier. */
  predicate Unpins(w: Writer, e: Event) {
    (e.Answer? && IsSent(w, e.sid) && !e.verdict.Ambiguous?) || (e.Minted? && IsMinting(w, e.sid))
  }

  predicate EverUnpins(w: Writer, events: seq<Event>)
    decreases |events|
  {
    events != [] && (Unpins(w, events[0]) || EverUnpins(Next(w, events[0]), events[1..]))
  }

  lemma {:induction false} NeverPinnedAgain(w: Writer, events: seq<Event>, k: Key)
    requires k < w.minted && w.key != Some(k)
    ensures Run(w, events).key != Some(k)
    decreases |events|
  {
    if events == [] {
    } else {
      NeverPinnedAgain(Next(w, events[0]), events[1..], k);
    }
  }

  /** A retry finds the key of its intent still pinned exactly when no such event came in
      between; once lost, a key is never pinned again. */
  lemma {:induction false} RetryFindsItsKeyExactly(w: Writer, events: seq<Event>, k: Key)
    requires Inv(w) && w.key == Some(k)
    ensures Run(w, events).key == Some(k) <==> !EverUnpins(w, events)
    decreases |events|
  {
    if events == [] {
    } else {
      NextKeepsInv(w, events[0]);
      if Unpins(w, events[0]) {
        NeverPinnedAgain(Next(w, events[0]), events[1..], k);
      } else {
        RetryFindsItsKeyExactly(Next(w, events[0]), events[1..], k);
      }
    }
  }

  // ----- what every event does, and nothing else -----

  /** A new send takes the pinned key or, seeing none, waits for a new one.  A minted key is
      fresh: no send carried it, and it becomes the send's and the pinned one.  An ambiguous
      answer leaves the key pinned; an accepted or refused one unpins whatever is pinned.
      All other sends stay as they are. */
  lemma {:induction false} EventsAreDecided(events: seq<Event>, e: Event)
    ensures var w := Run(INIT, events); var w' := Next(w, e);
            && (forall sid :: sid != e.sid ==> (sid in w'.sends <==> sid in w.sends))
            && (forall sid :: sid in w.sends && sid != e.sid ==> w'.sends[sid] == w.sends[sid])
            && match e
               case Start(sid) =>
                 && sid in w'.sends && w'.key == w.key
                 && w'.sends[sid] == (if sid in w.sends then w.sends[sid]
                                      else if w.key == None then Minting
                                      else Sent(w.key.value))
               case Minted(sid) =>
                 if sid in w.sends && w.sends[sid] == Minting
                 then sid in w'.sends && w'.sends[sid].Sent? && w'.key == Some(w'.sends[sid].key)
                      && !Used(w, w'.sends[sid].key)
                 else w' == w
               case Answer(sid, verdict) =>
                 if sid in w.sends && w.sends[sid].Sent?
                 then sid in w'.sends && w'.sends[sid] == Settled(w.sends[sid].key)
                      && (verdict.Ambiguous? ==> w'.key == w.key)
                      && (verdict.Accepted? || verdict.Refused? ==> w'.key == None)
                 else w' == w
  {
    RunKeepsInv(INIT, events);
  }
}

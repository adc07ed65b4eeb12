/**
 * The work window: apps/api/src/lib/time.ts, its device twin
 * apps/mobile/src/location/window.native.ts, and `nextWindowOpen` of
 * apps/api/src/jobs/release-held-notifications.ts.  Instants are milliseconds since the
 * epoch; India Standard Time is five and a half hours ahead all year.
 */
module WorkWindow {
  const MINUTE_MS: int := 60_000
  const DAY_MS: int := 86_400_000
  const IST_OFFSET_MINUTES: int := 330
  const IST_OFFSET_MS: int := IST_OFFSET_MINUTES * MINUTE_MS

  datatype Window = Window(start: string, end: string)

  datatype WallClock = WallClock(weekday: int, minutes: int)

  // ----- the clock -----

  function IstDay(t: int): int { (t + IST_OFFSET_MS) / DAY_MS }

  /** Sunday is 0; the epoch fell on a Thursday. */
  function Weekday(day: int): int { (day + 4) % 7 }

  function IstWallClock(t: int): WallClock {
    WallClock(Weekday(IstDay(t)), (t + IST_OFFSET_MS) % DAY_MS / MINUTE_MS)
  }

  function DigitOf(c: char): int { c as int - '0' as int }

  /** What the configuration accepts: 00:00 to 23:59. */
  predicate HHMM(s: string) {
    && |s| == 5 && s[2] == ':'
    && (forall i :: 0 <= i < 5 && i != 2 ==> '0' <= s[i] <= '9')
    && 10 * DigitOf(s[0]) + DigitOf(s[1]) < 24 && DigitOf(s[3]) < 6
  }

  function ParseHHMM(s: string): (m: int)
    requires HHMM(s)
    ensures 0 <= m < 24 * 60
  {
    (10 * DigitOf(s[0]) + DigitOf(s[1])) * 60 + 10 * DigitOf(s[3]) + DigitOf(s[4])
  }

  /** The configuration also wants the start before the end. */
  predicate Configured(w: Window) {
    HHMM(w.start) && HHMM(w.end) && ParseHHMM(w.start) < ParseHHMM(w.end)
  }

  predicate InWindow(t: int, w: Window)
    requires HHMM(w.start) && HHMM(w.end)
  {
    var clock := IstWallClock(t);
    clock.weekday != 0 && ParseHHMM(w.start) <= clock.minutes < ParseHHMM(w.end)
  }

  // ----- when it opens -----

  /** The instant the window opens on a day. */
  function OpeningOf(day: int, startMinutes: int): int {
    day * DAY_MS + startMinutes * MINUTE_MS - IST_OFFSET_MS
  }

  predicate OpensOn(day: int) { Weekday(day) != 0 }

  lemma OpeningIsOnItsDay(day: int, startMinutes: int, later: int)
    requires 0 <= startMinutes < 24 * 60 && 0 <= later < MINUTE_MS
    ensures IstDay(OpeningOf(day, startMinutes) + later) == day
    ensures IstWallClock(OpeningOf(day, startMinutes) + later) == WallClock(Weekday(day), startMinutes)
  {
    var t := OpeningOf(day, startMinutes) + later + IST_OFFSET_MS;
    assert t == day * DAY_MS + (startMinutes * MINUTE_MS + later);
    assert 0 <= startMinutes * MINUTE_MS + later < DAY_MS;
    assert t / DAY_MS == day && t % DAY_MS == startMinutes * MINUTE_MS + later;
  }

  /** A day whose opening is over, or that has none. */
  predicate Passed(day: int, now: int, startMinutes: int) {
    OpeningOf(day, startMinutes) <= now || !OpensOn(day)
  }

  /** Tomorrow's opening is ahead; if tomorrow is a Sunday, the day after is not. */
  lemma OpensWithinTwoDays(now: int, startMinutes: int)
    requires 0 <= startMinutes < 24 * 60
    ensures now < OpeningOf(IstDay(now) + 1, startMinutes) < OpeningOf(IstDay(now) + 2, startMinutes)
    ensures !Passed(IstDay(now) + 1, now, startMinutes) || !Passed(IstDay(now) + 2, now, startMinutes)
  {
  }

  /** nextWindowOpen: the loop over today and the next eight days, and its throw, which
      is never reached. */
  method NextWindowOpen(now: int, w: Window) returns (open: int, ghost day: int)
    requires HHMM(w.start)
    ensures open == OpeningOf(day, ParseHHMM(w.start)) && OpensOn(day) && now < open
    ensures forall d :: OpensOn(d) && now < OpeningOf(d, ParseHHMM(w.start)) ==>
        open <= OpeningOf(d, ParseHHMM(w.start))
    ensures open <= now + 2 * DAY_MS
  {
    var startMinutes := ParseHHMM(w.start);
    var istMidnight := (now + IST_OFFSET_MS) / DAY_MS * DAY_MS;
    ghost var today := IstDay(now);
    OpensWithinTwoDays(now, startMinutes);
    for addDays := 0 to 9
      invariant addDays <= 2
      invariant forall d :: today <= d < today + addDays ==> Passed(d, now, startMinutes)
    {
      var candidate := istMidnight + addDays * DAY_MS + startMinutes * MINUTE_MS - IST_OFFSET_MS;
      assert candidate == OpeningOf(today + addDays, startMinutes);
      OpeningIsOnItsDay(today + addDays, startMinutes, 0);
      if candidate <= now {
        assert Passed(today + addDays, now, startMinutes);
        continue;
      }
      if IstWallClock(candidate).weekday == 0 {
        assert Passed(today + addDays, now, startMinutes);
        continue;
      }
      day := today + addDays;
      LeastOpening(now, startMinutes, addDays);
      return candidate, day;
    }
    assert false;
  }

  lemma LeastOpening(now: int, startMinutes: int, k: nat)
    requires 0 <= startMinutes < 24 * 60 && k <= 2
    requires forall d :: IstDay(now) <= d < IstDay(now) + k ==> Passed(d, now, startMinutes)
    requires now < OpeningOf(IstDay(now) + k, startMinutes)
    ensures forall d :: OpensOn(d) && now < OpeningOf(d, startMinutes) ==>
        OpeningOf(IstDay(now) + k, startMinutes) <= OpeningOf(d, startMinutes)
    ensures OpeningOf(IstDay(now) + k, startMinutes) <= now + 2 * DAY_MS
  {
    var today := IstDay(now);
    forall d | OpensOn(d) && now < OpeningOf(d, startMinutes)
      ensures today + k <= d
    {
      assert !Passed(d, now, startMinutes);
    }
    if k >= 1 {
      assert Passed(today, now, startMinutes);
    }
    if k == 2 {
      assert Passed(today + 1, now, startMinutes);
    }
  }

  // ----- the theorems -----

  /** The opening instant and one second later are inside the window. */
  lemma OpeningsAreInside(day: int, w: Window)
    requires Configured(w) && OpensOn(day)
    ensures InWindow(OpeningOf(day, ParseHHMM(w.start)), w)
    ensures InWindow(OpeningOf(day, ParseHHMM(w.start)) + 1000, w)
  {
    OpeningIsOnItsDay(day, ParseHHMM(w.start), 0);
    OpeningIsOnItsDay(day, ParseHHMM(w.start), 1000);
  }

  /** The window is exactly the instants from an opening up to the closing of its day. */
  lemma InsideMeansAfterAnOpening(t: int, w: Window)
    requires Configured(w)
    ensures InWindow(t, w) <==>
            OpensOn(IstDay(t))
            && OpeningOf(IstDay(t), ParseHHMM(w.start)) <= t < OpeningOf(IstDay(t), ParseHHMM(w.end))
  {
    var m := (t + IST_OFFSET_MS) % DAY_MS;
    assert t + IST_OFFSET_MS == IstDay(t) * DAY_MS + m;
  }

  lemma NoMidnightBetween(now: int, t: int, startMinutes: int)
    requires 0 <= startMinutes < 24 * 60
    ensures OpeningOf(IstDay(t), startMinutes) <= now <= t ==> IstDay(now) == IstDay(t)
  {
  }

  /** From outside the window, no instant before the next opening is inside it: a held
      notification is released at the first moment it may be. */
  lemma NothingOpensEarlier(now: int, w: Window, open: int, t: int)
    requires Configured(w) && !InWindow(now, w)
    requires forall d :: OpensOn(d) && now < OpeningOf(d, ParseHHMM(w.start)) ==>
        open <= OpeningOf(d, ParseHHMM(w.start))
    requires now <= t < open
    ensures !InWindow(t, w)
  {
    InsideMeansAfterAnOpening(t, w);
    InsideMeansAfterAnOpening(now, w);
    NoMidnightBetween(now, t, ParseHHMM(w.start));
  }

  // ----- the window by the calendar and the clock -----

  /** The text of a time of day, which the configuration accepts. */
  function ClockText(h: int, m: int): (s: string)
    requires 0 <= h < 24 && 0 <= m < 60
    ensures HHMM(s)
  {
    [('0' as int + h / 10) as char, ('0' as int + h % 10) as char, ':',
     ('0' as int + m / 10) as char, ('0' as int + m % 10) as char]
  }

  lemma ClockTextsAreRead(h: int, m: int)
    requires 0 <= h < 24 && 0 <= m < 60
    ensures ParseHHMM(ClockText(h, m)) == 60 * h + m
  {
  }

  lemma ReadAsTime(s: string) returns (h: int, m: int)
    requires HHMM(s)
    ensures 0 <= h < 24 && 0 <= m < 60 && s == ClockText(h, m)
  {
    h, m := 10 * DigitOf(s[0]) + DigitOf(s[1]), 10 * DigitOf(s[3]) + DigitOf(s[4]);
    assert 0 <= DigitOf(s[0]) <= 9 && 0 <= DigitOf(s[1]) <= 9 && 0 <= DigitOf(s[3]) <= 9 && 0 <= DigitOf(s[4]) <= 9;
  }

  /** The configuration accepts the texts of the times of a day, from 00:00 to 23:59, and
      nothing else. */
  lemma OnlyClockTextsAreAccepted(s: string)
    ensures HHMM(s) <==> exists h, m :: 0 <= h < 24 && 0 <= m < 60 && s == ClockText(h, m)
  {
    if HHMM(s) {
      var h, m := ReadAsTime(s);
      assert s == ClockText(h, m);
    }
  }

  lemma DaySplits(day: int, rest: int)
    requires 0 <= rest < DAY_MS
    ensures IstDay(day * DAY_MS + rest - IST_OFFSET_MS) == day
    ensures IstWallClock(day * DAY_MS + rest - IST_OFFSET_MS) == WallClock(Weekday(day), rest / MINUTE_MS)
  {
    var t := day * DAY_MS + rest;
    assert t / DAY_MS == day && t % DAY_MS == rest;
  }

  lemma MinutesSplit(h: int, m: int, ms: int)
    requires 0 <= h < 24 && 0 <= m < 60 && 0 <= ms < 60_000
    ensures 0 <= 3_600_000 * h + 60_000 * m + ms < DAY_MS
    ensures (3_600_000 * h + 60_000 * m + ms) / MINUTE_MS == 60 * h + m
  {
  }

  lemma SundayIsZero(week: int, day: int)
    requires 0 <= day < 7
    ensures Weekday(3 + 7 * week + day) == day
  {
  }

  /** Midnight in India at the start of 4 January 1970, a Sunday, is 239 400 000 ms after
      the epoch.  Counted from there in weeks, days, hours and minutes, an instant is in
      the window exactly on Monday to Saturday, from the first minute of the start to the
      last before the end. */
  lemma InsideIsDecided(week: int, day: int, h: int, m: int, ms: int, fromH: int, fromM: int, toH: int, toM: int)
    requires 0 <= day < 7 && 0 <= h < 24 && 0 <= m < 60 && 0 <= ms < 60_000
    requires 0 <= fromH < 24 && 0 <= fromM < 60 && 0 <= toH < 24 && 0 <= toM < 60
    ensures var t := 239_400_000 + 604_800_000 * week + 86_400_000 * day + 3_600_000 * h + 60_000 * m + ms;
            InWindow(t, Window(ClockText(fromH, fromM), ClockText(toH, toM)))
            <==> 1 <= day <= 6 && 60 * fromH + fromM <= 60 * h + m < 60 * toH + toM
  {
    ClockTextsAreRead(fromH, fromM);
    ClockTextsAreRead(toH, toM);
    MinutesSplit(h, m, ms);
    SundayIsZero(week, day);
    DaySplits(3 + 7 * week + day, 3_600_000 * h + 60_000 * m + ms);
  }

  /** A Monday and the Sunday before it: 08:59, 09:00, 18:59 and 19:00 IST on
      14 September 2026, then 10:00 on the 13th and 12:29 on the 14th. */
  lemma NineToSeven()
    ensures Configured(Window("09:00", "19:00"))
    ensures !InWindow(1_789_356_540_000, Window("09:00", "19:00"))
    ensures InWindow(1_789_356_600_000, Window("09:00", "19:00"))
    ensures InWindow(1_789_392_540_000, Window("09:00", "19:00"))
    ensures !InWindow(1_789_392_600_000, Window("09:00", "19:00"))
    ensures !InWindow(1_789_273_800_000, Window("09:00", "19:00"))
    ensures InWindow(1_789_369_140_000, Window("09:00", "19:00"))
  {
  }
}

/**
 * The leaves of canonical JSON: strings as JSON.stringify writes them (section 7 of
 * RFC 8259) and numbers as ECMAScript's Number::toString writes them, each with the
 * reader that undoes it.  Text is a sequence of UTF-16 code units, as in JavaScript.
 */
module JsonText {
  import opened Prelude
  import opened Decimal

  type CodeUnit = u: nat | u < 0x10000
  type Text = seq<CodeUnit>

  const QUOTE: CodeUnit := 0x22
  const BACKSLASH: CodeUnit := 0x5C
  const COMMA: CodeUnit := 0x2C
  const COLON: CodeUnit := 0x3A
  const DOT: CodeUnit := 0x2E
  const MINUS: CodeUnit := 0x2D
  const PLUS: CodeUnit := 0x2B
  const SMALL_E: CodeUnit := 0x65
  const SMALL_U: CodeUnit := 0x75
  const ZERO: CodeUnit := 0x30

  // ----- strings -----

  predicate High(u: CodeUnit) { 0xD800 <= u < 0xDC00 }
  predicate Low(u: CodeUnit) { 0xDC00 <= u < 0xE000 }

  function HexDigit(d: nat): CodeUnit
    requires d < 16
  {
    if d < 10 then 0x30 + d else 0x61 + d - 10
  }

  function HexValue(u: CodeUnit): Option<nat> {
    if 0x30 <= u < 0x3A then Some(u - 0x30)
    else if 0x61 <= u < 0x67 then Some(u - 0x61 + 10)
    else if 0x41 <= u < 0x47 then Some(u - 0x41 + 10)
    else None
  }

  function UnicodeEscape(u: CodeUnit): Text {
    [BACKSLASH, SMALL_U, HexDigit(u / 4096), HexDigit(u / 256 % 16), HexDigit(u / 16 % 16), HexDigit(u % 16)]
  }

  /** The letter of a two-character escape. */
  function ShortEscape(u: CodeUnit): Option<CodeUnit> {
    if u == 0x08 then Some(0x62)
    else if u == 0x09 then Some(0x74)
    else if u == 0x0A then Some(0x6E)
    else if u == 0x0C then Some(0x66)
    else if u == 0x0D then Some(0x72)
    else if u == QUOTE then Some(QUOTE)
    else if u == BACKSLASH then Some(BACKSLASH)
    else None
  }

  function EscapeUnit(u: CodeUnit): Text {
    if ShortEscape(u).Some? then [BACKSLASH, ShortEscape(u).value]
    else if u < 0x20 || High(u) || Low(u) then UnicodeEscape(u)
    else [u]
  }

  /** A surrogate pair stays as it is; a lone surrogate is escaped. */
  function Escape(s: Text): Text {
    if s == [] then []
    else if |s| > 1 && High(s[0]) && Low(s[1]) then s[..2] + Escape(s[2..])
    else EscapeUnit(s[0]) + Escape(s[1..])
  }

  /** JSON.stringify of a string. */
  function Quote(s: Text): Text {
    [QUOTE] + Escape(s) + [QUOTE]
  }

  function Unshort(letter: CodeUnit): Option<CodeUnit> {
    if letter == 0x62 then Some(0x08)
    else if letter == 0x74 then Some(0x09)
    else if letter == 0x6E then Some(0x0A)
    else if letter == 0x66 then Some(0x0C)
    else if letter == 0x72 then Some(0x0D)
    else if letter == QUOTE || letter == BACKSLASH || letter == 0x2F then Some(letter)
    else None
  }

  /** One character of a JSON string: its code unit and how much text it took. */
  function ReadUnit(t: Text): (r: Option<(CodeUnit, nat)>)
    requires t != [] && t[0] != QUOTE
    ensures r.Some? ==> 0 < r.value.1 <= |t|
  {
    if t[0] < 0x20 then None
    else if t[0] != BACKSLASH then Some((t[0], 1))
    else if |t| < 2 then None
    else if t[1] != SMALL_U then
      if Unshort(t[1]).Some? then Some((Unshort(t[1]).value, 2)) else None
    else if |t| < 6 then None
    else
      var a, b, c, d := HexValue(t[2]), HexValue(t[3]), HexValue(t[4]), HexValue(t[5]);
      if a.Some? && b.Some? && c.Some? && d.Some? && a.value < 16 && b.value < 16 && c.value < 16 && d.value < 16
      then Some((4096 * a.value + 256 * b.value + 16 * c.value + d.value, 6))
      else None
  }

  /** The rest of a string after its opening quote, and what follows the closing one. */
  function ReadString(t: Text): (r: Option<(Text, Text)>)
    ensures r.Some? ==> |r.value.1| < |t|
    decreases |t|
  {
    if t == [] then None
    else if t[0] == QUOTE then Some(([], t[1..]))
    else
      var u := ReadUnit(t);
      if u.None? then None
      else
        var r := ReadString(t[u.value.1..]);
        if r.None? then None else Some(([u.value.0] + r.value.0, r.value.1))
  }

  lemma HexRoundTrip(d: nat)
    requires d < 16
    ensures HexValue(HexDigit(d)) == Some(d)
  {
  }

  /** The figures, and the letters a to f in either case. */
  lemma HexIsRead(u: CodeUnit, d: nat)
    ensures HexValue(u) == Some(d) <==>
              (d < 10 && u == 48 + d) || (10 <= d < 16 && (u == 87 + d || u == 55 + d))
  {
  }

  lemma FourHexDigits(u: CodeUnit)
    ensures u == 4096 * (u / 4096) + 256 * (u / 256 % 16) + 16 * (u / 16 % 16) + u % 16
  {
    assert u / 16 / 16 == u / 256 && u / 256 / 16 == u / 4096;
  }

  lemma HexReadsBack(a: nat, b: nat, c: nat, d: nat, rest: Text)
    requires a < 16 && b < 16 && c < 16 && d < 16
    ensures ReadUnit([BACKSLASH, SMALL_U, HexDigit(a), HexDigit(b), HexDigit(c), HexDigit(d)] + rest)
            == Some((4096 * a + 256 * b + 16 * c + d, 6))
  {
    HexRoundTrip(a);
    HexRoundTrip(b);
    HexRoundTrip(c);
    HexRoundTrip(d);
  }

  lemma UnicodeReadsBack(u: CodeUnit, rest: Text)
    ensures ReadUnit(UnicodeEscape(u) + rest) == Some((u, 6))
  {
    FourHexDigits(u);
    HexReadsBack(u / 4096, u / 256 % 16, u / 16 % 16, u % 16, rest);
  }

  lemma ShortReadsBack(u: CodeUnit, rest: Text)
    requires ShortEscape(u).Some?
    ensures ReadUnit([BACKSLASH, ShortEscape(u).value] + rest) == Some((u, 2))
  {
  }

  lemma RawUnitReadsBack(u: CodeUnit, rest: Text)
    requires u >= 0x20 && u != QUOTE && u != BACKSLASH
    ensures ReadUnit([u] + rest) == Some((u, 1))
  {
  }

  lemma UnitReadsBack(u: CodeUnit, rest: Text)
    ensures EscapeUnit(u) != [] && EscapeUnit(u)[0] != QUOTE
    ensures ReadUnit(EscapeUnit(u) + rest) == Some((u, |EscapeUnit(u)|))
  {
    if ShortEscape(u).Some? {
      ShortReadsBack(u, rest);
    } else if u < 0x20 || High(u) || Low(u) {
      UnicodeReadsBack(u, rest);
    } else {
      RawUnitReadsBack(u, rest);
    }
  }

  /** One more character in front of a string that reads back. */
  lemma ReadOneMore(front: Text, u: CodeUnit, tail: Text, s: Text, rest: Text)
    requires front != [] && front[0] != QUOTE && ReadUnit(front + tail) == Some((u, |front|))
    requires ReadString(tail) == Some((s, rest))
    ensures ReadString(front + tail) == Some(([u] + s, rest))
  {
    assert (front + tail)[|front|..] == tail;
  }

  lemma PairReadsBack(high: CodeUnit, low: CodeUnit, tail: Text, s: Text, rest: Text)
    requires High(high) && Low(low) && ReadString(tail) == Some((s, rest))
    ensures ReadString([high, low] + tail) == Some(([high, low] + s, rest))
  {
    RawUnitReadsBack(low, tail);
    ReadOneMore([low], low, tail, s, rest);
    RawUnitReadsBack(high, [low] + tail);
    ReadOneMore([high], high, [low] + tail, [low] + s, rest);
    assert [high] + ([low] + tail) == [high, low] + tail;
    assert [high] + ([low] + s) == [high, low] + s;
  }

  lemma EscapedReadsBack(u: CodeUnit, tail: Text, s: Text, rest: Text)
    requires ReadString(tail) == Some((s, rest))
    ensures ReadString(EscapeUnit(u) + tail) == Some(([u] + s, rest))
  {
    UnitReadsBack(u, tail);
    ReadOneMore(EscapeUnit(u), u, tail, s, rest);
  }

  /** How many code units Escape takes together. */
  function Step(s: Text): (n: nat)
    requires s != []
    ensures 0 < n <= |s|
  {
    if |s| > 1 && High(s[0]) && Low(s[1]) then 2 else 1
  }

  function EscapeStep(s: Text): Text
    requires s != []
  {
    if Step(s) == 2 then s[..2] else EscapeUnit(s[0])
  }

  lemma EscapeSplits(s: Text, end: Text)
    requires s != []
    ensures Escape(s) + end == EscapeStep(s) + (Escape(s[Step(s)..]) + end)
  {
    assert Escape(s) == EscapeStep(s) + Escape(s[Step(s)..]);
  }

  lemma StepReadsBack(s: Text, tail: Text, rest: Text)
    requires s != [] && ReadString(tail) == Some((s[Step(s)..], rest))
    ensures ReadString(EscapeStep(s) + tail) == Some((s, rest))
  {
    if Step(s) == 2 {
      PairReadsBack(s[0], s[1], tail, s[2..], rest);
      assert s[..2] == [s[0], s[1]];
      assert [s[0], s[1]] + s[2..] == s;
    } else {
      EscapedReadsBack(s[0], tail, s[1..], rest);
      assert [s[0]] + s[1..] == s;
    }
  }

  /** Reading a quoted string gives the string and leaves what follows it. */
  lemma {:induction false} StringReadsBack(s: Text, rest: Text)
    ensures ReadString(Escape(s) + ([QUOTE] + rest)) == Some((s, rest))
    decreases |s|
  {
    var end := [QUOTE] + rest;
    if s == [] {
      assert Escape(s) + end == end;
    } else {
      StringReadsBack(s[Step(s)..], rest);
      StepReadsBack(s, Escape(s[Step(s)..]) + end, rest);
      EscapeSplits(s, end);
    }
  }

  /** A text without lone surrogates, which UTF-8 can encode. */
  predicate WellFormed(t: Text) {
    t == []
    || (!High(t[0]) && !Low(t[0]) && WellFormed(t[1..]))
    || (|t| > 1 && High(t[0]) && Low(t[1]) && WellFormed(t[2..]))
  }

  lemma {:induction false} WellFormedConcat(a: Text, b: Text)
    requires WellFormed(a) && WellFormed(b)
    ensures WellFormed(a + b)
    decreases |a|
  {
    if a == [] {
      assert a + b == b;
    } else if High(a[0]) {
      WellFormedConcat(a[2..], b);
      assert (a + b)[2..] == a[2..] + b;
    } else {
      WellFormedConcat(a[1..], b);
      assert (a + b)[1..] == a[1..] + b;
    }
  }

  lemma {:induction false} PlainIsWellFormed(t: Text)
    requires forall i :: 0 <= i < |t| ==> !High(t[i]) && !Low(t[i])
    ensures WellFormed(t)
  {
    if t == [] {
    } else {
      PlainIsWellFormed(t[1..]);
    }
  }

  /** Whatever the string, its escaped form can be encoded, so hashing its bytes loses nothing. */
  lemma {:induction false} EscapedIsWellFormed(s: Text)
    ensures WellFormed(Escape(s))
    decreases |s|
  {
    if s == [] {
    } else if |s| > 1 && High(s[0]) && Low(s[1]) {
      EscapedIsWellFormed(s[2..]);
      assert WellFormed(s[..2]) by { assert s[..2][2..] == []; }
      WellFormedConcat(s[..2], Escape(s[2..]));
    } else {
      EscapedIsWellFormed(s[1..]);
      PlainIsWellFormed(EscapeUnit(s[0]));
      WellFormedConcat(EscapeUnit(s[0]), Escape(s[1..]));
    }
  }

  // ----- numbers -----

  /** A JavaScript number.  A finite non-zero one is given by its shortest decimal form:
      the digits d1 d2 ... dk without zeros at either end stand for 0.d1d2...dk times ten
      to the power `point`.  Distinct doubles have distinct shortest forms. */
  datatype Number =
    | NaN
    | Infinity(negative: bool)
    | Zero(negative: bool)
    | Finite(negative: bool, digits: seq<Digit>, point: int)

  predicate ShortestForm(n: Number) {
    n.Finite? ==> n.digits != [] && n.digits[0] != 0 && n.digits[|n.digits| - 1] != 0
  }

  function Numeral(ds: seq<Digit>): (t: Text)
    ensures |t| == |ds| && forall i :: 0 <= i < |ds| ==> t[i] == ZERO + ds[i]
  {
    seq(|ds|, i requires 0 <= i < |ds| => ZERO + ds[i])
  }

  /** The text is made of at most a mantissa with a point and an exponent. */
  datatype Layout = Layout(whole: seq<Digit>, fraction: seq<Digit>, exponent: Option<int>)

  /** The four cases of Number::toString. */
  function LayoutOf(ds: seq<Digit>, point: int): Layout
    requires ds != []
  {
    var k := |ds|;
    if k <= point <= 21 then Layout(ds + Zeros(point - k), [], None)
    else if 0 < point <= 21 then Layout(ds[..point], ds[point..], None)
    else if -6 < point <= 0 then Layout([0], Zeros(-point) + ds, None)
    else Layout(ds[..1], ds[1..], Some(point - 1))
  }

  function PrintExponent(e: Option<int>): Text {
    if e.None? then []
    else if e.value < 0 then [SMALL_E, MINUS] + Numeral(Digits(-e.value))
    else [SMALL_E, PLUS] + Numeral(Digits(e.value))
  }

  function PrintLayout(l: Layout): Text {
    Numeral(l.whole) + (if l.fraction == [] then [] else [DOT] + Numeral(l.fraction)) + PrintExponent(l.exponent)
  }

  /** canonicalNumber for a finite number: both zeros print as 0. */
  function PrintNumber(n: Number): Text
    requires (n.Zero? || n.Finite?) && ShortestForm(n)
  {
    if n.Zero? then [ZERO]
    else (if n.negative then [MINUS] else []) + PrintLayout(LayoutOf(n.digits, n.point))
  }

  predicate IsDigit(u: CodeUnit) { ZERO <= u < ZERO + 10 }

  /** The longest run of digits, and what follows it. */
  function ReadDigits(t: Text): (r: (seq<Digit>, Text))
    ensures |r.1| + |r.0| == |t|
    ensures r.1 != [] ==> !IsDigit(r.1[0])
  {
    if t == [] || !IsDigit(t[0]) then ([], t)
    else var r := ReadDigits(t[1..]); ([t[0] - ZERO] + r.0, r.1)
  }

  function Signed(negative: bool, n: int): int {
    if negative then -n else n
  }

  function ReadExponent(t: Text): (r: (Option<int>, Text))
    ensures |r.1| <= |t|
  {
    if |t| < 2 || t[0] != SMALL_E || (t[1] != PLUS && t[1] != MINUS) then (None, t)
    else
      var r := ReadDigits(t[2..]);
      (Some(Signed(t[1] == MINUS, Value(r.0))), r.1)
  }

  function ReadLayout(t: Text): (r: (Layout, Text))
    ensures |r.1| <= |t|
  {
    var whole := ReadDigits(t);
    var fraction := if whole.1 != [] && whole.1[0] == DOT then ReadDigits(whole.1[1..]) else ([], whole.1);
    var exponent := ReadExponent(fraction.1);
    (Layout(whole.0, fraction.0, exponent.0), exponent.1)
  }

  function DropLeading(ds: seq<Digit>): seq<Digit> {
    if ds != [] && ds[0] == 0 then DropLeading(ds[1..]) else ds
  }

  function DropTrailing(ds: seq<Digit>): seq<Digit> {
    if ds != [] && ds[|ds| - 1] == 0 then DropTrailing(ds[..|ds| - 1]) else ds
  }

  /** The shortest form of the number a layout denotes; zero has no digits left. */
  function Normal(negative: bool, l: Layout): Number {
    var all := l.whole + l.fraction;
    var significant := DropLeading(all);
    var ds := DropTrailing(significant);
    if ds == [] then Zero(false)
    else Finite(negative, ds, |l.whole| - (|all| - |significant|) + if l.exponent.Some? then l.exponent.value else 0)
  }

  function ReadNumber(t: Text): (r: (Number, Text))
    ensures |r.1| <= |t|
  {
    var negative := t != [] && t[0] == MINUS;
    var r := ReadLayout(if negative then t[1..] else t);
    (Normal(negative, r.0), r.1)
  }

  /** What may follow a number without being read as part of it. */
  predicate EndsNumber(rest: Text) {
    rest == [] || (!IsDigit(rest[0]) && rest[0] != DOT && rest[0] != SMALL_E)
  }

  lemma {:induction false} DigitsReadBack(ds: seq<Digit>, rest: Text)
    requires rest == [] || !IsDigit(rest[0])
    ensures ReadDigits(Numeral(ds) + rest) == (ds, rest)
  {
    if ds == [] {
      assert Numeral(ds) + rest == rest;
    } else {
      assert (Numeral(ds) + rest)[1..] == Numeral(ds[1..]) + rest;
      DigitsReadBack(ds[1..], rest);
      assert [ds[0]] + ds[1..] == ds;
    }
  }

  lemma SignedReadsBack(negative: bool, n: nat, rest: Text)
    requires EndsNumber(rest)
    ensures ReadExponent([SMALL_E, if negative then MINUS else PLUS] + (Numeral(Digits(n)) + rest)) ==
        (Some(Signed(negative, n)), rest)
  {
    var t := [SMALL_E, if negative then MINUS else PLUS] + (Numeral(Digits(n)) + rest);
    assert t[2..] == Numeral(Digits(n)) + rest;
    DigitsReadBack(Digits(n), rest);
    ValueOfDigits(n);
  }

  lemma ExponentReadsBack(e: Option<int>, rest: Text)
    requires EndsNumber(rest)
    ensures ReadExponent(PrintExponent(e) + rest) == (e, rest)
  {
    if e.None? {
      assert PrintExponent(e) + rest == rest;
    } else if e.value < 0 {
      SignedReadsBack(true, -e.value, rest);
      Regroup([SMALL_E, MINUS], Numeral(Digits(-e.value)), rest);
    } else {
      SignedReadsBack(false, e.value, rest);
      Regroup([SMALL_E, PLUS], Numeral(Digits(e.value)), rest);
    }
  }

  lemma WholeReadsBack(whole: seq<Digit>, e: Option<int>, rest: Text)
    requires whole != [] && EndsNumber(rest)
    ensures ReadLayout(Numeral(whole) + (PrintExponent(e) + rest)) == (Layout(whole, [], e), rest)
  {
    var tail := PrintExponent(e) + rest;
    ExponentReadsBack(e, rest);
    DigitsReadBack(whole, tail);
  }

  lemma FractionReadsBack(whole: seq<Digit>, fraction: seq<Digit>, e: Option<int>, rest: Text)
    requires whole != [] && fraction != [] && EndsNumber(rest)
    ensures ReadLayout(Numeral(whole) + ([DOT] + (Numeral(fraction) + (PrintExponent(e) + rest)))) ==
        (Layout(whole, fraction, e), rest)
  {
    var tail := PrintExponent(e) + rest;
    var after := [DOT] + (Numeral(fraction) + tail);
    ExponentReadsBack(e, rest);
    DigitsReadBack(whole, after);
    assert after[1..] == Numeral(fraction) + tail;
    DigitsReadBack(fraction, tail);
  }

  lemma LayoutReadsBack(l: Layout, rest: Text)
    requires l.whole != [] && EndsNumber(rest)
    ensures ReadLayout(PrintLayout(l) + rest) == (l, rest)
  {
    var w, f, x := Numeral(l.whole), Numeral(l.fraction), PrintExponent(l.exponent);
    if l.fraction == [] {
      WholeReadsBack(l.whole, l.exponent, rest);
      assert w + [] == w;
      Regroup(w, x, rest);
    } else {
      FractionReadsBack(l.whole, l.fraction, l.exponent, rest);
      Regroup(w + ([DOT] + f), x, rest);
      Regroup(w, [DOT] + f, x + rest);
      Regroup([DOT], f, x + rest);
    }
  }

  lemma {:induction false} LeadingZerosDrop(k: nat, ds: seq<Digit>)
    requires ds != [] && ds[0] != 0
    ensures DropLeading(Zeros(k) + ds) == ds
  {
    if k > 0 {
      assert (Zeros(k) + ds)[1..] == Zeros(k - 1) + ds;
      LeadingZerosDrop(k - 1, ds);
    } else {
      assert Zeros(0) + ds == ds;
    }
  }

  lemma {:induction false} TrailingZerosDrop(ds: seq<Digit>, k: nat)
    requires ds != [] && ds[|ds| - 1] != 0
    ensures DropTrailing(ds + Zeros(k)) == ds
  {
    if k > 0 {
      assert (ds + Zeros(k))[..|ds| + k - 1] == ds + Zeros(k - 1);
      TrailingZerosDrop(ds, k - 1);
    } else {
      assert ds + Zeros(0) == ds;
    }
  }

  /** A layout whose digits are `ds` between zeros denotes `ds` at its point. */
  lemma ZerosAround(negative: bool, l: Layout, a: nat, ds: seq<Digit>, b: nat)
    requires ds != [] && ds[0] != 0 && ds[|ds| - 1] != 0
    requires l.whole + l.fraction == Zeros(a) + (ds + Zeros(b))
    ensures Normal(negative, l) ==
        Finite(negative, ds, |l.whole| - a + if l.exponent.Some? then l.exponent.value else 0)
  {
    LeadingZerosDrop(a, ds + Zeros(b));
    TrailingZerosDrop(ds, b);
  }

  lemma WholeDenotes(negative: bool, ds: seq<Digit>, b: nat)
    requires ds != [] && ds[0] != 0 && ds[|ds| - 1] != 0
    ensures Normal(negative, Layout(ds + Zeros(b), [], None)) == Finite(negative, ds, |ds| + b)
  {
    assert ds + Zeros(b) + [] == Zeros(0) + (ds + Zeros(b));
    ZerosAround(negative, Layout(ds + Zeros(b), [], None), 0, ds, b);
  }

  lemma SmallDenotes(negative: bool, ds: seq<Digit>, a: nat)
    requires ds != [] && ds[0] != 0 && ds[|ds| - 1] != 0
    ensures Normal(negative, Layout([0], Zeros(a) + ds, None)) == Finite(negative, ds, 0 - a)
  {
    assert [0] + (Zeros(a) + ds) == Zeros(a + 1) + (ds + Zeros(0));
    ZerosAround(negative, Layout([0], Zeros(a) + ds, None), a + 1, ds, 0);
  }

  lemma SplitDenotes(negative: bool, ds: seq<Digit>, w: nat, e: Option<int>)
    requires ds != [] && ds[0] != 0 && ds[|ds| - 1] != 0 && w <= |ds|
    ensures Normal(negative, Layout(ds[..w], ds[w..], e)) == Finite(negative, ds, (if e.Some? then e.value else 0) + w)
  {
    assert ds[..w] + ds[w..] == Zeros(0) + (ds + Zeros(0));
    ZerosAround(negative, Layout(ds[..w], ds[w..], e), 0, ds, 0);
  }

  /** All four layouts denote the number they were made from. */
  lemma LayoutDenotesNumber(n: Number)
    requires n.Finite? && ShortestForm(n)
    ensures LayoutOf(n.digits, n.point).whole != []
    ensures Normal(n.negative, LayoutOf(n.digits, n.point)) == n
  {
    var ds := n.digits;
    if |ds| <= n.point <= 21 {
      WholeDenotes(n.negative, ds, n.point - |ds|);
    } else if 0 < n.point <= 21 {
      SplitDenotes(n.negative, ds, n.point, None);
    } else if -6 < n.point <= 0 {
      SmallDenotes(n.negative, ds, -n.point);
    } else {
      SplitDenotes(n.negative, ds, 1, Some(n.point - 1));
    }
  }

  lemma LayoutStarts(l: Layout)
    requires l.whole != []
    ensures PrintLayout(l) != [] && IsDigit(PrintLayout(l)[0])
  {
    assert PrintLayout(l)[0] == Numeral(l.whole)[0];
  }

  lemma FiniteReadsBack(n: Number, rest: Text)
    requires n.Finite? && ShortestForm(n) && EndsNumber(rest)
    ensures ReadNumber(PrintNumber(n) + rest) == (n, rest)
  {
    var l := LayoutOf(n.digits, n.point);
    LayoutDenotesNumber(n);
    LayoutReadsBack(l, rest);
    LayoutStarts(l);
    if n.negative {
      assert [MINUS] + PrintLayout(l) + rest == [MINUS] + (PrintLayout(l) + rest);
      assert ([MINUS] + (PrintLayout(l) + rest))[1..] == PrintLayout(l) + rest;
    } else {
      assert [] + PrintLayout(l) == PrintLayout(l);
    }
  }

  lemma ZeroReadsBack(rest: Text)
    requires EndsNumber(rest)
    ensures ReadNumber([ZERO] + rest) == (Zero(false), rest)
  {
    assert Numeral([0]) == [ZERO];
    assert [ZERO] + (PrintExponent(None) + rest) == [ZERO] + rest;
    WholeReadsBack([0], None, rest);
    assert [0] + [] == [0];
    assert DropLeading([0]) == DropLeading([]) by { assert [0][1..] == []; }
  }

  /** Reading a printed number gives it back, with the sign of zero forgotten. */
  lemma NumberReadsBack(n: Number, rest: Text)
    requires (n.Zero? || n.Finite?) && ShortestForm(n) && EndsNumber(rest)
    ensures ReadNumber(PrintNumber(n) + rest) == (if n.Zero? then Zero(false) else n, rest)
  {
    if n.Zero? {
      ZeroReadsBack(rest);
    } else {
      FiniteReadsBack(n, rest);
    }
  }

  /** A printed number starts with a digit or a minus sign. */
  lemma NumberStarts(n: Number)
    requires (n.Zero? || n.Finite?) && ShortestForm(n)
    ensures PrintNumber(n) != [] && (IsDigit(PrintNumber(n)[0]) || PrintNumber(n)[0] == MINUS)
  {
    if n.Finite? {
      LayoutStarts(LayoutOf(n.digits, n.point));
      assert [] + PrintLayout(LayoutOf(n.digits, n.point)) == PrintLayout(LayoutOf(n.digits, n.point));
    }
  }
}

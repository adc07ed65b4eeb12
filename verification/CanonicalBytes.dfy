/**
 * The bytes of canonical JSON, said without the printer's own vocabulary: code units are
 * written as numbers, keys are compared position by position, and the examples are those
 * of packages/shared/src/canonical.test.ts.  `CanonicalJson` proves what the text decides;
 * this module fixes which text it is.
 */
module CanonicalBytes {
  import opened Prelude
  import opened JsonText
  import opened CanonicalJson
  import opened Decimal
  import Sorting

  /** The code units of a literal. */
  function Units(s: string): Text
    requires forall i :: 0 <= i < |s| ==> s[i] as int < 0x10000
  {
    seq(|s|, i requires 0 <= i < |s| => s[i] as int)
  }

  // ----- the order of the keys -----

  /** At the first position where they differ `x` has the smaller code unit, or `x` ends there. */
  predicate DiffersAt(x: Text, y: Text, i: nat) {
    && i <= |x| && i < |y| && x[..i] == y[..i]
    && (i == |x| || x[i] < y[i])
  }

  ghost predicate ComesFirst(x: Text, y: Text) {
    exists i: nat :: DiffersAt(x, y, i)
  }

  lemma {:induction false} KeyLeDiffers(x: Text, y: Text)
    requires KeyLe(x, y) && x != y
    ensures ComesFirst(x, y)
    decreases |x|
  {
    if x == [] || x[0] < y[0] {
      assert DiffersAt(x, y, 0);
    } else {
      assert x == [x[0]] + x[1..] && y == [y[0]] + y[1..];
      KeyLeDiffers(x[1..], y[1..]);
      var i: nat :| DiffersAt(x[1..], y[1..], i);
      assert x[..i + 1] == [x[0]] + x[1..][..i] && y[..i + 1] == [y[0]] + y[1..][..i];
      assert DiffersAt(x, y, i + 1);
    }
  }

  /** The keys of every object in the value ascend, at every depth. */
  ghost predicate KeysAscend(v: Json) {
    match v
    case Array(items) => forall i :: 0 <= i < |items| ==> KeysAscend(items[i])
    case Object(props) =>
      && (forall i, j :: 0 <= i < j < |props| ==> ComesFirst(props[i].key, props[j].key))
      && (forall i :: 0 <= i < |props| ==> KeysAscend(props[i].value))
    case _ => true
  }

  lemma EntriesInOrder(v: Json)
    requires v.Object? && WellTyped(v)
    ensures var es := Entries(v.props);
            && (forall i, j :: 0 <= i < j < |es| ==> ComesFirst(es[i].key, es[j].key))
            && (forall p :: p in es <==> p in v.props && !p.value.Undefined?)
  {
    var es := Entries(v.props);
    EntriesAscend(v);
    forall i, j | 0 <= i < j < |es|
      ensures ComesFirst(es[i].key, es[j].key)
    {
      assert BY_KEY(es[i], es[j]) && !BY_KEY(es[j], es[i]);
      KeyLeDiffers(es[i].key, es[j].key);
    }
    forall p
      ensures p in es <==> p in v.props && !p.value.Undefined?
    {
      EntriesMembers(v.props, p);
    }
  }

  /** The normal form has its keys in this order, at every depth. */
  lemma {:induction false} NormalKeysAscend(v: Json)
    requires WellTyped(v)
    ensures KeysAscend(Norm(v))
    decreases v
  {
    match v
    case Array(items) =>
      forall i | 0 <= i < |items|
        ensures KeysAscend(NormItems(v, items)[i])
      {
        NormItemsAt(v, items, i);
        NormalKeysAscend(items[i]);
      }
    case Object(props) =>
      var es := Entries(props);
      EntriesInOrder(v);
      EntriesAreParts(v);
      EntriesWellTyped(v);
      forall i | 0 <= i < |es|
        ensures NormEntries(v, es)[i].key == es[i].key && KeysAscend(NormEntries(v, es)[i].value)
      {
        NormEntriesAt(v, es, i);
        assert es[i] in es;
        NormalKeysAscend(es[i].value);
      }
    case _ =>
  }

  // ----- the text of a value -----

  /** The parts with commas between them. */
  function Listed(parts: seq<Text>): Text {
    if parts == [] then [] else if |parts| == 1 then parts[0] else parts[0] + [0x2C] + Listed(parts[1..])
  }

  lemma {:induction false} JoinLists(parts: seq<Text>)
    ensures Join(parts) == Listed(parts)
  {
    if |parts| > 1 {
      JoinLists(parts[1..]);
    }
  }

  lemma {:induction false} ItemTexts(v: Json, items: seq<Json>, depth: nat, i: nat)
    requires forall j :: 0 <= j < |items| ==> items[j] < v && WellTyped(items[j])
    requires CanonicaliseItems(v, items, depth).Ok? && i < |items|
    ensures |CanonicaliseItems(v, items, depth).value| == |items|
    ensures Canonicalise(items[i], depth, true) == Ok(Some(CanonicaliseItems(v, items, depth).value[i]))
    decreases |items|
  {
    if i > 0 {
      ItemTexts(v, items[1..], depth, i - 1);
    } else if |items| > 1 {
      ItemTexts(v, items[1..], depth, 0);
    }
  }

  /** An accepted array: its items in their order, between brackets. */
  lemma ArrayText(v: Json, depth: nat, inArray: bool) returns (parts: seq<Text>)
    requires WellTyped(v) && v.Array? && Canonicalise(v, depth, inArray).Ok?
    ensures |parts| == |v.items|
    ensures forall i :: 0 <= i < |parts| ==> Canonicalise(v.items[i], depth + 1, true) == Ok(Some(parts[i]))
    ensures Canonicalise(v, depth, inArray).value == Some([0x5B] + Listed(parts) + [0x5D])
  {
    parts := CanonicaliseItems(v, v.items, depth + 1).value;
    JoinLists(parts);
    if v.items != [] { ItemTexts(v, v.items, depth + 1, 0); }
    forall i | 0 <= i < |parts|
      ensures Canonicalise(v.items[i], depth + 1, true) == Ok(Some(parts[i]))
    {
      ItemTexts(v, v.items, depth + 1, i);
    }
  }

  /** A key, a colon and the text of the value. */
  function Pair(key: Text, text: Text): Text {
    [0x22] + Escape(key) + [0x22] + [0x3A] + text
  }

  lemma {:induction false} EntryTexts(v: Json, es: seq<Prop>, depth: nat, i: nat) returns (text: Text)
    requires forall p :: p in es ==> p.value < v && !p.value.Undefined? && WellTyped(p.value)
    requires CanonicaliseEntries(v, es, depth).Ok? && i < |es|
    ensures |CanonicaliseEntries(v, es, depth).value| == |es|
    ensures Canonicalise(es[i].value, depth, false) == Ok(Some(text))
    ensures CanonicaliseEntries(v, es, depth).value[i] == Pair(es[i].key, text)
    decreases |es|
  {
    if i > 0 {
      text := EntryTexts(v, es[1..], depth, i - 1);
    } else {
      text := Canonicalise(es[0].value, depth, false).value.value;
      if |es| > 1 { var other := EntryTexts(v, es[1..], depth, 0); }
    }
  }

  /** An accepted object: its defined properties, each once, in the order of their keys,
      between braces. */
  lemma ObjectText(v: Json, depth: nat, inArray: bool) returns (es: seq<Prop>, texts: seq<Text>, parts: seq<Text>)
    requires WellTyped(v) && v.Object? && Canonicalise(v, depth, inArray).Ok?
    ensures forall p :: p in es <==> p in v.props && !p.value.Undefined?
    ensures forall i, j :: 0 <= i < j < |es| ==> ComesFirst(es[i].key, es[j].key)
    ensures |texts| == |parts| == |es|
    ensures forall i :: 0 <= i < |es| ==> WellTyped(es[i].value)
    ensures forall i :: 0 <= i < |es| ==> Canonicalise(es[i].value, depth + 1, false) == Ok(Some(texts[i]))
    ensures forall i :: 0 <= i < |es| ==> parts[i] == Pair(es[i].key, texts[i])
    ensures Canonicalise(v, depth, inArray).value == Some([0x7B] + Listed(parts) + [0x7D])
  {
    es := Entries(v.props);
    EntriesInOrder(v);
    EntriesAreParts(v);
    EntriesWellTyped(v);
    parts := CanonicaliseEntries(v, es, depth + 1).value;
    JoinLists(parts);
    texts := AllTexts(v, es, depth + 1);
  }

  lemma AllTexts(v: Json, es: seq<Prop>, depth: nat) returns (texts: seq<Text>)
    requires forall p :: p in es ==> p.value < v && !p.value.Undefined? && WellTyped(p.value)
    requires CanonicaliseEntries(v, es, depth).Ok?
    ensures |texts| == |CanonicaliseEntries(v, es, depth).value| == |es|
    ensures forall i :: 0 <= i < |es| ==> Canonicalise(es[i].value, depth, false) == Ok(Some(texts[i]))
    ensures forall i :: 0 <= i < |es| ==> CanonicaliseEntries(v, es, depth).value[i] == Pair(es[i].key, texts[i])
  {
    var parts := CanonicaliseEntries(v, es, depth).value;
    texts := [];
    if es != [] {
      var first := EntryTexts(v, es, depth, 0);
    }
    while |texts| < |es|
      invariant |texts| <= |es| == |parts|
      invariant forall i :: 0 <= i < |texts| ==>
                  Canonicalise(es[i].value, depth, false) == Ok(Some(texts[i]))
                  && parts[i] == Pair(es[i].key, texts[i])
    {
      var text := EntryTexts(v, es, depth, |texts|);
      texts := texts + [text];
    }
  }

  /** The words. */
  lemma WordsAreWritten(depth: nat, inArray: bool)
    requires depth <= 512
    ensures Canonicalise(Null, depth, inArray) == Ok(Some(Units("null")))
    ensures Canonicalise(Bool(true), depth, inArray) == Ok(Some(Units("true")))
    ensures Canonicalise(Bool(false), depth, inArray) == Ok(Some(Units("false")))
  {
    assert Units("null") == [0x6E, 0x75, 0x6C, 0x6C];
    assert Units("true") == [0x74, 0x72, 0x75, 0x65];
    assert Units("false") == [0x66, 0x61, 0x6C, 0x73, 0x65];
  }

  lemma StringsAreWritten(s: Text, depth: nat, inArray: bool)
    requires depth <= 512
    ensures Canonicalise(String(s), depth, inArray) == Ok(Some([0x22] + Escape(s) + [0x22]))
  {
  }

  /** What is refused, and why: each kind of refusal on its own, at the place it arises. */
  lemma RefusalsAreTold(v: Json, depth: nat, inArray: bool)
    requires WellTyped(v)
    ensures depth > 512 ==> Canonicalise(v, depth, inArray) == Err(TooDeep)
    ensures depth <= 512 && v.Number? && (v.n.NaN? || v.n.Infinity?) ==>
              Canonicalise(v, depth, inArray) == Err(NonFinite)
    ensures depth <= 512 && v.Undefined? ==>
              Canonicalise(v, depth, inArray) == if inArray then Err(UndefinedInArray) else Ok(None)
    ensures depth <= 512 && v.Unsupported? ==> Canonicalise(v, depth, inArray) == Err(NotJson)
    ensures v.Undefined? ==> CanonicalJson.CanonicalJson(v) == Err(UndefinedAtTop)
  {
  }

  /** `n` arrays inside each other. */
  function Nested(n: nat): Json {
    if n == 0 then Null else Array([Nested(n - 1)])
  }

  lemma {:induction false} NestedPrints(n: nat, depth: nat)
    ensures WellTyped(Nested(n)) && (Printable(Nested(n), depth) <==> depth + n <= 512)
  {
    if n > 0 {
      NestedPrints(n - 1, depth + 1);
      assert Nested(n).items[0] == Nested(n - 1);
    }
  }

  /** The depth cap, to the level: 512 arrays inside each other are printed, 513 refused. */
  lemma DepthCapIsExact(n: nat)
    ensures WellTyped(Nested(n)) && (CanonicalJson.CanonicalJson(Nested(n)).Ok? <==> n <= 512)
  {
    NestedPrints(n, 0);
    AcceptsExactlyThePrintable(Nested(n));
  }

  // ----- strings -----

  function Hex(d: nat): CodeUnit
    requires d < 16
  {
    if d < 10 then 0x30 + d else 0x57 + d
  }

  /** How each code unit that is not part of a surrogate pair is written. */
  lemma UnitsAreEscaped(u: CodeUnit)
    ensures u == 0x08 ==> EscapeUnit(u) == [0x5C, 0x62]
    ensures u == 0x09 ==> EscapeUnit(u) == [0x5C, 0x74]
    ensures u == 0x0A ==> EscapeUnit(u) == [0x5C, 0x6E]
    ensures u == 0x0C ==> EscapeUnit(u) == [0x5C, 0x66]
    ensures u == 0x0D ==> EscapeUnit(u) == [0x5C, 0x72]
    ensures u == 0x22 || u == 0x5C ==> EscapeUnit(u) == [0x5C, u]
    ensures u < 0x20 && u !in {0x08, 0x09, 0x0A, 0x0C, 0x0D} ==>
              EscapeUnit(u) == [0x5C, 0x75, 0x30, 0x30, 0x30 + u / 16, Hex(u % 16)]
    ensures 0xD800 <= u < 0xE000 ==>
              EscapeUnit(u) == [0x5C, 0x75, 0x64, Hex(u / 256 % 16), Hex(u / 16 % 16), Hex(u % 16)]
    ensures u >= 0x20 && u != 0x22 && u != 0x5C && !(0xD800 <= u < 0xE000) ==> EscapeUnit(u) == [u]
  {
    if u < 0x20 {
      assert u / 4096 == 0 && u / 256 % 16 == 0 && u / 16 % 16 == u / 16;
    } else if 0xD800 <= u < 0xE000 {
      assert u / 4096 == 13;
    }
  }

  /** A surrogate pair stays, anything else is written unit by unit. */
  lemma StringsAreEscaped(s: Text)
    requires s != []
    ensures |s| > 1 && 0xD800 <= s[0] < 0xDC00 && 0xDC00 <= s[1] < 0xE000 ==>
              Escape(s) == [s[0], s[1]] + Escape(s[2..])
    ensures !(|s| > 1 && 0xD800 <= s[0] < 0xDC00 && 0xDC00 <= s[1] < 0xE000) ==>
              Escape(s) == EscapeUnit(s[0]) + Escape(s[1..])
    ensures Escape([]) == []
  {
    if |s| > 1 {
      assert s[..2] == [s[0], s[1]];
    }
  }

  // ----- numbers -----

  function Figure(d: Digit): (u: CodeUnit)
    ensures u == 48 + d
  {
    var zero: CodeUnit := 0x30;
    zero + d
  }

  function Figures(ds: seq<Digit>): Text {
    seq(|ds|, i requires 0 <= i < |ds| => Figure(ds[i]))
  }

  function Minus(negative: bool): Text {
    if negative then [0x2D] else []
  }

  /** One digit, and the others after a point. */
  function Mantissa(ds: seq<Digit>): Text
    requires ds != []
  {
    [Figure(ds[0])] + if |ds| == 1 then [] else [0x2E] + Figures(ds[1..])
  }

  lemma FiguresAreNumeral(ds: seq<Digit>)
    ensures Figures(ds) == Numeral(ds)
  {
  }

  /** The text of the finite number 0.d1...dk times ten to the power p, so of one that is
      at least ten to the power p - 1 and less than ten to the power p: whole. */
  lemma WholeNumbersAreWritten(n: JsonText.Number)
    requires n.Finite? && ShortestForm(n) && |n.digits| <= n.point <= 21
    ensures PrintNumber(n) == Minus(n.negative) + (Figures(n.digits) + seq(n.point - |n.digits|, _ => 0x30))
  {
    var all := n.digits + Zeros(n.point - |n.digits|);
    FiguresAreNumeral(all);
    assert Figures(all) == Figures(n.digits) + seq(n.point - |n.digits|, _ => 0x30);
    assert PrintLayout(LayoutOf(n.digits, n.point)) == Numeral(all);
  }

  /** With a fraction. */
  lemma FractionsAreWritten(n: JsonText.Number)
    requires n.Finite? && ShortestForm(n) && 0 < n.point < |n.digits| && n.point <= 21
    ensures PrintNumber(n) ==
            Minus(n.negative) + (Figures(n.digits[..n.point]) + ([0x2E] + Figures(n.digits[n.point..])))
  {
    var whole, fraction := n.digits[..n.point], n.digits[n.point..];
    FiguresAreNumeral(whole);
    FiguresAreNumeral(fraction);
    assert PrintLayout(LayoutOf(n.digits, n.point)) == Numeral(whole) + ([DOT] + Numeral(fraction)) + [];
    Regroup(Figures(whole), [0x2E] + Figures(fraction), []);
  }

  /** Below one, but not below a millionth. */
  lemma SmallNumbersAreWritten(n: JsonText.Number)
    requires n.Finite? && ShortestForm(n) && -5 <= n.point <= 0
    ensures PrintNumber(n) == Minus(n.negative) + ([0x30, 0x2E] + (seq(-n.point, _ => 0x30) + Figures(n.digits)))
  {
    var fraction := Zeros(-n.point) + n.digits;
    ZerosInFront(-n.point, n.digits);
    assert PrintLayout(LayoutOf(n.digits, n.point)) == Numeral([0]) + ([DOT] + Numeral(fraction)) + [];
    Regroup([0x30], [0x2E], Numeral(fraction));
  }

  lemma ZerosInFront(k: nat, ds: seq<Digit>)
    ensures Numeral([0]) == [0x30] && Numeral(Zeros(k) + ds) == seq(k, _ => 0x30) + Figures(ds)
  {
    FiguresAreNumeral([0]);
    FiguresAreNumeral(Zeros(k) + ds);
    assert Figures(Zeros(k) + ds) == seq(k, _ => 0x30) + Figures(ds);
  }

  /** From ten to the power 21 on, and below a millionth. */
  lemma OthersAreWrittenWithExponent(n: JsonText.Number)
    requires n.Finite? && ShortestForm(n) && (n.point > 21 || n.point < -5)
    ensures PrintNumber(n) == Minus(n.negative) +
            (Mantissa(n.digits) + (if n.point > 21 then [0x65, 0x2B] + Figures(Digits(n.point - 1))
                                   else [0x65, 0x2D] + Figures(Digits(1 - n.point))))
  {
    var l := LayoutOf(n.digits, n.point);
    assert l == Layout(n.digits[..1], n.digits[1..], Some(n.point - 1));
    FiguresAreNumeral(n.digits[..1]);
    FiguresAreNumeral(n.digits[1..]);
    assert Figures(n.digits[..1]) == [Figure(n.digits[0])];
    FiguresAreNumeral(if n.point > 21 then Digits(n.point - 1) else Digits(1 - n.point));
    assert Numeral(l.whole) + (if l.fraction == [] then [] else [DOT] + Numeral(l.fraction)) == Mantissa(n.digits);
  }

  /** The sign of zero is not written. */
  lemma ZeroIsWritten(negative: bool)
    ensures PrintNumber(Zero(negative)) == Units("0")
  {
    assert Units("0") == [0x30];
  }

  lemma OneIsWritten(point: int)
    requires 0 < point <= 21
    ensures PrintNumber(Finite(false, [1], point)) == [0x31] + seq(point - 1, _ => 0x30)
  {
    WholeNumbersAreWritten(Finite(false, [1], point));
    assert Figures([1]) == [0x31];
    assert Minus(false) + ([0x31] + seq(point - 1, _ => 0x30)) == [0x31] + seq(point - 1, _ => 0x30);
  }

  /** The tests' examples, and the four numbers where the layout changes. */
  lemma LargeExamples()
    ensures PrintNumber(Finite(false, [1], 1)) == Units("1")
    ensures PrintNumber(Finite(false, [1], 21)) == Units("100000000000000000000")
    ensures PrintNumber(Finite(false, [1], 22)) == Units("1e+21")
  {
    OneIsWritten(1);
    OneIsWritten(21);
    assert Units("1") == [0x31] && Units("100000000000000000000") == [0x31] + seq(20, _ => 0x30);
    OthersAreWrittenWithExponent(Finite(false, [1], 22));
    assert Digits(21) == [2, 1] by { assert Digits(21) == Digits(2) + [1]; }
    assert Units("1e+21") == [0x31, 0x65, 0x2B, 0x32, 0x31];
  }

  lemma SmallExamples()
    ensures PrintNumber(Finite(false, [1], -5)) == Units("0.000001")
    ensures PrintNumber(Finite(true, [1, 5], -6)) == Units("-1.5e-7")
  {
    SmallNumbersAreWritten(Finite(false, [1], -5));
    assert Units("0.000001") == [0x30, 0x2E] + (seq(5, _ => 0x30) + [0x31]);
    assert Figures([1]) == [0x31];
    OthersAreWrittenWithExponent(Finite(true, [1, 5], -6));
    assert Figures([1, 5][1..]) == [0x35] && Figures(Digits(7)) == [0x37];
    assert Units("-1.5e-7") == [0x2D, 0x31, 0x2E, 0x35, 0x65, 0x2D, 0x37];
  }

  // ----- the first example of the tests -----

  function One(digit: Digit): Json {
    Number(Finite(false, [digit], 1))
  }

  function TwoKeys(): Json {
    Object([Prop([0x62], One(1)), Prop([0x61], One(2))])
  }

  lemma DigitsAreWritten(digit: Digit, depth: nat)
    requires digit != 0 && depth <= 512
    ensures WellTyped(One(digit)) && Canonicalise(One(digit), depth, false) == Ok(Some([Figure(digit)]))
  {
    WholeNumbersAreWritten(Finite(false, [digit], 1));
    assert Figures([digit]) == [Figure(digit)];
    assert PrintNumber(Finite(false, [digit], 1)) == [Figure(digit)];
  }

  lemma TwoKeysAreSorted()
    ensures Entries(TwoKeys().props) == [Prop([0x61], One(2)), Prop([0x62], One(1))]
  {
    var a, b := Prop([0x61], One(2)), Prop([0x62], One(1));
    assert TwoKeys().props[1..] == [a] && [a][1..] == [];
    assert Defined([a]) == [a] by { assert Defined([]) == []; assert [a] + [] == [a]; }
    assert Defined(TwoKeys().props) == [b, a] by { assert [b] + [a] == [b, a]; }
    assert !BY_KEY(b, a);
    assert Sorting.Sort([a], BY_KEY) == [a] by { assert Sorting.Sort([a][1..], BY_KEY) == []; }
    assert [b, a][1..] == [a];
    assert Sorting.Insert(b, [a], BY_KEY) == [a] + Sorting.Insert(b, [a][1..], BY_KEY) == [a, b];
  }

  /** One more entry in front. */
  lemma OneMoreEntry(v: Json, e: Prop, digit: Digit, es: seq<Prop>, parts: seq<Text>)
    requires e.value < v && e.value == One(digit) && digit != 0
    requires forall p :: p in es ==> p.value < v && !p.value.Undefined? && WellTyped(p.value)
    requires CanonicaliseEntries(v, es, 1) == Ok(parts)
    ensures WellTyped(e.value)
    ensures CanonicaliseEntries(v, [e] + es, 1) == Ok([Pair(e.key, [Figure(digit)])] + parts)
  {
    DigitsAreWritten(digit, 1);
    assert ([e] + es)[1..] == es;
  }

  lemma TwoParts(first: Text, second: Text)
    ensures Join([first] + [second]) == first + [0x2C] + second
  {
    assert ([first] + [second])[1..] == [second];
  }

  lemma TwoEntriesAreWritten(v: Json, a: Prop, b: Prop)
    requires a.value < v && b.value < v && a.value == One(2) && b.value == One(1)
    ensures WellTyped(a.value) && WellTyped(b.value)
    ensures CanonicaliseEntries(v, [a] + [b], 1) == Ok([Pair(a.key, [0x32])] + [Pair(b.key, [0x31])])
  {
    OneMoreEntry(v, b, 1, [], []);
    assert [b] + [] == [b] && [Pair(b.key, [0x31])] + [] == [Pair(b.key, [0x31])];
    OneMoreEntry(v, a, 2, [b], [Pair(b.key, [0x31])]);
  }

  lemma OneLetter(letter: CodeUnit)
    requires letter == 0x61 || letter == 0x62
    ensures Escape([letter]) == [letter]
  {
    assert [letter][1..] == [];
  }

  lemma TwoPairs()
    ensures [0x7B] + (Pair([0x61], [0x32]) + [0x2C] + Pair([0x62], [0x31])) + [0x7D] ==
            Units("{\"a\":2,\"b\":1}")
  {
    OneLetter(0x61);
    OneLetter(0x62);
    assert Pair([0x61], [0x32]) == [0x22, 0x61, 0x22, 0x3A, 0x32];
    assert Pair([0x62], [0x31]) == [0x22, 0x62, 0x22, 0x3A, 0x31];
  }

  /** `{ b: 1, a: 2 }` is written `{"a":2,"b":1}`. */
  lemma TwoKeysAreWritten()
    ensures WellTyped(TwoKeys()) && CanonicalJson.CanonicalJson(TwoKeys()) == Ok(Units("{\"a\":2,\"b\":1}"))
  {
    var v := TwoKeys();
    var a, b := Prop([0x61], One(2)), Prop([0x62], One(1));
    TwoKeysAreSorted();
    EntriesAreParts(v);
    assert [a] + [b] == Entries(v.props) && a in Entries(v.props) && b in Entries(v.props);
    TwoEntriesAreWritten(v, a, b);
    TwoParts(Pair(a.key, [0x32]), Pair(b.key, [0x31]));
    TwoPairs();
  }
}

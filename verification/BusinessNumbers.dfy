/**
 * Business numbers such as JC-2627-00042: packages/shared/src/sequence.ts, and their
 * allocation in apps/api/src/lib/sequences.ts.
 */
module BusinessNumbers {
  import opened Prelude
  import opened Decimal

  datatype Scope = Job | Sale | Payment | Contract

  datatype Parsed = Parsed(scope: Scope, fiscalYear: nat, value: nat)

  datatype RangeError = BadFiscalYear | BadValue

  /** Integers a JavaScript number holds exactly. */
  type SafeInteger = n: int | -9007199254740991 <= n <= 9007199254740991

  const SEQUENCE_WIDTH: nat := 5

  function Prefix(scope: Scope): string {
    match scope
    case Job => "JC"
    case Sale => "SL"
    case Payment => "PM"
    case Contract => "AMC"
  }

  // ----- digits as characters -----

  predicate IsDigit(c: char) { '0' <= c <= '9' }

  function CharOf(d: Digit): char { '0' + d as char }

  function DigitOf(c: char): Digit
    requires IsDigit(c)
  {
    c as int - '0' as int
  }

  function Show(ds: seq<Digit>): (s: string)
    ensures |s| == |ds| && forall i :: 0 <= i < |ds| ==> s[i] == CharOf(ds[i])
  {
    seq(|ds|, i requires 0 <= i < |ds| => CharOf(ds[i]))
  }

  predicate AllDigits(s: string) {
    forall i :: 0 <= i < |s| ==> IsDigit(s[i])
  }

  function Read(s: string): (ds: seq<Digit>)
    requires AllDigits(s)
    ensures |ds| == |s| && forall i :: 0 <= i < |s| ==> ds[i] == DigitOf(s[i])
  {
    seq(|s|, i requires 0 <= i < |s| => DigitOf(s[i]))
  }

  /** `String(n)`. */
  function Print(n: nat): string { Show(Digits(n)) }

  /** `Number.parseInt(s, 10)` of a run of digits. */
  function ParseInt(s: string): nat
    requires AllDigits(s)
  {
    Value(Read(s))
  }

  function PadStart(s: string, width: nat): string {
    if |s| >= width then s else seq(width - |s|, _ => '0') + s
  }

  lemma ReadShow(ds: seq<Digit>)
    ensures AllDigits(Show(ds)) && Read(Show(ds)) == ds
  {
  }

  lemma PaddingReads(ds: seq<Digit>, k: nat)
    ensures var s := seq(k, _ => '0') + Show(ds); AllDigits(s) && Read(s) == Zeros(k) + ds
  {
    var s := seq(k, _ => '0') + Show(ds);
    forall i | 0 <= i < |s|
      ensures s[i] == CharOf((Zeros(k) + ds)[i])
    {
    }
  }

  lemma PaddedTextReads(ds: seq<Digit>, width: nat)
    ensures var s := PadStart(Show(ds), width);
            && AllDigits(s) && |s| == (if |ds| >= width then |ds| else width)
            && Read(s) == (if |ds| >= width then ds else Zeros(width - |ds|) + ds)
  {
    ReadShow(ds);
    if |ds| < width {
      PaddingReads(ds, width - |ds|);
    }
  }

  /** Padding with zeros does not change the number read. */
  lemma PaddedReadsBack(n: nat, width: nat)
    ensures var s := PadStart(Print(n), width); AllDigits(s) && ParseInt(s) == n
    ensures |PadStart(Print(n), width)| == if |Digits(n)| >= width then |Digits(n)| else width
  {
    ValueOfDigits(n);
    PaddedTextReads(Digits(n), width);
    if |Digits(n)| < width {
      ValueIgnoresZeros(width - |Digits(n)|, Digits(n));
    }
  }

  // ----- formatting -----

  function FormatFiscalYear(fiscalYear: int): Result<string, RangeError> {
    if fiscalYear < 0 || fiscalYear > 99 then Err(BadFiscalYear)
    else Ok(PadStart(Print(fiscalYear), 2) + PadStart(Print((fiscalYear + 1) % 100), 2))
  }

  function FormatBusinessNumber(scope: Scope, fiscalYear: int, value: SafeInteger): Result<string, RangeError> {
    if value < 0 then Err(BadValue)
    else
      var fiscal := FormatFiscalYear(fiscalYear);
      if fiscal.Err? then fiscal
      else Ok(Prefix(scope) + "-" + fiscal.value + "-" + PadStart(Print(value), SEQUENCE_WIDTH))
  }

  // ----- parsing -----

  /** The part after the prefix and its dash: four digits, a dash, at least five digits. */
  predicate TailShape(t: string) {
    |t| >= 10 && AllDigits(t[..4]) && t[4] == '-' && AllDigits(t[5..])
  }

  function ParseTail(scope: Scope, t: string): Option<Parsed> {
    if !TailShape(t) then None
    else
      AllDigitsPart(t[..4], 2);
      var start, end := ParseInt(t[..4][..2]), ParseInt(t[..4][2..]);
      if end != (start + 1) % 100 then None else Some(Parsed(scope, start, ParseInt(t[5..])))
  }

  lemma AllDigitsPart(s: string, k: nat)
    requires AllDigits(s) && k <= |s|
    ensures AllDigits(s[..k]) && AllDigits(s[k..])
  {
  }

  /** A draft has no number: None in, None out. */
  function ParseBusinessNumber(raw: Option<string>): Option<Parsed> {
    if raw.None? then None
    else
      var s := raw.value;
      if |s| > 3 && s[..3] == "JC-" then ParseTail(Job, s[3..])
      else if |s| > 3 && s[..3] == "SL-" then ParseTail(Sale, s[3..])
      else if |s| > 3 && s[..3] == "PM-" then ParseTail(Payment, s[3..])
      else if |s| > 4 && s[..4] == "AMC-" then ParseTail(Contract, s[4..])
      else None
  }

  // ----- the theorems -----

  lemma PrefixIsRecognised(scope: Scope, t: string)
    requires t != []
    ensures ParseBusinessNumber(Some(Prefix(scope) + "-" + t)) == ParseTail(scope, t)
  {
    var head := Prefix(scope) + "-";
    var s := head + t;
    assert s[..|head|] == head && s[|head|..] == t;
    if scope.Contract? {
      assert s[0] == 'A';
      assert s[..3][0] == 'A' && "JC-"[0] == 'J' && "SL-"[0] == 'S' && "PM-"[0] == 'P';
    } else if scope.Sale? {
      assert s[..3][0] == 'S' && "JC-"[0] == 'J';
    } else if scope.Payment? {
      assert s[..3][0] == 'P' && "JC-"[0] == 'J' && "SL-"[0] == 'S';
    }
  }

  lemma TwoDigits(n: nat)
    requires n < 100
    ensures |PadStart(Print(n), 2)| == 2
  {
    PaddedReadsBack(n, 2);
    if n >= 10 {
      assert Digits(n) == Digits(n / 10) + [n % 10];
    }
  }

  lemma TailSplits(a: string, b: string, v: string)
    requires |a| == 2 && |b| == 2
    ensures var t := a + b + "-" + v;
            t[..4] == a + b && t[..4][..2] == a && t[..4][2..] == b && t[4] == '-' && t[5..] == v
  {
  }

  lemma TailParses(scope: Scope, a: string, b: string, v: string)
    requires AllDigits(a) && AllDigits(b) && AllDigits(v) && |a| == 2 && |b| == 2 && |v| >= 5
    ensures ParseTail(scope, a + b + "-" + v) ==
            if ParseInt(b) != (ParseInt(a) + 1) % 100 then None else Some(Parsed(scope, ParseInt(a), ParseInt(v)))
  {
    TailSplits(a, b, v);
  }

  function YearText(n: nat): string { PadStart(Print(n), 2) }
  function ValueText(n: nat): string { PadStart(Print(n), SEQUENCE_WIDTH) }

  lemma YearReads(n: nat)
    requires n < 100
    ensures |YearText(n)| == 2 && AllDigits(YearText(n)) && ParseInt(YearText(n)) == n
  {
    PaddedReadsBack(n, 2);
    TwoDigits(n);
  }

  lemma ValueReads(n: nat)
    ensures |ValueText(n)| >= 5 && AllDigits(ValueText(n)) && ParseInt(ValueText(n)) == n
  {
    PaddedReadsBack(n, SEQUENCE_WIDTH);
  }

  lemma FormatShape(scope: Scope, fiscalYear: nat, value: SafeInteger)
    requires fiscalYear <= 99 && value >= 0
    ensures FormatBusinessNumber(scope, fiscalYear, value) ==
            Ok(Prefix(scope) + "-" + (YearText(fiscalYear) + YearText((fiscalYear + 1) % 100) + "-" + ValueText(value)))
  {
    var head, fiscal := Prefix(scope) + "-", YearText(fiscalYear) + YearText((fiscalYear + 1) % 100);
    Regroup(head, fiscal, "-");
    Regroup(head, fiscal + "-", ValueText(value));
  }

  /** Parsing a formatted number returns its parts, for every scope, every two-digit year
      with 99 running into 00, and every value. */
  lemma ParseUndoesFormat(scope: Scope, fiscalYear: int, value: SafeInteger)
    requires FormatBusinessNumber(scope, fiscalYear, value).Ok?
    ensures ParseBusinessNumber(Some(FormatBusinessNumber(scope, fiscalYear, value).value)) ==
        Some(Parsed(scope, fiscalYear, value))
  {
    FormatShape(scope, fiscalYear, value);
    YearReads(fiscalYear);
    YearReads((fiscalYear + 1) % 100);
    ValueReads(value);
    var a, b, v := YearText(fiscalYear), YearText((fiscalYear + 1) % 100), ValueText(value);
    TailParses(scope, a, b, v);
    PrefixIsRecognised(scope, a + b + "-" + v);
  }

  /** Formatting is refused exactly outside its range. */
  lemma FormatRange(scope: Scope, fiscalYear: int, value: SafeInteger)
    ensures FormatBusinessNumber(scope, fiscalYear, value).Ok? <==> 0 <= fiscalYear <= 99 && 0 <= value
  {
  }

  /** Two different numbers never print alike. */
  lemma FormatIsInjective(s1: Scope, f1: int, v1: SafeInteger, s2: Scope, f2: int, v2: SafeInteger)
    requires FormatBusinessNumber(s1, f1, v1).Ok?
        && FormatBusinessNumber(s1, f1, v1) == FormatBusinessNumber(s2, f2, v2)
    ensures s1 == s2 && f1 == f2 && v1 == v2
  {
    ParseUndoesFormat(s1, f1, v1);
    ParseUndoesFormat(s2, f2, v2);
  }

  /** A run of digits read and printed has lost its first `k` zeros. */
  lemma PrintedTail(s: string) returns (k: nat)
    requires AllDigits(s) && |s| > 0
    ensures k < |s| && Print(ParseInt(s)) == s[k..] && Read(s) == Zeros(k) + Read(s)[k..]
    ensures k == 0 <==> |s| == 1 || s[0] != '0'
  {
    var ds := Read(s);
    k := DigitsDropZeros(ds);
    TailPrints(s, k);
    ZeroReads(s[0]);
  }

  lemma ZeroReads(c: char)
    requires IsDigit(c)
    ensures DigitOf(c) == 0 <==> c == '0'
  {
  }

  /** A run of digits is printed back as it was exactly when it is as long as the width or
      has no zero to lose. */
  lemma PaddingPrintsBack(s: string, width: nat)
    requires AllDigits(s) && |s| >= width && |s| > 0
    ensures PadStart(Print(ParseInt(s)), width) == s <==> |s| == width || |s| == 1 || s[0] != '0'
  {
    var k := PrintedTail(s);
    if |s| == width {
      LeadingZeros(s, k);
    }
    PadShapes(s, k, width);
  }

  /** Padding what is left without `k` leading zeros. */
  lemma PadShapes(s: string, k: nat, width: nat)
    requires k <= |s| && width <= |s|
    ensures k == 0 ==> PadStart(s[k..], width) == s
    ensures |s| > width && k > 0 ==> |PadStart(s[k..], width)| < |s|
    ensures |s| == width && seq(k, _ => '0') + s[k..] == s ==> PadStart(s[k..], width) == s
  {
  }

  lemma TailPrints(s: string, k: nat)
    requires AllDigits(s) && k <= |s|
    ensures Show(Read(s)[k..]) == s[k..]
  {
  }

  lemma LeadingZeros(s: string, k: nat)
    requires AllDigits(s) && k <= |s| && Read(s) == Zeros(k) + Read(s)[k..]
    ensures seq(k, _ => '0') + s[k..] == s
  {
    forall i | 0 <= i < k
      ensures s[i] == '0'
    {
      assert Read(s)[i] == (Zeros(k) + Read(s)[k..])[i];
    }
  }

  /** Formatting what was parsed gives the text back exactly when its counter has five
      digits or no leading zero; longer runs with leading zeros are accepted and shortened. */
  lemma FormatUndoesParse(scope: Scope, t: string)
    requires ParseTail(scope, t).Some? && ParseTail(scope, t).value.value <= 9007199254740991
    ensures var p := ParseTail(scope, t).value;
            FormatBusinessNumber(p.scope, p.fiscalYear, p.value) == Ok(Prefix(scope) + "-" + t)
            <==> |t| == 10 || t[5] != '0'
  {
    AllDigitsPart(t[..4], 2);
    var a, b, v := t[..4][..2], t[..4][2..], t[5..];
    var p := ParseTail(scope, t).value;
    PaddingPrintsBack(a, 2);
    PaddingPrintsBack(b, 2);
    PaddingPrintsBack(v, SEQUENCE_WIDTH);
    TwoDigitValue(a);
    FormatShape(p.scope, p.fiscalYear, p.value);
    assert t == a + b + "-" + v;
    SameTail(Prefix(scope) + "-", a + b + "-", ValueText(p.value), v);
  }

  lemma TwoDigitValue(s: string)
    requires AllDigits(s) && |s| == 2
    ensures ParseInt(s) <= 99
  {
    var ds := Read(s);
    assert ds[..1] == [ds[0]] && ds[..1][..0] == [];
    assert Value(ds[..1]) == ds[0];
  }

  lemma SameTail(head: string, middle: string, v: string, w: string)
    ensures head + (middle + v) == head + (middle + w) <==> v == w
  {
    if head + (middle + v) == head + (middle + w) {
      assert (head + (middle + v))[|head| + |middle|..] == v;
      assert (head + (middle + w))[|head| + |middle|..] == w;
    }
  }

  // ----- allocation -----

  datatype Issued = Issued(scope: Scope, fiscalYear: nat, value: nat)

  /** The counter of a scope and year, and every number issued so far. */
  datatype Sequences = Sequences(current: map<(Scope, nat), nat>, issued: seq<Issued>)

  /** next_in_sequence: 1 the first time, then one more each time. */
  function Allocate(s: Sequences, scope: Scope, fiscalYear: nat): Sequences {
    var key := (scope, fiscalYear);
    var value := if key in s.current then s.current[key] + 1 else 1;
    Sequences(s.current[key := value], s.issued + [Issued(scope, fiscalYear, value)])
  }

  function AllocateAll(requests: seq<(Scope, nat)>): Sequences {
    if requests == [] then Sequences(map[], [])
    else
      var last := requests[|requests| - 1];
      Allocate(AllocateAll(requests[..|requests| - 1]), last.0, last.1)
  }

  ghost predicate Counted(s: Sequences) {
    && (forall i :: 0 <= i < |s.issued| ==>
          (s.issued[i].scope, s.issued[i].fiscalYear) in s.current
          && s.issued[i].value <= s.current[(s.issued[i].scope, s.issued[i].fiscalYear)])
    && (forall i, j :: 0 <= i < j < |s.issued| ==> s.issued[i] != s.issued[j])
  }

  lemma {:induction false} AllocationCounts(requests: seq<(Scope, nat)>)
    ensures Counted(AllocateAll(requests)) && |AllocateAll(requests).issued| == |requests|
  {
    if requests == [] {
    } else {
      AllocationCounts(requests[..|requests| - 1]);
    }
  }

  /** No two allocations ever print the same number, across all scopes and years. */
  lemma NumbersAreUnique(requests: seq<(Scope, nat)>, i: nat, j: nat)
    requires i < j < |AllocateAll(requests).issued|
    requires var a := AllocateAll(requests).issued[i]; a.fiscalYear <= 99 && a.value <= 9007199254740991
    requires var b := AllocateAll(requests).issued[j]; b.fiscalYear <= 99 && b.value <= 9007199254740991
    ensures var a, b := AllocateAll(requests).issued[i], AllocateAll(requests).issued[j];
            FormatBusinessNumber(a.scope, a.fiscalYear, a.value) != FormatBusinessNumber(b.scope, b.fiscalYear, b.value)
  {
    AllocationCounts(requests);
    var a, b := AllocateAll(requests).issued[i], AllocateAll(requests).issued[j];
    FormatRange(a.scope, a.fiscalYear, a.value);
    if FormatBusinessNumber(a.scope, a.fiscalYear, a.value) == FormatBusinessNumber(b.scope, b.fiscalYear, b.value) {
      FormatIsInjective(a.scope, a.fiscalYear, a.value, b.scope, b.fiscalYear, b.value);
    }
  }

  // ----- the texts, character by character -----

  /** The four prefixes. */
  predicate PrefixIs(scope: Scope, head: string) {
    match scope
    case Job => head == "JC"
    case Sale => head == "SL"
    case Payment => head == "PM"
    case Contract => head == "AMC"
  }

  /** The text is a decimal numeral of `n`, leading zeros allowed. */
  predicate Denotes(text: string, n: nat)
    decreases |text|
  {
    if text == "" then n == 0
    else
      var c := text[|text| - 1];
      '0' <= c <= '9' && c as int - '0' as int == n % 10 && Denotes(text[..|text| - 1], n / 10)
  }

  lemma {:induction false} PrintShows(n: nat)
    ensures Denotes(Print(n), n) && Print(n) != "" && (Print(n)[0] == '0' ==> n == 0)
    ensures n < 10 ==> |Print(n)| == 1
    decreases n
  {
    var s := Print(n);
    if n < 10 {
      assert s == [CharOf(n)] && s[..0] == "";
    } else {
      PrintShows(n / 10);
      assert Digits(n)[..|Digits(n)| - 1] == Digits(n / 10);
      assert s[..|s| - 1] == Print(n / 10) && s[|s| - 1] == CharOf(n % 10);
    }
  }

  lemma {:induction false} ZerosShow(k: nat)
    ensures Denotes(seq(k, _ => '0'), 0)
    decreases k
  {
    if k > 0 {
      var zs: string := seq(k, _ => '0');
      assert zs[..k - 1] == seq(k - 1, _ => '0');
      ZerosShow(k - 1);
    }
  }

  /** In front of a whole number only zeros may stand. */
  lemma {:induction false} PaddedShows(k: nat, n: nat)
    ensures Denotes(seq(k, _ => '0') + Print(n), n)
    decreases n
  {
    var zs: string := seq(k, _ => '0');
    var text := zs + Print(n);
    PrintShows(n);
    assert text[..|text| - 1] == zs + Print(n)[..|Print(n)| - 1];
    if n < 10 {
      ZerosShow(k);
      assert Print(n)[..0] == "" && text[..|text| - 1] == zs;
    } else {
      assert Digits(n)[..|Digits(n)| - 1] == Digits(n / 10);
      assert Print(n)[..|Print(n)| - 1] == Print(n / 10);
      PaddedShows(k, n / 10);
    }
  }

  lemma PadShows(n: nat, width: nat)
    ensures Denotes(PadStart(Print(n), width), n) && |PadStart(Print(n), width)| >= width
    ensures |PadStart(Print(n), width)| > width ==> PadStart(Print(n), width)[0] != '0' || n == 0
  {
    PrintShows(n);
    if |Print(n)| < width {
      PaddedShows(width - |Print(n)|, n);
    }
  }

  /** Prefix, dash, two consecutive short years of two digits each, dash, and a counter of
      at least five digits. */
  predicate Assembled(text: string, scope: Scope, fiscalYear: nat, value: nat,
      head: string, from: string, to: string, counter: string)
  {
    && text == head + "-" + (from + to + "-" + counter) && PrefixIs(scope, head)
    && |from| == 2 && Denotes(from, fiscalYear) && |to| == 2 && Denotes(to, (fiscalYear + 1) % 100)
    && |counter| >= 5 && Denotes(counter, value)
  }

  lemma YearShows(n: nat)
    requires n < 100
    ensures |YearText(n)| == 2 && Denotes(YearText(n), n)
  {
    PadShows(n, 2);
    TwoDigits(n);
  }

  /** A number is its prefix, the two short years and its counter, which has five digits or
      as many more as it needs; a negative counter is refused first, then a year outside
      0 to 99, each with its own error. */
  lemma FormatIsDecided(scope: Scope, fiscalYear: int, value: SafeInteger)
    ensures value < 0 ==> FormatBusinessNumber(scope, fiscalYear, value) == Err(BadValue)
    ensures 0 <= value && !(0 <= fiscalYear <= 99) ==>
              FormatBusinessNumber(scope, fiscalYear, value) == Err(BadFiscalYear)
    ensures 0 <= value && 0 <= fiscalYear <= 99 ==>
              FormatBusinessNumber(scope, fiscalYear, value).Ok?
              && Shortest(FormatBusinessNumber(scope, fiscalYear, value).value, scope, fiscalYear, value)
  {
    if 0 <= value && 0 <= fiscalYear <= 99 {
      FormatShape(scope, fiscalYear, value);
      YearShows(fiscalYear);
      YearShows((fiscalYear + 1) % 100);
      PadShows(value, 5);
      ValueReads(value);
      PrintShows(value);
      assert Assembled(FormatBusinessNumber(scope, fiscalYear, value).value, scope, fiscalYear, value,
          Prefix(scope), YearText(fiscalYear), YearText((fiscalYear + 1) % 100), ValueText(value));
    }
  }

  /** A counter longer than five digits has no zero to lose. */
  ghost predicate Shortest(text: string, scope: Scope, fiscalYear: nat, value: nat) {
    exists head, from, to, counter ::
      Assembled(text, scope, fiscalYear, value, head, from, to, counter) && (|counter| > 5 ==> counter[0] != '0')
  }

  lemma {:induction false} DenotesIsRead(s: string, n: nat)
    ensures Denotes(s, n) <==> AllDigits(s) && ParseInt(s) == n
    decreases |s|
  {
    if s != "" {
      var front := s[..|s| - 1];
      DenotesIsRead(front, n / 10);
      assert AllDigits(s) <==> AllDigits(front) && IsDigit(s[|s| - 1]);
      if AllDigits(s) {
        assert Read(s)[..|s| - 1] == Read(front);
        assert ParseInt(s) == 10 * ParseInt(front) + DigitOf(s[|s| - 1]);
      }
    }
  }

  ghost predicate Reads(text: string, scope: Scope, fiscalYear: nat, value: nat) {
    exists head, from, to, counter :: Assembled(text, scope, fiscalYear, value, head, from, to, counter)
  }

  lemma PartsAreRead(text: string, scope: Scope, fiscalYear: nat, value: nat,
      head: string, from: string, to: string, counter: string)
    requires Assembled(text, scope, fiscalYear, value, head, from, to, counter)
    ensures head == Prefix(scope) && |from| == 2 && |to| == 2 && |counter| >= 5
    ensures AllDigits(from) && AllDigits(to) && AllDigits(counter)
    ensures ParseInt(from) == fiscalYear && ParseInt(to) == (fiscalYear + 1) % 100 && ParseInt(counter) == value
  {
    DenotesIsRead(from, fiscalYear);
    DenotesIsRead(to, (fiscalYear + 1) % 100);
    DenotesIsRead(counter, value);
  }

  lemma TextIsRead(text: string, scope: Scope, fiscalYear: nat, value: nat,
      head: string, from: string, to: string, counter: string)
    requires Assembled(text, scope, fiscalYear, value, head, from, to, counter)
    ensures ParseBusinessNumber(Some(text)) == Some(Parsed(scope, fiscalYear, value))
  {
    PartsAreRead(text, scope, fiscalYear, value, head, from, to, counter);
    var tail := from + to + "-" + counter;
    PrefixIsRecognised(scope, tail);
    TailParses(scope, from, to, counter);
    assert ParseTail(scope, tail) == Some(Parsed(scope, fiscalYear, value));
  }

  lemma TailIsRead(head: string, scope: Scope, t: string)
    requires PrefixIs(scope, head) && ParseTail(scope, t).Some?
    ensures ParseTail(scope, t).value.scope == scope
    ensures Reads(head + "-" + t, scope, ParseTail(scope, t).value.fiscalYear, ParseTail(scope, t).value.value)
  {
    AllDigitsPart(t[..4], 2);
    var from, to, counter := t[..4][..2], t[..4][2..], t[5..];
    var p := ParseTail(scope, t).value;
    DenotesIsRead(from, p.fiscalYear);
    DenotesIsRead(to, (p.fiscalYear + 1) % 100);
    DenotesIsRead(counter, p.value);
    assert t == from + to + "-" + counter;
    assert Assembled(head + "-" + t, scope, p.fiscalYear, p.value, head, from, to, counter);
  }

  /** The parser accepts exactly the texts of that shape, with exactly those parts; a
      missing number and every other text are no number. */
  lemma ParseIsDecided(raw: Option<string>, p: Parsed)
    ensures ParseBusinessNumber(raw) == Some(p) <==> raw.Some? && Reads(raw.value, p.scope, p.fiscalYear, p.value)
  {
    if raw.Some? && Reads(raw.value, p.scope, p.fiscalYear, p.value) {
      var head, from, to, counter :|
        Assembled(raw.value, p.scope, p.fiscalYear, p.value, head, from, to, counter);
      TextIsRead(raw.value, p.scope, p.fiscalYear, p.value, head, from, to, counter);
    }
    if ParseBusinessNumber(raw) == Some(p) {
      var s := raw.value;
      if |s| > 3 && s[..3] == "JC-" {
        assert s == "JC" + "-" + s[3..];
        TailIsRead("JC", Job, s[3..]);
      } else if |s| > 3 && s[..3] == "SL-" {
        assert s == "SL" + "-" + s[3..];
        TailIsRead("SL", Sale, s[3..]);
      } else if |s| > 3 && s[..3] == "PM-" {
        assert s == "PM" + "-" + s[3..];
        TailIsRead("PM", Payment, s[3..]);
      } else {
        assert s == "AMC" + "-" + s[4..];
        TailIsRead("AMC", Contract, s[4..]);
      }
    }
  }

  // ----- the counters -----

  /** How many of the requests name this scope and year. */
  function Asked(requests: seq<(Scope, nat)>, scope: Scope, fiscalYear: nat): nat {
    if requests == [] then 0
    else
      var last := |requests| - 1;
      Asked(requests[..last], scope, fiscalYear) + if requests[last] == (scope, fiscalYear) then 1 else 0
  }

  /** Each scope counts 1, 2, 3 in each year, whatever is allocated in between: a number is
      one more than the allocations its scope and year had before it. */
  lemma {:induction false} AllocationIsDecided(requests: seq<(Scope, nat)>, i: nat)
    requires i < |requests|
    ensures i < |AllocateAll(requests).issued|
    ensures var (scope, year) := requests[i];
            AllocateAll(requests).issued[i] == Issued(scope, year, Asked(requests[..i], scope, year) + 1)
    decreases |requests|
  {
    var last := |requests| - 1;
    AllocationCounts(requests);
    AllocationCounts(requests[..last]);
    if i < last {
      AllocationIsDecided(requests[..last], i);
      assert requests[..last][..i] == requests[..i];
    } else {
      CountersStand(requests[..last], requests[last].0, requests[last].1);
    }
  }

  lemma {:induction false} CountersStand(requests: seq<(Scope, nat)>, scope: Scope, year: nat)
    ensures var current := AllocateAll(requests).current;
            if (scope, year) in current then Asked(requests, scope, year) == current[(scope, year)]
            else Asked(requests, scope, year) == 0
    decreases |requests|
  {
    if requests != [] {
      CountersStand(requests[..|requests| - 1], scope, year);
    }
  }
}

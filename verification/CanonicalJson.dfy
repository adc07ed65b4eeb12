/**
 * `canonicalJson` of packages/shared/src/canonical.ts.  Main result: two printable values
 * have the same canonical text exactly when they are the same up to property order,
 * dropped undefined properties and the sign of zero.  The proof prints a normal form
 * and reads it back with a parser.
 */
module CanonicalJson {
  import opened Prelude
  import opened JsonText
  import Sorting

  /** A JavaScript value; `Unsupported` is a function or a symbol. */
  datatype Json =
    | Undefined
    | Unsupported
    | Null
    | Bool(b: bool)
    | Number(n: JsonText.Number)
    | String(s: Text)
    | Array(items: seq<Json>)
    | Object(props: seq<Prop>)

  datatype Prop = Prop(key: Text, value: Json)

  datatype Refusal = TooDeep | NonFinite | UndefinedInArray | UndefinedAtTop | NotJson

  const MAX_DEPTH: nat := 512

  const NULL_TEXT: Text := [0x6E, 0x75, 0x6C, 0x6C]
  const TRUE_TEXT: Text := [0x74, 0x72, 0x75, 0x65]
  const FALSE_TEXT: Text := [0x66, 0x61, 0x6C, 0x73, 0x65]
  const LEFT_BRACKET: CodeUnit := 0x5B
  const RIGHT_BRACKET: CodeUnit := 0x5D
  const LEFT_BRACE: CodeUnit := 0x7B
  const RIGHT_BRACE: CodeUnit := 0x7D

  // ----- the source -----

  /** JavaScript's `<=` on strings: by code unit. */
  predicate KeyLe(a: Text, b: Text) {
    a == [] || (b != [] && (a[0] < b[0] || (a[0] == b[0] && KeyLe(a[1..], b[1..]))))
  }

  function Defined(props: seq<Prop>): seq<Prop> {
    if props == [] then []
    else (if props[0].value.Undefined? then [] else [props[0]]) + Defined(props[1..])
  }

  lemma {:induction false} DefinedMembers(props: seq<Prop>, p: Prop)
    ensures p in Defined(props) <==> p in props && !p.value.Undefined?
  {
    if props == [] {
    } else {
      DefinedMembers(props[1..], p);
    }
  }

  const BY_KEY: (Prop, Prop) -> bool := (p: Prop, q: Prop) => KeyLe(p.key, q.key)

  /** `Object.entries(value).filter(defined).sort(by key)`. */
  function Entries(props: seq<Prop>): seq<Prop> {
    Sorting.Sort(Defined(props), BY_KEY)
  }

  lemma EntriesMembers(props: seq<Prop>, p: Prop)
    ensures p in Entries(props) <==> p in props && !p.value.Undefined?
  {
    DefinedMembers(props, p);
    Sorting.SortKeepsMembers(Defined(props), BY_KEY, p);
  }

  lemma EntriesAreParts(v: Json)
    requires v.Object?
    ensures forall p :: p in Entries(v.props) ==> p.value < v && !p.value.Undefined?
  {
    forall p | p in Entries(v.props)
      ensures p.value < v && !p.value.Undefined?
    {
      EntriesMembers(v.props, p);
    }
  }

  function Join(parts: seq<Text>): Text {
    if parts == [] then []
    else if |parts| == 1 then parts[0]
    else parts[0] + [COMMA] + Join(parts[1..])
  }

  /** canonicalise: None is the property that its caller drops. */
  function Canonicalise(v: Json, depth: nat, inArray: bool): Result<Option<Text>, Refusal>
    requires WellTyped(v)
    decreases v, 1
  {
    if depth > MAX_DEPTH then Err(TooDeep)
    else match v
      case String(s) => Ok(Some(Quote(s)))
      case Bool(b) => Ok(Some(if b then TRUE_TEXT else FALSE_TEXT))
      case Number(n) => if n.NaN? || n.Infinity? then Err(NonFinite) else Ok(Some(PrintNumber(n)))
      case Undefined => if inArray then Err(UndefinedInArray) else Ok(None)
      case Null => Ok(Some(NULL_TEXT))
      case Array(items) =>
        var parts := CanonicaliseItems(v, items, depth + 1);
        if parts.Err? then Err(parts.error)
        else Ok(Some([LEFT_BRACKET] + Join(parts.value) + [RIGHT_BRACKET]))
      case Object(props) =>
        EntriesAreParts(v);
        EntriesWellTyped(v);
        var parts := CanonicaliseEntries(v, Entries(props), depth + 1);
        if parts.Err? then Err(parts.error)
        else Ok(Some([LEFT_BRACE] + Join(parts.value) + [RIGHT_BRACE]))
      case Unsupported => Err(NotJson)
  }

  function CanonicaliseItems(v: Json, items: seq<Json>, depth: nat): Result<seq<Text>, Refusal>
    requires forall i :: 0 <= i < |items| ==> items[i] < v && WellTyped(items[i])
    decreases v, 0, |items|
  {
    if items == [] then Ok([])
    else
      var first := Canonicalise(items[0], depth, true);
      if first.Err? then Err(first.error)
      else
        var rest := CanonicaliseItems(v, items[1..], depth);
        if rest.Err? then rest
        else Ok([if first.value.Some? then first.value.value else []] + rest.value)
  }

  function CanonicaliseEntries(v: Json, entries: seq<Prop>, depth: nat): Result<seq<Text>, Refusal>
    requires forall p :: p in entries ==> p.value < v && !p.value.Undefined? && WellTyped(p.value)
    decreases v, 0, |entries|
  {
    if entries == [] then Ok([])
    else
      var first := Canonicalise(entries[0].value, depth, false);
      if first.Err? then Err(first.error)
      else
        var rest := CanonicaliseEntries(v, entries[1..], depth);
        if rest.Err? then rest
        else Ok([Quote(entries[0].key) + [COLON] + (if first.value.Some? then first.value.value else [])] + rest.value)
  }

  /** The exported function. */
  function CanonicalJson(v: Json): Result<Text, Refusal>
    requires WellTyped(v)
  {
    var out := Canonicalise(v, 0, false);
    if out.Err? then Err(out.error)
    else if out.value.None? then Err(UndefinedAtTop)
    else Ok(out.value.value)
  }

  /** What JavaScript guarantees: shortest numbers, and no key twice in one object. */
  predicate WellTyped(v: Json) {
    match v
    case Number(n) => ShortestForm(n)
    case Array(items) => forall i :: 0 <= i < |items| ==> WellTyped(items[i])
    case Object(props) =>
      && (forall p :: p in props ==> WellTyped(p.value))
      && (forall i, j :: 0 <= i < j < |props| ==> props[i].key != props[j].key)
    case _ => true
  }

  lemma EntriesWellTyped(v: Json)
    requires v.Object? && WellTyped(v)
    ensures forall p :: p in Entries(v.props) ==> WellTyped(p.value)
  {
    forall p | p in Entries(v.props)
      ensures WellTyped(p.value)
    {
      EntriesMembers(v.props, p);
    }
  }

  // ----- the normal form and its printer -----

  /** Sorted keys, no undefined property, one zero. */
  function Norm(v: Json): Json
    decreases v, 1
  {
    match v
    case Number(n) => Number(if n.Zero? then Zero(false) else n)
    case Array(items) => Array(NormItems(v, items))
    case Object(props) =>
      EntriesAreParts(v);
      Object(NormEntries(v, Entries(props)))
    case _ => v
  }

  function NormItems(v: Json, items: seq<Json>): (r: seq<Json>)
    requires forall i :: 0 <= i < |items| ==> items[i] < v
    ensures |r| == |items|
    decreases v, 0, |items|
  {
    if items == [] then [] else [Norm(items[0])] + NormItems(v, items[1..])
  }

  function NormEntries(v: Json, entries: seq<Prop>): (r: seq<Prop>)
    requires forall p :: p in entries ==> p.value < v
    ensures |r| == |entries|
    decreases v, 0, |entries|
  {
    if entries == [] then [] else [Prop(entries[0].key, Norm(entries[0].value))] + NormEntries(v, entries[1..])
  }

  /** Prints a value as it stands. */
  function Render(v: Json): Text
    decreases v, 1
  {
    match v
    case Null => NULL_TEXT
    case Bool(b) => if b then TRUE_TEXT else FALSE_TEXT
    case Number(n) => if (n.Zero? || n.Finite?) && ShortestForm(n) then PrintNumber(n) else []
    case String(s) => Quote(s)
    case Array(items) => [LEFT_BRACKET] + RenderItems(v, items)
    case Object(props) => [LEFT_BRACE] + RenderProps(v, props)
    case _ => []
  }

  /** The items with their commas and the closing bracket. */
  function RenderItems(v: Json, items: seq<Json>): Text
    requires forall i :: 0 <= i < |items| ==> items[i] < v
    decreases v, 0, |items|
  {
    if items == [] then [RIGHT_BRACKET]
    else if |items| == 1 then Render(items[0]) + [RIGHT_BRACKET]
    else Render(items[0]) + ([COMMA] + RenderItems(v, items[1..]))
  }

  function RenderProps(v: Json, props: seq<Prop>): Text
    requires forall p :: p in props ==> p.value < v
    decreases v, 0, |props|
  {
    if props == [] then [RIGHT_BRACE]
    else if |props| == 1 then Quote(props[0].key) + ([COLON] + (Render(props[0].value) + [RIGHT_BRACE]))
    else Quote(props[0].key) + ([COLON] + (Render(props[0].value) + ([COMMA] + RenderProps(v, props[1..]))))
  }

  // ----- the text is the rendering of the normal form -----

  /** The values canonicalJson accepts at this depth. */
  predicate Printable(v: Json, depth: nat)
    decreases v
  {
    depth <= MAX_DEPTH &&
    match v
    case Undefined => false
    case Unsupported => false
    case Number(n) => !n.NaN? && !n.Infinity?
    case Array(items) => forall i :: 0 <= i < |items| ==> Printable(items[i], depth + 1)
    case Object(props) => forall p :: p in props ==> p.value.Undefined? || Printable(p.value, depth + 1)
    case _ => true
  }

  /** canonicalise accepts exactly the printable values and prints their normal form. */
  lemma {:induction false} PrintsTheNormalForm(v: Json, depth: nat, inArray: bool)
    requires WellTyped(v) && !v.Undefined?
    ensures Canonicalise(v, depth, inArray).Ok? <==> Printable(v, depth)
    ensures Canonicalise(v, depth, inArray).Ok? ==> Canonicalise(v, depth, inArray).value == Some(Render(Norm(v)))
    decreases v, 2
  {
    if depth <= MAX_DEPTH {
      match v
      case Array(_) => ArrayPrintsNormally(v, depth, inArray);
      case Object(_) => ObjectPrintsNormally(v, depth, inArray);
      case _ =>
    }
  }

  lemma {:induction false} ArrayPrintsNormally(v: Json, depth: nat, inArray: bool)
    requires WellTyped(v) && v.Array? && depth <= MAX_DEPTH
    ensures Canonicalise(v, depth, inArray).Ok? <==> Printable(v, depth)
    ensures Canonicalise(v, depth, inArray).Ok? ==> Canonicalise(v, depth, inArray).value == Some(Render(Norm(v)))
    decreases v, 1
  {
    ItemsPrintNormally(v, v.items, depth + 1, Norm(v));
    assert forall i :: 0 <= i < |v.items| ==> !v.items[i].Undefined? || !Printable(v.items[i], depth + 1);
    if CanonicaliseItems(v, v.items, depth + 1).Ok? {
      Regroup([LEFT_BRACKET], Join(CanonicaliseItems(v, v.items, depth + 1).value), [RIGHT_BRACKET]);
    }
  }

  lemma {:induction false} ObjectPrintsNormally(v: Json, depth: nat, inArray: bool)
    requires WellTyped(v) && v.Object? && depth <= MAX_DEPTH
    ensures Canonicalise(v, depth, inArray).Ok? <==> Printable(v, depth)
    ensures Canonicalise(v, depth, inArray).Ok? ==> Canonicalise(v, depth, inArray).value == Some(Render(Norm(v)))
    decreases v, 1
  {
    EntriesAreParts(v);
    EntriesWellTyped(v);
    EntriesPrintNormally(v, Entries(v.props), depth + 1, Norm(v));
    forall p
      ensures p in Entries(v.props) <==> p in v.props && !p.value.Undefined?
    {
      EntriesMembers(v.props, p);
    }
    if CanonicaliseEntries(v, Entries(v.props), depth + 1).Ok? {
      Regroup([LEFT_BRACE], Join(CanonicaliseEntries(v, Entries(v.props), depth + 1).value), [RIGHT_BRACE]);
    }
  }

  lemma JoinCons(part: Text, parts: seq<Text>, close: CodeUnit)
    ensures Join([part] + parts) + [close] ==
            if parts == [] then part + [close] else part + ([COMMA] + (Join(parts) + [close]))
  {
    assert ([part] + parts)[1..] == parts;
    Regroup(part + [COMMA], Join(parts), [close]);
    Regroup(part, [COMMA], Join(parts) + [close]);
  }

  lemma JoinEntry(key: Text, value: Text, parts: seq<Text>)
    ensures Join([key + [COLON] + value] + parts) + [RIGHT_BRACE] ==
            if parts == [] then key + ([COLON] + (value + [RIGHT_BRACE]))
            else key + ([COLON] + (value + ([COMMA] + (Join(parts) + [RIGHT_BRACE]))))
  {
    JoinCons(key + [COLON] + value, parts, RIGHT_BRACE);
    var end := if parts == [] then [RIGHT_BRACE] else [COMMA] + (Join(parts) + [RIGHT_BRACE]);
    Regroup(key + [COLON], value, end);
    Regroup(key, [COLON], value + end);
  }

  lemma {:induction false} ItemsPrintNormally(v: Json, items: seq<Json>, depth: nat, parent: Json)
    requires forall i :: 0 <= i < |items| ==> items[i] < v && WellTyped(items[i])
    requires forall i :: 0 <= i < |items| ==> NormItems(v, items)[i] < parent
    ensures var r := CanonicaliseItems(v, items, depth);
            && (r.Ok? <==> forall i :: 0 <= i < |items| ==> Printable(items[i], depth))
            && (r.Ok? ==> |r.value| == |items|)
            && (r.Ok? ==> Join(r.value) + [RIGHT_BRACKET] == RenderItems(parent, NormItems(v, items)))
    decreases v, 0, |items|
  {
    if items == [] {
    } else {
      if !items[0].Undefined? {
        PrintsTheNormalForm(items[0], depth, true);
      }
      NormItemsTail(v, items, parent);
      ItemsPrintNormally(v, items[1..], depth, parent);
      var rest := CanonicaliseItems(v, items[1..], depth);
      AllItemsPrintable(items, depth);
      if CanonicaliseItems(v, items, depth).Ok? {
        JoinCons(Render(Norm(items[0])), rest.value, RIGHT_BRACKET);
      }
    }
  }

  lemma NormItemsTail(v: Json, items: seq<Json>, parent: Json)
    requires items != [] && forall i :: 0 <= i < |items| ==> items[i] < v
    requires forall i :: 0 <= i < |items| ==> NormItems(v, items)[i] < parent
    ensures NormItems(v, items) == [Norm(items[0])] + NormItems(v, items[1..])
    ensures forall i :: 0 <= i < |items| - 1 ==> NormItems(v, items[1..])[i] < parent
  {
    var normal := NormItems(v, items);
    forall i | 0 <= i < |items| - 1
      ensures NormItems(v, items[1..])[i] < parent
    {
      assert normal[i + 1] < parent;
    }
  }

  lemma AllItemsPrintable(items: seq<Json>, depth: nat)
    requires items != []
    ensures (forall i :: 0 <= i < |items| ==> Printable(items[i], depth)) <==>
            Printable(items[0], depth) && forall i :: 0 <= i < |items[1..]| ==> Printable(items[1..][i], depth)
  {
    assert forall i :: 0 < i < |items| ==> items[i] == items[1..][i - 1];
  }

  lemma AllPrintable(entries: seq<Prop>, depth: nat)
    requires entries != []
    ensures (forall p :: p in entries ==> Printable(p.value, depth)) <==>
            Printable(entries[0].value, depth) && forall p :: p in entries[1..] ==> Printable(p.value, depth)
  {
    assert entries == [entries[0]] + entries[1..];
  }

  lemma {:induction false} EntriesPrintNormally(v: Json, entries: seq<Prop>, depth: nat, parent: Json)
    requires forall p :: p in entries ==> p.value < v && !p.value.Undefined? && WellTyped(p.value)
    requires forall p :: p in NormEntries(v, entries) ==> p.value < parent
    ensures var r := CanonicaliseEntries(v, entries, depth);
            && (r.Ok? <==> forall p :: p in entries ==> Printable(p.value, depth))
            && (r.Ok? ==> |r.value| == |entries|)
            && (r.Ok? ==> Join(r.value) + [RIGHT_BRACE] == RenderProps(parent, NormEntries(v, entries)))
    decreases v, 0, |entries|
  {
    if entries == [] {
    } else {
      PrintsTheNormalForm(entries[0].value, depth, false);
      var normal := NormEntries(v, entries);
      assert normal[1..] == NormEntries(v, entries[1..]);
      EntriesPrintNormally(v, entries[1..], depth, parent);
      var rest := CanonicaliseEntries(v, entries[1..], depth);
      AllPrintable(entries, depth);
      if CanonicaliseEntries(v, entries, depth).Ok? {
        JoinEntry(Quote(entries[0].key), Render(Norm(entries[0].value)), rest.value);
      }
    }
  }

  // ----- the parser -----

  function ParseValue(t: Text): (r: Option<(Json, Text)>)
    ensures r.Some? ==> |r.value.1| < |t|
    decreases |t|, 1
  {
    if t == [] then None
    else if t[0] == NULL_TEXT[0] then if NULL_TEXT <= t then Some((Null, t[4..])) else None
    else if t[0] == TRUE_TEXT[0] then if TRUE_TEXT <= t then Some((Bool(true), t[4..])) else None
    else if t[0] == FALSE_TEXT[0] then if FALSE_TEXT <= t then Some((Bool(false), t[5..])) else None
    else if t[0] == QUOTE then
      var r := ReadString(t[1..]);
      if r.None? then None else Some((String(r.value.0), r.value.1))
    else if t[0] == LEFT_BRACKET then
      if |t| > 1 && t[1] == RIGHT_BRACKET then Some((Array([]), t[2..]))
      else
        var r := ParseItems(t[1..]);
        if r.None? then None else Some((Array(r.value.0), r.value.1))
    else if t[0] == LEFT_BRACE then
      if |t| > 1 && t[1] == RIGHT_BRACE then Some((Object([]), t[2..]))
      else
        var r := ParseProps(t[1..]);
        if r.None? then None else Some((Object(r.value.0), r.value.1))
    else if IsDigit(t[0]) || t[0] == MINUS then
      var r := ReadNumber(t);
      if |r.1| < |t| then Some((Number(r.0), r.1)) else None
    else None
  }

  function ParseItems(t: Text): (r: Option<(seq<Json>, Text)>)
    ensures r.Some? ==> |r.value.1| < |t|
    decreases |t|, 2
  {
    var first := ParseValue(t);
    if first.None? || first.value.1 == [] then None
    else if first.value.1[0] == RIGHT_BRACKET then Some(([first.value.0], first.value.1[1..]))
    else if first.value.1[0] != COMMA then None
    else
      var more := ParseItems(first.value.1[1..]);
      if more.None? then None else Some(([first.value.0] + more.value.0, more.value.1))
  }

  function ParseProps(t: Text): (r: Option<(seq<Prop>, Text)>)
    ensures r.Some? ==> |r.value.1| < |t|
    decreases |t|, 2
  {
    if t == [] || t[0] != QUOTE then None
    else
      var key := ReadString(t[1..]);
      if key.None? || key.value.1 == [] || key.value.1[0] != COLON then None
      else
        var value := ParseValue(key.value.1[1..]);
        if value.None? || value.value.1 == [] then None
        else
          var prop := Prop(key.value.0, value.value.0);
          if value.value.1[0] == RIGHT_BRACE then Some(([prop], value.value.1[1..]))
          else if value.value.1[0] != COMMA then None
          else
            var more := ParseProps(value.value.1[1..]);
            if more.None? then None else Some(([prop] + more.value.0, more.value.1))
  }

  /** What Norm yields for printable values: one zero, nothing undefined. */
  predicate NormalForm(v: Json) {
    match v
    case Undefined => false
    case Unsupported => false
    case Number(n) => (n == Zero(false) || n.Finite?) && ShortestForm(n)
    case Array(items) => forall i :: 0 <= i < |items| ==> NormalForm(items[i])
    case Object(props) => forall i :: 0 <= i < |props| ==> NormalForm(props[i].value)
    case _ => true
  }

  /** What may follow a value inside a text. */
  predicate EndsValue(rest: Text) {
    rest == [] || rest[0] == COMMA || rest[0] == RIGHT_BRACKET || rest[0] == RIGHT_BRACE
  }

  lemma RenderStarts(v: Json)
    requires NormalForm(v)
    ensures Render(v) != [] && Render(v)[0] != RIGHT_BRACKET && Render(v)[0] != RIGHT_BRACE && Render(v)[0] != COMMA
  {
    if v.Number? {
      NumberStarts(v.n);
    }
  }

  lemma WordsParse(rest: Text)
    ensures ParseValue(NULL_TEXT + rest) == Some((Null, rest))
    ensures ParseValue(TRUE_TEXT + rest) == Some((Bool(true), rest))
    ensures ParseValue(FALSE_TEXT + rest) == Some((Bool(false), rest))
  {
    assert (NULL_TEXT + rest)[4..] == rest;
    assert (TRUE_TEXT + rest)[4..] == rest;
    assert (FALSE_TEXT + rest)[5..] == rest;
  }

  lemma StringReads(s: Text, rest: Text)
    ensures (Quote(s) + rest)[0] == QUOTE && ReadString((Quote(s) + rest)[1..]) == Some((s, rest))
  {
    StringReadsBack(s, rest);
    TailOfQuoted(Escape(s), rest);
  }

  lemma TailOfQuoted(escaped: Text, rest: Text)
    ensures ([QUOTE] + escaped + [QUOTE] + rest)[1..] == escaped + ([QUOTE] + rest)
  {
  }

  lemma StringParses(s: Text, rest: Text)
    ensures ReadString((Quote(s) + rest)[1..]) == Some((s, rest))
    ensures ParseValue(Quote(s) + rest) == Some((String(s), rest))
  {
    StringReads(s, rest);
    QuotedParses(Quote(s) + rest, s, rest);
  }

  lemma QuotedParses(text: Text, s: Text, rest: Text)
    requires text != [] && text[0] == QUOTE && ReadString(text[1..]) == Some((s, rest))
    ensures ParseValue(text) == Some((String(s), rest))
  {
  }

  lemma NumberParses(n: JsonText.Number, rest: Text)
    requires (n == Zero(false) || n.Finite?) && ShortestForm(n) && EndsValue(rest)
    ensures ParseValue(PrintNumber(n) + rest) == Some((Number(n), rest))
  {
    NumberStarts(n);
    NumberReadsBack(n, rest);
    NumberTextParses(PrintNumber(n), n, rest);
  }

  lemma NumberTextParses(text: Text, n: JsonText.Number, rest: Text)
    requires text != [] && (IsDigit(text[0]) || text[0] == MINUS) && ReadNumber(text + rest) == (n, rest)
    ensures ParseValue(text + rest) == Some((Number(n), rest))
  {
    assert (text + rest)[0] == text[0];
  }

  /** Parsing the rendering of a normal form gives it back and leaves what follows. */
  lemma {:induction false} ParsesBack(v: Json, rest: Text)
    requires NormalForm(v) && EndsValue(rest)
    ensures ParseValue(Render(v) + rest) == Some((v, rest))
    decreases v, 1
  {
    match v
    case Null => WordsParse(rest);
    case Bool(b) => WordsParse(rest);
    case Number(n) => NumberParses(n, rest);
    case String(s) => StringParses(s, rest);
    case Array(items) =>
      ArrayText(v, rest);
      if items == [] {
        EmptyParses(v, rest);
      } else {
        ItemsParseBack(v, items, rest);
      }
    case Object(props) =>
      ObjectText(v, rest);
      if props == [] {
        EmptyParses(v, rest);
      } else {
        PropsParseBack(v, props, rest);
      }
  }

  lemma EmptyParses(v: Json, rest: Text)
    requires v == Array([]) || v == Object([])
    ensures ParseValue(Render(v) + rest) == Some((v, rest))
  {
    assert (Render(v) + rest)[2..] == rest;
  }

  lemma ArrayText(v: Json, rest: Text)
    requires v.Array? && NormalForm(v)
    ensures Render(v) + rest == [LEFT_BRACKET] + (RenderItems(v, v.items) + rest)
    ensures (Render(v) + rest)[1..] == RenderItems(v, v.items) + rest
    ensures v.items != [] ==> (Render(v) + rest)[1] != RIGHT_BRACKET
  {
    if v.items != [] {
      RenderStarts(v.items[0]);
      assert RenderItems(v, v.items)[0] == Render(v.items[0])[0];
      assert (Render(v) + rest)[1] == Render(v.items[0])[0];
    }
  }

  lemma ObjectText(v: Json, rest: Text)
    requires v.Object?
    ensures Render(v) + rest == [LEFT_BRACE] + (RenderProps(v, v.props) + rest)
    ensures (Render(v) + rest)[1..] == RenderProps(v, v.props) + rest
    ensures v.props != [] ==> (Render(v) + rest)[1] != RIGHT_BRACE
  {
    if v.props != [] {
      assert (Render(v) + rest)[1] == Quote(v.props[0].key)[0];
    }
  }

  /** What follows the first value of an array's text. */
  function AfterItem(v: Json, items: seq<Json>, rest: Text): (t: Text)
    requires items != [] && forall i :: 0 <= i < |items| ==> items[i] < v
    ensures t != []
  {
    if |items| == 1 then [RIGHT_BRACKET] + rest else [COMMA] + (RenderItems(v, items[1..]) + rest)
  }

  lemma ItemsText(v: Json, items: seq<Json>, rest: Text)
    requires items != [] && forall i :: 0 <= i < |items| ==> items[i] < v
    ensures RenderItems(v, items) + rest == Render(items[0]) + AfterItem(v, items, rest)
    ensures AfterItem(v, items, rest)[1..] == if |items| == 1 then rest else RenderItems(v, items[1..]) + rest
  {
    var value := Render(items[0]);
    if |items| == 1 {
      Regroup(value, [RIGHT_BRACKET], rest);
    } else {
      var more := RenderItems(v, items[1..]);
      Regroup(value, [COMMA] + more, rest);
      Regroup([COMMA], more, rest);
    }
  }

  lemma ItemParses(text: Text, v: Json, after: Text)
    requires after != [] && ParseValue(text + after) == Some((v, after))
    ensures ParseItems(text + after) ==
            if after[0] == RIGHT_BRACKET then Some(([v], after[1..]))
            else if after[0] != COMMA || ParseItems(after[1..]).None? then None
            else Some(([v] + ParseItems(after[1..]).value.0, ParseItems(after[1..]).value.1))
  {
  }

  lemma {:induction false} ItemsParseBack(v: Json, items: seq<Json>, rest: Text)
    requires items != [] && forall i :: 0 <= i < |items| ==> items[i] < v && NormalForm(items[i])
    ensures ParseItems(RenderItems(v, items) + rest) == Some((items, rest))
    decreases v, 0, |items|
  {
    var after := AfterItem(v, items, rest);
    ItemsText(v, items, rest);
    ParsesBack(items[0], after);
    ItemParses(Render(items[0]), items[0], after);
    assert items == [items[0]] + items[1..];
    if |items| > 1 {
      ItemsParseBack(v, items[1..], rest);
    } else {
      assert items == [items[0]];
    }
  }

  /** One property in front of the rest of an object. */
  lemma PropParses(p: Prop, after: Text)
    requires after != [] && ParseValue(Render(p.value) + after) == Some((p.value, after))
    ensures var t := Quote(p.key) + ([COLON] + (Render(p.value) + after));
            ParseProps(t) ==
              if after[0] == RIGHT_BRACE then Some(([p], after[1..]))
              else if after[0] != COMMA || ParseProps(after[1..]).None? then None
              else Some(([p] + ParseProps(after[1..]).value.0, ParseProps(after[1..]).value.1))
  {
    var value := Render(p.value) + after;
    StringParses(p.key, [COLON] + value);
    assert ([COLON] + value)[1..] == value;
  }

  /** What follows the first value of an object's text. */
  function AfterFirst(v: Json, props: seq<Prop>, rest: Text): (t: Text)
    requires props != [] && forall p :: p in props ==> p.value < v
    ensures t != []
  {
    if |props| == 1 then [RIGHT_BRACE] + rest else [COMMA] + (RenderProps(v, props[1..]) + rest)
  }

  lemma PropsText(v: Json, props: seq<Prop>, rest: Text)
    requires props != [] && forall p :: p in props ==> p.value < v
    ensures RenderProps(v, props) + rest ==
            Quote(props[0].key) + ([COLON] + (Render(props[0].value) + AfterFirst(v, props, rest)))
    ensures AfterFirst(v, props, rest)[1..] == if |props| == 1 then rest else RenderProps(v, props[1..]) + rest
  {
    var key, value := Quote(props[0].key), Render(props[0].value);
    var end := if |props| == 1 then [RIGHT_BRACE] else [COMMA] + RenderProps(v, props[1..]);
    Regroup(key, [COLON] + (value + end), rest);
    Regroup([COLON], value + end, rest);
    Regroup(value, end, rest);
    if |props| > 1 {
      Regroup([COMMA], RenderProps(v, props[1..]), rest);
    }
  }

  lemma {:induction false} PropsParseBack(v: Json, props: seq<Prop>, rest: Text)
    requires props != [] && forall p :: p in props ==> p.value < v && NormalForm(p.value)
    ensures ParseProps(RenderProps(v, props) + rest) == Some((props, rest))
    decreases v, 0, |props|
  {
    var after := AfterFirst(v, props, rest);
    PropsText(v, props, rest);
    ParsesBack(props[0].value, after);
    PropParses(props[0], after);
    assert props == [props[0]] + props[1..];
    if |props| > 1 {
      PropsParseBack(v, props[1..], rest);
    } else {
      assert props == [props[0]];
    }
  }

  /** Two normal forms with one rendering are one normal form. */
  lemma RenderingIsInjective(a: Json, b: Json)
    requires NormalForm(a) && NormalForm(b) && Render(a) == Render(b)
    ensures a == b
  {
    ParsesBack(a, []);
    ParsesBack(b, []);
    assert Render(a) + [] == Render(b) + [];
  }

  // ----- sameness of values -----

  ghost function DefinedKeys(props: seq<Prop>): set<Text> {
    set p | p in props && !p.value.Undefined? :: p.key
  }

  /** Equal up to property order, undefined properties and the sign of zero. */
  ghost predicate Same(a: Json, b: Json)
    decreases a
  {
    match a
    case Number(n) => b.Number? && (n == b.n || (n.Zero? && b.n.Zero?))
    case Array(items) =>
      b.Array? && |items| == |b.items| && forall i :: 0 <= i < |items| ==> Same(items[i], b.items[i])
    case Object(props) =>
      && b.Object?
      && DefinedKeys(props) == DefinedKeys(b.props)
      && (forall p :: p in props && !p.value.Undefined? ==>
            exists q :: q in b.props && q.key == p.key && !q.value.Undefined? && Same(p.value, q.value))
    case _ => a == b
  }

  lemma {:induction false} NormItemsAt(v: Json, items: seq<Json>, i: nat)
    requires (forall j :: 0 <= j < |items| ==> items[j] < v) && i < |items|
    ensures NormItems(v, items)[i] == Norm(items[i])
    decreases |items|
  {
    if i > 0 {
      NormItemsAt(v, items[1..], i - 1);
    }
  }

  lemma {:induction false} NormEntriesAt(v: Json, entries: seq<Prop>, i: nat)
    requires (forall p :: p in entries ==> p.value < v) && i < |entries|
    ensures NormEntries(v, entries)[i] == Prop(entries[i].key, Norm(entries[i].value))
    decreases |entries|
  {
    if i > 0 {
      NormEntriesAt(v, entries[1..], i - 1);
    }
  }

  lemma {:induction false} NormIsNormal(v: Json, depth: nat)
    requires WellTyped(v) && Printable(v, depth)
    ensures NormalForm(Norm(v))
    decreases v
  {
    match v
    case Array(items) =>
      forall i | 0 <= i < |items|
        ensures NormalForm(NormItems(v, items)[i])
      {
        NormItemsAt(v, items, i);
        NormIsNormal(items[i], depth + 1);
      }
    case Object(props) =>
      EntriesAreParts(v);
      var entries := Entries(props);
      forall i | 0 <= i < |entries|
        ensures NormalForm(NormEntries(v, entries)[i].value)
      {
        NormEntriesAt(v, entries, i);
        EntriesMembers(props, entries[i]);
        NormIsNormal(entries[i].value, depth + 1);
      }
    case _ =>
  }

  // ----- sorted entries -----

  lemma {:induction false} KeyLeIsTotal(a: Text, b: Text)
    ensures KeyLe(a, b) || KeyLe(b, a)
    ensures KeyLe(a, b) && KeyLe(b, a) ==> a == b
  {
    if a != [] && b != [] {
      KeyLeIsTotal(a[1..], b[1..]);
      assert a == [a[0]] + a[1..] && b == [b[0]] + b[1..];
    }
  }

  lemma {:induction false} KeyLeIsTransitive(a: Text, b: Text, c: Text)
    requires KeyLe(a, b) && KeyLe(b, c)
    ensures KeyLe(a, c)
  {
    if a != [] && a[0] == b[0] && b[0] == c[0] {
      KeyLeIsTransitive(a[1..], b[1..], c[1..]);
    }
  }

  lemma ByKeyIsTotal()
    ensures Sorting.TotalOrder(BY_KEY)
  {
    forall p, q
      ensures BY_KEY(p, q) || BY_KEY(q, p)
    {
      KeyLeIsTotal(p.key, q.key);
    }
    forall p, q, r | BY_KEY(p, q) && BY_KEY(q, r)
      ensures BY_KEY(p, r)
    {
      KeyLeIsTransitive(p.key, q.key, r.key);
    }
  }

  /** Keys ascend strictly. */
  ghost predicate Ascending(entries: seq<Prop>) {
    Sorting.Strict(entries, BY_KEY)
  }

  lemma {:induction false} DefinedDistinct(props: seq<Prop>)
    requires forall i, j :: 0 <= i < j < |props| ==> props[i].key != props[j].key
    ensures Sorting.Distinct(Defined(props))
  {
    if props == [] {
    } else {
      DefinedDistinct(props[1..]);
      DefinedMembers(props[1..], props[0]);
      assert props[0] !in props[1..];
    }
  }

  lemma KeyNamesOne(props: seq<Prop>, p: Prop, q: Prop)
    requires forall i, j :: 0 <= i < j < |props| ==> props[i].key != props[j].key
    requires p in props && q in props
    ensures p == q || p.key != q.key
  {
  }

  lemma EntriesAscend(v: Json)
    requires v.Object? && WellTyped(v)
    ensures Ascending(Entries(v.props))
  {
    var props := Defined(v.props);
    ByKeyIsTotal();
    DefinedDistinct(v.props);
    forall p, q | p in props && q in props && BY_KEY(p, q) && BY_KEY(q, p)
      ensures p == q
    {
      DefinedMembers(v.props, p);
      DefinedMembers(v.props, q);
      KeyLeIsTotal(p.key, q.key);
      KeyNamesOne(v.props, p, q);
    }
    Sorting.SortIsStrict(props, BY_KEY);
  }

  // ----- one normal form exactly for the same values -----

  lemma NormEntriesMembers(v: Json, entries: seq<Prop>, x: Prop)
    requires forall p :: p in entries ==> p.value < v
    ensures x in NormEntries(v, entries) <==>
        exists i :: 0 <= i < |entries| && x == Prop(entries[i].key, Norm(entries[i].value))
  {
    forall i | 0 <= i < |entries|
      ensures NormEntries(v, entries)[i] == Prop(entries[i].key, Norm(entries[i].value))
    {
      NormEntriesAt(v, entries, i);
    }
  }

  /** The normal form of an object, as members: one for each defined property. */
  lemma NormMembers(v: Json, x: Prop)
    requires v.Object?
    ensures x in Norm(v).props <==> exists p :: p in v.props && !p.value.Undefined? && x == Prop(p.key, Norm(p.value))
  {
    EntriesAreParts(v);
    var entries := Entries(v.props);
    NormEntriesMembers(v, entries, x);
    if x in Norm(v).props {
      var i :| 0 <= i < |entries| && x == Prop(entries[i].key, Norm(entries[i].value));
      EntriesMembers(v.props, entries[i]);
    }
    if p :| p in v.props && !p.value.Undefined? && x == Prop(p.key, Norm(p.value)) {
      EntriesMembers(v.props, p);
    }
  }

  lemma NormAscends(v: Json)
    requires v.Object? && WellTyped(v)
    ensures Ascending(Norm(v).props)
  {
    EntriesAreParts(v);
    EntriesAscend(v);
    var entries := Entries(v.props);
    forall i | 0 <= i < |entries|
      ensures NormEntries(v, entries)[i].key == entries[i].key
    {
      NormEntriesAt(v, entries, i);
    }
  }

  lemma {:induction false} SameHaveOneNorm(a: Json, b: Json)
    requires WellTyped(a) && WellTyped(b) && Same(a, b)
    ensures Norm(a) == Norm(b)
    decreases a, 1
  {
    match a
    case Array(items) =>
      forall i | 0 <= i < |items|
        ensures NormItems(a, items)[i] == NormItems(b, b.items)[i]
      {
        SameHaveOneNorm(items[i], b.items[i]);
        NormItemsAt(a, items, i);
        NormItemsAt(b, b.items, i);
      }
    case Object(props) =>
      forall x
        ensures x in Norm(a).props <==> x in Norm(b).props
      {
        if x in Norm(a).props { MemberCrosses(a, b, x); }
        if x in Norm(b).props { MemberCrossesBack(a, b, x); }
      }
      NormAscends(a);
      NormAscends(b);
      Sorting.StrictIsUnique(Norm(a).props, Norm(b).props, BY_KEY);
    case _ =>
  }

  lemma {:induction false} MemberCrosses(a: Json, b: Json, x: Prop)
    requires a.Object? && WellTyped(a) && WellTyped(b) && Same(a, b)
    requires x in Norm(a).props
    ensures x in Norm(b).props
    decreases a, 0
  {
    NormMembers(a, x);
    var p :| p in a.props && !p.value.Undefined? && x == Prop(p.key, Norm(p.value));
    var q :| q in b.props && q.key == p.key && !q.value.Undefined? && Same(p.value, q.value);
    SameHaveOneNorm(p.value, q.value);
    NormMembers(b, x);
  }

  lemma {:induction false} MemberCrossesBack(a: Json, b: Json, x: Prop)
    requires a.Object? && WellTyped(a) && WellTyped(b) && Same(a, b)
    requires x in Norm(b).props
    ensures x in Norm(a).props
    decreases a, 0
  {
    NormMembers(b, x);
    var q' :| q' in b.props && !q'.value.Undefined? && x == Prop(q'.key, Norm(q'.value));
    assert q'.key in DefinedKeys(b.props);
    var p :| p in a.props && !p.value.Undefined? && p.key == q'.key;
    var q :| q in b.props && q.key == p.key && !q.value.Undefined? && Same(p.value, q.value);
    KeyNamesOne(b.props, q, q');
    SameHaveOneNorm(p.value, q.value);
    NormMembers(a, x);
  }

  lemma NormKeys(v: Json, k: Text)
    requires v.Object?
    ensures k in DefinedKeys(v.props) <==> exists x :: x in Norm(v).props && x.key == k
    ensures forall x :: x in Norm(v).props ==> !x.value.Undefined?
  {
    forall x | x in Norm(v).props
      ensures x.key in DefinedKeys(v.props) && !x.value.Undefined?
    {
      NormMembers(v, x);
    }
    if p :| p in v.props && !p.value.Undefined? && p.key == k {
      NormMembers(v, Prop(k, Norm(p.value)));
    }
  }

  lemma {:induction false} OneNormMeansSame(a: Json, b: Json)
    requires WellTyped(a) && WellTyped(b) && Norm(a) == Norm(b)
    ensures Same(a, b)
    decreases a
  {
    match a
    case Array(items) =>
      forall i | 0 <= i < |items|
        ensures Same(items[i], b.items[i])
      {
        NormItemsAt(a, items, i);
        NormItemsAt(b, b.items, i);
        OneNormMeansSame(items[i], b.items[i]);
      }
    case Object(props) =>
      forall p | p in props && !p.value.Undefined?
        ensures exists q :: q in b.props && q.key == p.key && !q.value.Undefined? && Same(p.value, q.value)
      {
        var x := Prop(p.key, Norm(p.value));
        NormMembers(a, x);
        NormMembers(b, x);
        var q :| q in b.props && !q.value.Undefined? && x == Prop(q.key, Norm(q.value));
        OneNormMeansSame(p.value, q.value);
      }
      forall k
        ensures k in DefinedKeys(props) <==> k in DefinedKeys(b.props)
      {
        NormKeys(a, k);
        NormKeys(b, k);
      }
    case _ =>
  }

  lemma {:induction false} SameAsNorm(v: Json)
    ensures Same(v, Norm(v))
    decreases v
  {
    match v
    case Array(items) =>
      forall i | 0 <= i < |items|
        ensures Same(items[i], NormItems(v, items)[i])
      {
        NormItemsAt(v, items, i);
        SameAsNorm(items[i]);
      }
    case Object(props) =>
      forall p | p in props && !p.value.Undefined?
        ensures exists q :: q in Norm(v).props && q.key == p.key && !q.value.Undefined? && Same(p.value, q.value)
      {
        var q := Prop(p.key, Norm(p.value));
        NormMembers(v, q);
        SameAsNorm(p.value);
      }
      forall k
        ensures k in DefinedKeys(props) <==> k in DefinedKeys(Norm(v).props)
      {
        NormKeys(v, k);
      }
    case _ =>
  }

  // ----- the theorems -----

  /** canonicalJson answers exactly for the printable values and throws for all others. */
  lemma AcceptsExactlyThePrintable(v: Json)
    requires WellTyped(v)
    ensures CanonicalJson(v).Ok? <==> Printable(v, 0)
  {
    if !v.Undefined? {
      PrintsTheNormalForm(v, 0, false);
    }
  }

  /** Equal texts for the same values, different texts for different ones. */
  lemma CanonicalTextDecidesSameness(a: Json, b: Json)
    requires WellTyped(a) && WellTyped(b) && CanonicalJson(a).Ok? && CanonicalJson(b).Ok?
    ensures CanonicalJson(a).value == CanonicalJson(b).value <==> Same(a, b)
  {
    AcceptsExactlyThePrintable(a);
    AcceptsExactlyThePrintable(b);
    PrintsTheNormalForm(a, 0, false);
    PrintsTheNormalForm(b, 0, false);
    NormIsNormal(a, 0);
    NormIsNormal(b, 0);
    if Same(a, b) {
      SameHaveOneNorm(a, b);
    }
    if CanonicalJson(a).value == CanonicalJson(b).value {
      RenderingIsInjective(Norm(a), Norm(b));
      OneNormMeansSame(a, b);
    }
  }

  /** The canonical text is a JSON text of the value: the parser reads its normal form. */
  lemma CanonicalTextParses(v: Json)
    requires WellTyped(v) && CanonicalJson(v).Ok?
    ensures ParseValue(CanonicalJson(v).value) == Some((Norm(v), [])) && Same(v, Norm(v))
  {
    AcceptsExactlyThePrintable(v);
    PrintsTheNormalForm(v, 0, false);
    NormIsNormal(v, 0);
    ParsesBack(Norm(v), []);
    assert Render(Norm(v)) + [] == Render(Norm(v));
    SameAsNorm(v);
  }
}

/** Plain JSON data and its compact text, as JSON.stringify prints it. */
module JsonText {
  import opened Base
  import opened Utf8

  /** The text of a finite number. */
  type Digits = s: seq<Unit> | s != [] && Ascii(s) witness [48]

  datatype Json =
    | Null
    | Bool(value: bool)
    // Negative zero prints as zero.
    | Number(text: Digits, negativeZero: bool)
    | Text(units: seq<Unit>)
    | Array(items: seq<Json>)
    | Object(fields: seq<Field>)

  datatype Field = Field(name: seq<Unit>, value: Json)

  // ---- Quoting ----

  function Hex(d: nat): Unit {
    if d < 10 then 48 + d else if d < 16 then 87 + d else 48
  }

  /** \uXXXX */
  function Escaped(u: Unit): (r: seq<Unit>)
    ensures |r| == 6 && Ascii(r)
  {
    [92, 117, Hex(u / 0x1000), Hex(u / 0x100 % 0x10), Hex(u / 0x10 % 0x10), Hex(u % 0x10)]
  }

  function ShortEscape(u: Unit): Option<Unit> {
    if u == 34 || u == 92 then Some(u)
    else if u == 8 then Some(98)
    else if u == 9 then Some(116)
    else if u == 10 then Some(110)
    else if u == 12 then Some(102)
    else if u == 13 then Some(114)
    else None
  }

  /** One character: a pair stays, control characters and lone surrogates are escaped. */
  function QuotedFirst(s: seq<Unit>): (r: seq<Unit>)
    requires s != []
    ensures r != []
  {
    if PairAt(s, 0) then [s[0], s[1]]
    else if ShortEscape(s[0]).Some? then [92, ShortEscape(s[0]).value]
    else if s[0] < 0x20 || High(s[0]) || Low(s[0]) then Escaped(s[0])
    else [s[0]]
  }

  function Quoted(s: seq<Unit>): seq<Unit> {
    if s == [] then [] else QuotedFirst(s) + Quoted(s[First(s).0..])
  }

  function Quote(s: seq<Unit>): seq<Unit> {
    [34] + Quoted(s) + [34]
  }

  /** Octets of the first character once quoted. */
  function QuotedWidth(s: seq<Unit>): nat
    requires s != []
  {
    if PairAt(s, 0) then 4
    else if ShortEscape(s[0]).Some? then 2
    else if s[0] < 0x20 || High(s[0]) || Low(s[0]) then 6
    else Width(s[0])
  }

  function QuotedSize(s: seq<Unit>): nat {
    if s == [] then 0 else QuotedWidth(s) + QuotedSize(s[First(s).0..])
  }

  /** Octets of a quoted string, without the text. */
  function QuoteSize(s: seq<Unit>): nat {
    2 + QuotedSize(s)
  }

  /** Nothing in a quoted text leaves a surrogate at its edge. */
  predicate NoLoneEdge(s: seq<Unit>) {
    s != [] ==> !Low(s[0]) && !High(s[|s| - 1])
  }

  lemma FirstWidth(s: seq<Unit>)
    requires s != []
    ensures Size(QuotedFirst(s)) == QuotedWidth(s) && NoLoneEdge(QuotedFirst(s))
  {
    var q := QuotedFirst(s);
    if PairAt(s, 0) {
      assert First(q) == (2, Point(s[0], s[1])) && q[2..] == [];
    } else if ShortEscape(s[0]).Some? || s[0] < 0x20 || High(s[0]) || Low(s[0]) {
      AsciiSize(q);
    } else {
      assert First(q) == (1, s[0]) && q[1..] == [];
    }
  }

  lemma {:induction false} QuotedSizeIsSize(s: seq<Unit>)
    ensures Size(Quoted(s)) == QuotedSize(s) && NoLoneEdge(Quoted(s))
    decreases |s|
  {
    if s != [] {
      var first, rest := QuotedFirst(s), Quoted(s[First(s).0..]);
      QuotedSizeIsSize(s[First(s).0..]);
      FirstWidth(s);
      SizeAppend(first, rest);
    }
  }

  lemma QuoteSizeIsSize(s: seq<Unit>)
    ensures Size(Quote(s)) == QuoteSize(s)
  {
    QuotedSizeIsSize(s);
    Bracketed(34, Quoted(s), 34);
  }

  // ---- Printing ----

  function Literal(j: Json): (r: seq<Unit>)
    requires !j.Array? && !j.Object?
  {
    match j
    case Null => [110, 117, 108, 108]
    case Bool(value) => if value then [116, 114, 117, 101] else [102, 97, 108, 115, 101]
    case Number(text, _) => text
    case Text(units) => Quote(units)
  }

  function Print(j: Json): seq<Unit> {
    match j
    case Array(items) => [91] + PrintItems(items, |items|) + [93]
    case Object(fields) => [123] + PrintFields(fields, |fields|) + [125]
    case _ => Literal(j)
  }

  function Comma(i: nat): seq<Unit> {
    if i == 0 then [] else [44]
  }

  function PrintItems(items: seq<Json>, n: nat): seq<Unit>
    requires n <= |items|
    decreases items, n
  {
    if n == 0 then [] else PrintItems(items, n - 1) + Comma(n - 1) + Print(items[n - 1])
  }

  function PrintFields(fields: seq<Field>, n: nat): seq<Unit>
    requires n <= |fields|
    decreases fields, n
  {
    if n == 0 then []
    else
      var f := fields[n - 1];
      PrintFields(fields, n - 1) + Comma(n - 1) + Quote(f.name) + [58] + Print(f.value)
  }

  // ---- Sizes ----

  /** Starts and ends inside ASCII, so nothing around it can join into a surrogate pair. */
  predicate Closed(s: seq<Unit>) {
    s != [] && s[0] < 0x80 && s[|s| - 1] < 0x80
  }

  lemma PrintClosed(j: Json)
    ensures Closed(Print(j))
  {
    if j.Text? {
      QuoteClosed(j.units);
    }
  }

  lemma QuoteClosed(s: seq<Unit>)
    ensures Closed(Quote(s))
  {
  }

  /** Octets of the pieces, which is what the counters add up. */
  function Cost(j: Json): nat {
    match j
    case Null => 4
    case Bool(value) => if value then 4 else 5
    case Number(text, _) => |text|
    case Text(units) => QuoteSize(units)
    case Array(items) => 2 + Max(0, |items| - 1) + ItemsCost(items, |items|)
    case Object(fields) => 2 + Max(0, |fields| - 1) + FieldsCost(fields, |fields|)
  }

  function ItemsCost(items: seq<Json>, n: nat): nat
    requires n <= |items|
    decreases items, n
  {
    if n == 0 then 0 else ItemsCost(items, n - 1) + Cost(items[n - 1])
  }

  function FieldsCost(fields: seq<Field>, n: nat): nat
    requires n <= |fields|
    decreases fields, n
  {
    if n == 0 then 0 else FieldsCost(fields, n - 1) + QuoteSize(fields[n - 1].name) + 1 + Cost(fields[n - 1].value)
  }

  lemma AppendClosed(a: seq<Unit>, b: seq<Unit>)
    requires a == [] || b == [] || a[|a| - 1] < 0x80 || b[0] < 0x80
    ensures Size(a + b) == Size(a) + Size(b)
  {
    SizeAppend(a, b);
  }

  lemma AppendItem(before: seq<Unit>, i: nat, text: seq<Unit>)
    requires Closed(text)
    ensures Size(before + Comma(i) + text) == Size(before) + |Comma(i)| + Size(text)
  {
    var longer := before + Comma(i);
    AppendClosed(before, Comma(i));
    AppendClosed(longer, text);
    AsciiSize(Comma(i));
  }

  lemma AppendField(before: seq<Unit>, i: nat, name: seq<Unit>, text: seq<Unit>)
    requires Closed(name) && Closed(text)
    ensures Size(before + Comma(i) + name + [58] + text) == Size(before) + |Comma(i)| + Size(name) + 1 + Size(text)
  {
    AppendItem(before, i, name);
    AppendClosed(before + Comma(i) + name, [58]);
    AppendClosed(before + Comma(i) + name + [58], text);
    AsciiSize([58]);
  }

  lemma {:induction false} ItemsSize(items: seq<Json>, n: nat)
    requires n <= |items|
    ensures Size(PrintItems(items, n)) == ItemsCost(items, n) + Max(0, n - 1)
    decreases items, n
  {
    if n > 0 {
      var before, text := PrintItems(items, n - 1), Print(items[n - 1]);
      ItemsSize(items, n - 1);
      PrintSize(items[n - 1]);
      PrintClosed(items[n - 1]);
      AppendItem(before, n - 1, text);
      assert PrintItems(items, n) == before + Comma(n - 1) + text;
      assert Size(before + Comma(n - 1) + text) == ItemsCost(items, n - 1) + Max(0, n - 2) + |Comma(n - 1)| + Cost(items[n - 1]);
    }
  }

  lemma {:induction false} FieldsSize(fields: seq<Field>, n: nat)
    requires n <= |fields|
    ensures Size(PrintFields(fields, n)) == FieldsCost(fields, n) + Max(0, n - 1)
    decreases fields, n
  {
    if n > 0 {
      FieldsSize(fields, n - 1);
      PrintSize(fields[n - 1].value);
      FieldSize(fields, n);
    }
  }

  /** The last field adds its name, its value, a colon and, unless it is the first, a comma. */
  lemma FieldSize(fields: seq<Field>, n: nat)
    requires 0 < n <= |fields|
    ensures var f := fields[n - 1];
            Size(PrintFields(fields, n))
            == Size(PrintFields(fields, n - 1)) + (if n == 1 then 0 else 1) + QuoteSize(f.name) + 1 + Size(Print(f.value))
  {
    var f := fields[n - 1];
    PrintClosed(f.value);
    QuoteClosed(f.name);
    QuoteSizeIsSize(f.name);
    AppendField(PrintFields(fields, n - 1), n - 1, Quote(f.name), Print(f.value));
  }

  /** The pieces' octets are exactly the octets of the printed text. */
  lemma {:induction false} PrintSize(j: Json)
    ensures Size(Print(j)) == Cost(j)
    decreases j
  {
    match j
    case Array(items) =>
      ItemsSize(items, |items|);
      Bracketed(91, PrintItems(items, |items|), 93);
    case Object(fields) =>
      FieldsSize(fields, |fields|);
      Bracketed(123, PrintFields(fields, |fields|), 125);
    case Text(units) => QuoteSizeIsSize(units);
    case _ => AsciiSize(Literal(j));
  }

  lemma Bracketed(open: Unit, inner: seq<Unit>, close: Unit)
    requires open < 0x80 && close < 0x80
    ensures Size([open] + inner + [close]) == Size(inner) + 2
  {
    AppendClosed([open], inner);
    AppendClosed([open] + inner, [close]);
    AsciiSize([open]);
    AsciiSize([close]);
  }

  // ---- Shape ----

  /** Containers inside one another. */
  function Nesting(j: Json): nat {
    match j
    case Array(items) => 1 + ItemsNesting(items, |items|)
    case Object(fields) => 1 + FieldsNesting(fields, |fields|)
    case _ => 0
  }

  function ItemsNesting(items: seq<Json>, n: nat): nat
    requires n <= |items|
    decreases items, n
  {
    if n == 0 then 0 else Max(ItemsNesting(items, n - 1), Nesting(items[n - 1]))
  }

  function FieldsNesting(fields: seq<Field>, n: nat): nat
    requires n <= |fields|
    decreases fields, n
  {
    if n == 0 then 0 else Max(FieldsNesting(fields, n - 1), Nesting(fields[n - 1].value))
  }

  function Units(s: string): seq<Unit> {
    seq(|s|, i requires 0 <= i < |s| => if s[i] as int < 0x1_0000 then s[i] as int else 0)
  }

  /** Keys a copy refuses because assigning or printing them runs code. */
  predicate Forbidden(name: seq<Unit>) {
    name == Units("__proto__") || name == Units("constructor") || name == Units("prototype")
    || name == Units("toJSON") || name == Units("toString") || name == Units("valueOf")
  }

  predicate Allowed(j: Json) {
    match j
    case Array(items) => AllowedItems(items, |items|)
    case Object(fields) => AllowedFields(fields, |fields|)
    case _ => true
  }

  predicate AllowedItems(items: seq<Json>, n: nat)
    requires n <= |items|
    decreases items, n
  {
    n == 0 || (AllowedItems(items, n - 1) && Allowed(items[n - 1]))
  }

  predicate AllowedFields(fields: seq<Field>, n: nat)
    requires n <= |fields|
    decreases fields, n
  {
    n == 0 || (AllowedFields(fields, n - 1) && !Forbidden(fields[n - 1].name) && Allowed(fields[n - 1].value))
  }

  /** The copy: negative zero becomes zero, everything else is as it was. */
  function Normal(j: Json): Json {
    match j
    case Number(text, _) => Number(text, false)
    case Array(items) => Array(NormalItems(items, |items|))
    case Object(fields) => Object(NormalFields(fields, |fields|))
    case _ => j
  }

  function NormalItems(items: seq<Json>, n: nat): (copy: seq<Json>)
    requires n <= |items|
    ensures |copy| == n
    decreases items, n
  {
    if n == 0 then [] else NormalItems(items, n - 1) + [Normal(items[n - 1])]
  }

  function NormalFields(fields: seq<Field>, n: nat): (copy: seq<Field>)
    requires n <= |fields|
    ensures |copy| == n
    decreases fields, n
  {
    if n == 0 then [] else NormalFields(fields, n - 1) + [Field(fields[n - 1].name, Normal(fields[n - 1].value))]
  }

  lemma {:induction false} NormalPrints(j: Json)
    ensures Print(Normal(j)) == Print(j)
    decreases j
  {
    match j
    case Array(items) => NormalItemsPrint(items, |items|);
    case Object(fields) => NormalFieldsPrint(fields, |fields|);
    case _ =>
  }

  /** Only the items printed matter. */
  lemma {:induction false} PrintPrefix(a: seq<Json>, b: seq<Json>, n: nat)
    requires n <= |a| <= |b| && a == b[..|a|]
    ensures PrintItems(a, n) == PrintItems(b, n)
    decreases n
  {
    if n > 0 {
      PrintPrefix(a, b, n - 1);
    }
  }

  lemma {:induction false} PrintFieldsPrefix(a: seq<Field>, b: seq<Field>, n: nat)
    requires n <= |a| <= |b| && a == b[..|a|]
    ensures PrintFields(a, n) == PrintFields(b, n)
    decreases n
  {
    if n > 0 {
      PrintFieldsPrefix(a, b, n - 1);
    }
  }

  lemma {:induction false} NormalItemsPrint(items: seq<Json>, n: nat)
    requires n <= |items|
    ensures PrintItems(NormalItems(items, n), n) == PrintItems(items, n)
    decreases items, n
  {
    if n > 0 {
      NormalItemsPrint(items, n - 1);
      NormalPrints(items[n - 1]);
      PrintPrefix(NormalItems(items, n - 1), NormalItems(items, n), n - 1);
    }
  }

  lemma {:induction false} NormalFieldsPrint(fields: seq<Field>, n: nat)
    requires n <= |fields|
    ensures PrintFields(NormalFields(fields, n), n) == PrintFields(fields, n)
    decreases fields, n
  {
    if n > 0 {
      NormalFieldsPrint(fields, n - 1);
      NormalPrints(fields[n - 1].value);
      PrintFieldsPrefix(NormalFields(fields, n - 1), NormalFields(fields, n), n - 1);
    }
  }
}

/**
 The guest's own JSON printer (backend/src/isolation/guest-runtime.ts): it counts while it prints and
 stops as soon as the count exceeds the budget.
 */
module GuestPrinter {
  import opened Base
  import opened Utf8
  import opened JsonText
  import opened JsonBudget

  /** The two error codes of the guest. */
  datatype Problem = InvalidOutput | OutputLimit

  /** Not nested too deeply, and no reserved key. */
  predicate Proper(j: Json, depth: nat) {
    depth + Nesting(j) <= MAX_DEPTH && Allowed(j)
  }

  /** Does not fit what is left of the budget, or has too many keys for it. */
  predicate TooLarge(j: Json, used: nat, budget: nat) {
    !KeysFit(j, budget) || used + Cost(j) > budget
  }

  /** The problem is one the value has: each code has its own reason. */
  predicate Fails(j: Json, depth: nat, used: nat, budget: nat, problem: Problem) {
    match problem
    case InvalidOutput => !Proper(j, depth)
    case OutputLimit => TooLarge(j, used, budget)
  }

  predicate FieldFails(field: Field, depth: nat, used: nat, budget: nat, problem: Problem) {
    match problem
    case InvalidOutput => Forbidden(field.name) || !Proper(field.value, depth + 1)
    case OutputLimit => TooLarge(field.value, used + QuoteSize(field.name) + 1, budget)
  }

  /** The first fields of an object that began at used are printed and counted. */
  ghost predicate Printed(fields: seq<Field>, n: nat, text: seq<Unit>, depth: nat, used: nat, bytes: nat, budget: nat)
    requires n <= |fields|
  {
    && text == PrintFields(fields, n) && FieldsShaped(fields, n, depth + 1, budget)
    && bytes == used + 1 + Max(0, n - 1) + FieldsCost(fields, n) <= budget
  }

  lemma NothingPrinted(fields: seq<Field>, depth: nat, used: nat, budget: nat)
    requires depth < MAX_DEPTH && used + 1 <= budget
    ensures Printed(fields, 0, [], depth, used, used + 1, budget)
  {
  }

  lemma {:induction false} ProperItem(items: seq<Json>, n: nat, upTo: nat, depth: nat)
    requires n < upTo <= |items| && depth + ItemsNesting(items, upTo) <= MAX_DEPTH && AllowedItems(items, upTo)
    ensures Proper(items[n], depth)
    decreases upTo
  {
    if n < upTo - 1 {
      ProperItem(items, n, upTo - 1, depth);
    }
  }

  lemma {:induction false} ItemKeys(items: seq<Json>, n: nat, upTo: nat, budget: nat)
    requires n < upTo <= |items| && ItemKeysFit(items, upTo, budget)
    ensures KeysFit(items[n], budget)
    decreases upTo
  {
    if n < upTo - 1 {
      ItemKeys(items, n, upTo - 1, budget);
    }
  }

  /** What is wrong with an item is wrong with its array. */
  lemma ItemFails(items: seq<Json>, n: nat, depth: nat, used: nat, header: nat, budget: nat, problem: Problem)
    requires n < |items| && header <= 2 + Max(0, |items| - 1)
    requires Fails(items[n], depth + 1, used + header + ItemsCost(items, n), budget, problem)
    ensures Fails(Array(items), depth, used, budget, problem)
  {
    if problem == InvalidOutput {
      if Proper(Array(items), depth) {
        ProperItem(items, n, |items|, depth + 1);
      }
    } else {
      ItemsGrow(items, n, |items|);
      if KeysFit(Array(items), budget) {
        ItemKeys(items, n, |items|, budget);
      }
    }
  }

  lemma {:induction false} ProperField(fields: seq<Field>, n: nat, upTo: nat, depth: nat)
    requires n < upTo <= |fields| && depth + FieldsNesting(fields, upTo) <= MAX_DEPTH && AllowedFields(fields, upTo)
    ensures !Forbidden(fields[n].name) && Proper(fields[n].value, depth)
    decreases upTo
  {
    if n < upTo - 1 {
      ProperField(fields, n, upTo - 1, depth);
    }
  }

  lemma {:induction false} FieldKeys(fields: seq<Field>, n: nat, upTo: nat, budget: nat)
    requires n < upTo <= |fields| && FieldKeysFit(fields, upTo, budget)
    ensures KeysFit(fields[n].value, budget)
    decreases upTo
  {
    if n < upTo - 1 {
      FieldKeys(fields, n, upTo - 1, budget);
    }
  }

  lemma ObjectFails(fields: seq<Field>, n: nat, depth: nat, used: nat, header: nat, budget: nat, problem: Problem)
    requires n < |fields| && header <= 2 + Max(0, |fields| - 1)
    requires FieldFails(fields[n], depth, used + header + FieldsCost(fields, n), budget, problem)
    ensures Fails(Object(fields), depth, used, budget, problem)
  {
    if problem == InvalidOutput {
      if Proper(Object(fields), depth) {
        ProperField(fields, n, |fields|, depth + 1);
      }
    } else {
      FieldsGrow(fields, n, |fields|);
      if KeysFit(Object(fields), budget) {
        FieldKeys(fields, n, |fields|, budget);
      }
    }
  }

  class Printer {
    const budget: nat
    var bytes: nat

    constructor (budget: nat)
      ensures this.budget == budget && bytes == 0
    {
      this.budget := budget;
      bytes := 0;
    }

    /** Scans code units: a pair counts four, any other surrogate three. */
    method Add(text: seq<Unit>) returns (ok: bool)
      requires bytes <= budget
      modifies this`bytes
      ensures ok <==> old(bytes) + Size(text) <= budget
      ensures ok ==> bytes == old(bytes) + Size(text)
    {
      var index := 0;
      while index < |text|
        invariant 0 <= index <= |text| && bytes <= budget
        invariant bytes + Size(text[index..]) == old(bytes) + Size(text)
        decreases |text| - index
      {
        var code := text[index];
        var width := 1;
        if code < 0x80 {
          bytes := bytes + 1;
        } else if code < 0x800 {
          bytes := bytes + 2;
        } else if 0xD800 <= code <= 0xDBFF && index + 1 < |text| && 0xDC00 <= text[index + 1] <= 0xDFFF {
          bytes := bytes + 4;
          width := 2;
        } else {
          bytes := bytes + 3;
        }
        assert text[index..][First(text[index..]).0..] == text[index + width..];
        index := index + width;
        if bytes > budget {
          return false;
        }
      }
      return true;
    }

    method Serialize(input: Json, depth: nat) returns (text: Result<seq<Unit>, Problem>)
      requires bytes <= budget && depth <= MAX_DEPTH
      modifies this`bytes
      ensures text.Ok? ==> Fits(input, depth, old(bytes), budget)
      ensures text.Ok? ==> text.value == Print(input) && bytes == old(bytes) + Cost(input)
      ensures text.Err? ==> Fails(input, depth, old(bytes), budget, text.error)
      decreases input, 1
    {
      match input
      case Array(items) =>
        if depth >= MAX_DEPTH {
          return Err(InvalidOutput);
        }
        if 2 * (|items| + 1) > budget {
          return Err(OutputLimit);
        }
        text := SerializeArray(items, input, depth);
      case Object(fields) =>
        if depth >= MAX_DEPTH {
          return Err(InvalidOutput);
        }
        if 2 * |fields| > budget {
          return Err(OutputLimit);
        }
        text := SerializeObject(fields, input, depth);
      case Text(units) =>
        text := SerializeText(units);
      case _ =>
        AsciiSize(Literal(input));
        var ok := Add(Literal(input));
        text := if ok then Ok(Literal(input)) else Err(OutputLimit);
    }

    method SerializeText(units: seq<Unit>) returns (text: Result<seq<Unit>, Problem>)
      requires bytes <= budget
      modifies this`bytes
      ensures text.Ok? ==> old(bytes) + QuoteSize(units) <= budget
      ensures text.Ok? ==> text.value == Quote(units) && bytes == old(bytes) + QuoteSize(units)
      ensures text.Err? ==> text.error == OutputLimit && old(bytes) + QuoteSize(units) > budget
    {
      QuoteCosts(units);
      if |units| > budget {
        return Err(OutputLimit);
      }
      QuoteSizeIsSize(units);
      var ok := Add(Quote(units));
      text := if ok then Ok(Quote(units)) else Err(OutputLimit);
    }

    /** One ASCII sign. */
    method AddSign(sign: Unit) returns (ok: bool)
      requires bytes <= budget && sign < 0x80
      modifies this`bytes
      ensures ok <==> old(bytes) + 1 <= budget
      ensures ok ==> bytes == old(bytes) + 1
    {
      AsciiSize([sign]);
      ok := Add([sign]);
    }

    method Separate(i: nat) returns (ok: bool)
      requires bytes <= budget
      modifies this`bytes
      ensures ok <==> old(bytes) + Min(i, 1) <= budget
      ensures ok ==> bytes == old(bytes) + Min(i, 1)
    {
      ok := true;
      if i > 0 {
        ok := AddSign(44);
      }
    }

    /** A separator where one is needed, and the item. */
    method SerializeItem(item: Json, i: nat, depth: nat) returns (text: Result<seq<Unit>, Problem>)
      requires bytes <= budget && depth < MAX_DEPTH
      modifies this`bytes
      ensures text.Ok? ==> Fits(item, depth + 1, old(bytes) + Min(i, 1), budget)
      ensures text.Ok? ==> text.value == Comma(i) + Print(item) && bytes == old(bytes) + Min(i, 1) + Cost(item)
      ensures text.Err? ==> Fails(item, depth + 1, old(bytes) + Min(i, 1), budget, text.error)
      decreases item, 2
    {
      var ok := Separate(i);
      if !ok {
        return Err(OutputLimit);
      }
      text := Serialize(item, depth + 1);
      if text.Ok? {
        text := Ok(Comma(i) + text.value);
      }
    }

    method SerializeArray(items: seq<Json>, ghost input: Json, depth: nat) returns (text: Result<seq<Unit>, Problem>)
      requires input == Array(items) && bytes <= budget && depth < MAX_DEPTH && 2 * (|items| + 1) <= budget
      modifies this`bytes
      ensures text.Ok? ==> Fits(input, depth, old(bytes), budget)
      ensures text.Ok? ==> text.value == Print(input) && bytes == old(bytes) + Cost(input)
      ensures text.Err? ==> Fails(input, depth, old(bytes), budget, text.error)
      decreases input, 0
    {
      ghost var used := bytes;
      var ok := AddSign(91);
      if !ok {
        return Err(OutputLimit);
      }
      var result: seq<Unit> := [];
      var i := 0;
      while i < |items|
        invariant 0 <= i <= |items| && result == PrintItems(items, i)
        invariant bytes == used + 1 + Max(0, i - 1) + ItemsCost(items, i) <= budget
        invariant ItemsShaped(items, i, depth + 1, budget)
      {
        var item := SerializeItem(items[i], i, depth);
        if item.Err? {
          ItemFails(items, i, depth, used, 1 + i, budget, item.error);
          return Err(item.error);
        }
        OneMoreItem(items, i, depth + 1, budget);
        PrintMore(items, i, result, item.value);
        result := result + item.value;
        i := i + 1;
      }
      ok := AddSign(93);
      text := if ok then Ok([91] + result + [93]) else Err(OutputLimit);
    }

    method SerializeObject(fields: seq<Field>, ghost input: Json, depth: nat) returns (text: Result<seq<Unit>, Problem>)
      requires input == Object(fields) && bytes <= budget && depth < MAX_DEPTH && 2 * |fields| <= budget
      modifies this`bytes
      ensures text.Ok? ==> Fits(input, depth, old(bytes), budget)
      ensures text.Ok? ==> text.value == Print(input) && bytes == old(bytes) + Cost(input)
      ensures text.Err? ==> Fails(input, depth, old(bytes), budget, text.error)
      decreases input, 0
    {
      ghost var used := bytes;
      var ok := AddSign(123);
      if !ok {
        return Err(OutputLimit);
      }
      text := SerializeFields(fields, depth, used);
      if text.Err? {
        return;
      }
      ok := AddSign(125);
      text := if ok then Ok([123] + text.value + [125]) else Err(OutputLimit);
    }

    method SerializeFields(fields: seq<Field>, depth: nat, ghost used: nat) returns (inner: Result<seq<Unit>, Problem>)
      requires bytes == used + 1 <= budget && depth < MAX_DEPTH
      modifies this`bytes
      ensures inner.Err? ==> Fails(Object(fields), depth, used, budget, inner.error)
      ensures inner.Ok? ==> Printed(fields, |fields|, inner.value, depth, used, bytes, budget)
      decreases fields, 4
    {
      var result: seq<Unit> := [];
      var i := 0;
      NothingPrinted(fields, depth, used, budget);
      while i < |fields|
        invariant 0 <= i <= |fields| && Printed(fields, i, result, depth, used, bytes, budget)
      {
        var longer := SerializeNext(fields, i, result, depth, used);
        if longer.Err? {
          return longer;
        }
        result := longer.value;
        i := i + 1;
      }
      return Ok(result);
    }

    method SerializeNext(fields: seq<Field>, i: nat, before: seq<Unit>, depth: nat, ghost used: nat) returns (longer: Result<seq<Unit>, Problem>)
      requires i < |fields| && depth < MAX_DEPTH && Printed(fields, i, before, depth, used, bytes, budget)
      modifies this`bytes
      ensures longer.Err? ==> Fails(Object(fields), depth, used, budget, longer.error)
      ensures longer.Ok? ==> Printed(fields, i + 1, longer.value, depth, used, bytes, budget)
      decreases fields[i], 3
    {
      var field := SerializeField(fields[i], i, depth);
      if field.Err? {
        ObjectFails(fields, i, depth, used, 1 + i, budget, field.error);
        return Err(field.error);
      }
      OneMoreField(fields, i, depth + 1, budget);
      PrintMoreFields(fields, i, before, field.value);
      return Ok(before + field.value);
    }

    method SerializeField(field: Field, i: nat, depth: nat) returns (text: Result<seq<Unit>, Problem>)
      requires bytes <= budget && depth < MAX_DEPTH
      modifies this`bytes
      ensures text.Ok? ==> FieldFits(field, depth, old(bytes) + Min(i, 1), budget)
      ensures text.Err? ==> FieldFails(field, depth, old(bytes) + Min(i, 1), budget, text.error)
      ensures text.Ok? ==>
                && text.value == Comma(i) + Quote(field.name) + [58] + Print(field.value)
                && bytes == old(bytes) + Min(i, 1) + QuoteSize(field.name) + 1 + Cost(field.value)
      decreases field, 2
    {
      if Forbidden(field.name) {
        return Err(InvalidOutput);
      }
      var ok := Separate(i);
      if !ok {
        return Err(OutputLimit);
      }
      QuoteSizeIsSize(field.name);
      ok := Add(Quote(field.name));
      if !ok {
        return Err(OutputLimit);
      }
      ok := AddSign(58);
      if !ok {
        return Err(OutputLimit);
      }
      text := Serialize(field.value, depth + 1);
      if text.Ok? {
        text := Ok(Comma(i) + Quote(field.name) + [58] + text.value);
      }
    }
  }

  lemma PrintMore(items: seq<Json>, i: nat, before: seq<Unit>, text: seq<Unit>)
    requires i < |items| && before == PrintItems(items, i) && text == Comma(i) + Print(items[i])
    ensures before + text == PrintItems(items, i + 1)
  {
    assert before + text == before + Comma(i) + Print(items[i]);
  }

  lemma PrintMoreFields(fields: seq<Field>, i: nat, before: seq<Unit>, text: seq<Unit>)
    requires i < |fields| && before == PrintFields(fields, i)
    requires text == Comma(i) + Quote(fields[i].name) + [58] + Print(fields[i].value)
    ensures before + text == PrintFields(fields, i + 1)
  {
    assert before + text == before + Comma(i) + Quote(fields[i].name) + [58] + Print(fields[i].value);
  }

  /** What the guest prints is the compact JSON text, its counter is the size of exactly that text,
      and it prints what cloneIsolatedJson would accept under the same budget. */
  method SerializeValue(value: Json, budget: nat) returns (text: Result<seq<Unit>, Problem>, bytes: nat)
    ensures text.Ok? <==>
              && Nesting(value) <= 16 && |Octets(Print(value))| <= budget && Allowed(value)
              && !(value.Array? && 2 * |value.items| + 1 == budget)
    ensures text.Ok? ==> text.value == Print(value) && bytes == |Octets(text.value)|
    ensures text == Err(InvalidOutput) ==> Nesting(value) > 16 || !Allowed(value)
    ensures text == Err(OutputLimit) ==> |Octets(Print(value))| > budget || (value.Array? && 2 * |value.items| + 1 == budget)
  {
    var printer := new Printer(budget);
    text := printer.Serialize(value, 0);
    bytes := printer.bytes;
    PrintSize(value);
    SizeIsOctets(Print(value));
    if Cost(value) <= budget {
      KeyBoundsAreImplied(value, budget);
    }
  }
}

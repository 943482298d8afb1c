/**
 The two byte budgets of the isolation boundary: copying a value with a running counter
 (backend/src/isolation/isolation-contract.ts) and printing one inside the guest
 (backend/src/isolation/guest-runtime.ts). Both counters are proved to be the UTF-8 size of the text.
 */
module JsonBudget {
  import opened Base
  import opened Utf8
  import opened JsonText

  const MAX_DEPTH := 16

  /** Containers are also bounded by their number of own keys; an array has one more, its length. */
  predicate KeysFit(j: Json, budget: nat) {
    match j
    case Array(items) => 2 * (|items| + 1) <= budget && ItemKeysFit(items, |items|, budget)
    case Object(fields) => 2 * |fields| <= budget && FieldKeysFit(fields, |fields|, budget)
    case _ => true
  }

  predicate ItemKeysFit(items: seq<Json>, n: nat, budget: nat)
    requires n <= |items|
    decreases items, n
  {
    n == 0 || (ItemKeysFit(items, n - 1, budget) && KeysFit(items[n - 1], budget))
  }

  predicate FieldKeysFit(fields: seq<Field>, n: nat, budget: nat)
    requires n <= |fields|
    decreases fields, n
  {
    n == 0 || (FieldKeysFit(fields, n - 1, budget) && KeysFit(fields[n - 1].value, budget))
  }

  /** Everything but the size. */
  predicate Shaped(j: Json, depth: nat, budget: nat) {
    depth + Nesting(j) <= MAX_DEPTH && Allowed(j) && KeysFit(j, budget)
  }

  /** What can still be added at this depth after so many octets. */
  predicate Fits(j: Json, depth: nat, used: nat, budget: nat) {
    Shaped(j, depth, budget) && used + Cost(j) <= budget
  }

  // ---- Prefixes of a container ----

  lemma {:induction false} ItemsGrow(items: seq<Json>, i: nat, n: nat)
    requires i < n <= |items|
    ensures ItemsCost(items, i) + Cost(items[i]) <= ItemsCost(items, n)
    decreases n
  {
    if i < n - 1 {
      ItemsGrow(items, i, n - 1);
    }
  }

  lemma {:induction false} FieldsGrow(fields: seq<Field>, i: nat, n: nat)
    requires i < n <= |fields|
    ensures FieldsCost(fields, i) + QuoteSize(fields[i].name) + 1 + Cost(fields[i].value) <= FieldsCost(fields, n)
    decreases n
  {
    if i < n - 1 {
      FieldsGrow(fields, i, n - 1);
    }
  }

  /** The first items of an array at this depth. */
  predicate ItemsShaped(items: seq<Json>, n: nat, depth: nat, budget: nat)
    requires n <= |items|
  {
    depth + ItemsNesting(items, n) <= MAX_DEPTH && AllowedItems(items, n) && ItemKeysFit(items, n, budget)
  }

  lemma OneMoreItem(items: seq<Json>, n: nat, depth: nat, budget: nat)
    requires n < |items| && ItemsShaped(items, n, depth, budget)
    ensures ItemsShaped(items, n + 1, depth, budget) <==> Shaped(items[n], depth, budget)
  {
  }

  lemma {:induction false} ItemsStayShaped(items: seq<Json>, n: nat, more: nat, depth: nat, budget: nat)
    requires n <= more <= |items| && ItemsShaped(items, more, depth, budget)
    ensures ItemsShaped(items, n, depth, budget)
    decreases more
  {
    if n < more {
      ItemsStayShaped(items, n, more - 1, depth, budget);
    }
  }

  predicate FieldsShaped(fields: seq<Field>, n: nat, depth: nat, budget: nat)
    requires n <= |fields|
  {
    depth + FieldsNesting(fields, n) <= MAX_DEPTH && AllowedFields(fields, n) && FieldKeysFit(fields, n, budget)
  }

  lemma OneMoreField(fields: seq<Field>, n: nat, depth: nat, budget: nat)
    requires n < |fields| && FieldsShaped(fields, n, depth, budget)
    ensures FieldsShaped(fields, n + 1, depth, budget) <==> !Forbidden(fields[n].name) && Shaped(fields[n].value, depth, budget)
  {
  }

  lemma {:induction false} FieldsStayShaped(fields: seq<Field>, n: nat, more: nat, depth: nat, budget: nat)
    requires n <= more <= |fields| && FieldsShaped(fields, more, depth, budget)
    ensures FieldsShaped(fields, n, depth, budget)
    decreases more
  {
    if n < more {
      FieldsStayShaped(fields, n, more - 1, depth, budget);
    }
  }

  lemma ArrayShape(items: seq<Json>, n: nat, depth: nat, budget: nat)
    requires n < |items| && ItemsShaped(items, n, depth + 1, budget) && Shaped(Array(items), depth, budget)
    ensures Shaped(items[n], depth + 1, budget)
  {
    ItemsStayShaped(items, n + 1, |items|, depth + 1, budget);
    OneMoreItem(items, n, depth + 1, budget);
  }

  /** An item that does not fit here keeps the whole array from fitting. */
  lemma BadItem(items: seq<Json>, n: nat, depth: nat, used: nat, header: nat, budget: nat)
    requires n < |items| && ItemsShaped(items, n, depth + 1, budget)
    requires header <= 2 + Max(0, |items| - 1)
    requires !Fits(items[n], depth + 1, used + header + ItemsCost(items, n), budget)
    ensures !Fits(Array(items), depth, used, budget)
  {
    if Shaped(Array(items), depth, budget) {
      ArrayShape(items, n, depth, budget);
      ItemsGrow(items, n, |items|);
    }
  }

  lemma ObjectShape(fields: seq<Field>, n: nat, depth: nat, budget: nat)
    requires n < |fields| && FieldsShaped(fields, n, depth + 1, budget) && Shaped(Object(fields), depth, budget)
    ensures !Forbidden(fields[n].name) && Shaped(fields[n].value, depth + 1, budget)
  {
    FieldsStayShaped(fields, n + 1, |fields|, depth + 1, budget);
    OneMoreField(fields, n, depth + 1, budget);
  }

  lemma BadField(fields: seq<Field>, n: nat, depth: nat, used: nat, header: nat, budget: nat)
    requires n < |fields| && FieldsShaped(fields, n, depth + 1, budget)
    requires header <= 2 + Max(0, |fields| - 1)
    requires !FieldFits(fields[n], depth, used + header + FieldsCost(fields, n), budget)
    ensures !Fits(Object(fields), depth, used, budget)
  {
    if Shaped(Object(fields), depth, budget) {
      ObjectShape(fields, n, depth, budget);
      FieldTooDear(fields, n, used, header, budget);
    }
  }

  lemma FieldTooDear(fields: seq<Field>, n: nat, used: nat, header: nat, budget: nat)
    requires n < |fields| && header <= 2 + Max(0, |fields| - 1)
    requires used + header + FieldsCost(fields, n) + QuoteSize(fields[n].name) + 1 + Cost(fields[n].value) > budget
    ensures used + Cost(Object(fields)) > budget
  {
    FieldsGrow(fields, n, |fields|);
  }

  predicate FieldFits(field: Field, depth: nat, used: nat, budget: nat) {
    !Forbidden(field.name) && Fits(field.value, depth + 1, used + QuoteSize(field.name) + 1, budget)
  }

  lemma {:induction false} QuotedLonger(s: seq<Unit>)
    ensures |s| <= QuotedSize(s)
    decreases |s|
  {
    if s != [] {
      QuotedLonger(s[First(s).0..]);
    }
  }

  /** A string longer than the budget cannot fit it. */
  lemma QuoteCosts(s: seq<Unit>)
    ensures |s| + 2 <= QuoteSize(s)
  {
    QuotedLonger(s);
  }

  lemma CostPositive(j: Json)
    ensures Cost(j) >= 1
  {
  }

  lemma {:induction false} ItemsCostAtLeast(items: seq<Json>, n: nat)
    requires n <= |items|
    ensures ItemsCost(items, n) >= n
    decreases n
  {
    if n > 0 {
      ItemsCostAtLeast(items, n - 1);
      CostPositive(items[n - 1]);
    }
  }

  lemma {:induction false} FieldsCostAtLeast(fields: seq<Field>, n: nat)
    requires n <= |fields|
    ensures FieldsCost(fields, n) >= 4 * n
    decreases n
  {
    if n > 0 {
      FieldsCostAtLeast(fields, n - 1);
      CostPositive(fields[n - 1].value);
      QuoteCosts(fields[n - 1].name);
    }
  }

  /** The key bounds follow from the size, except for one array: all of an odd budget spent on items
      of one octet each, with nothing around it. */
  lemma {:induction false} KeyBoundsAreImplied(j: Json, budget: nat)
    requires Cost(j) <= budget
    ensures KeysFit(j, budget) <==> !(j.Array? && 2 * |j.items| + 1 == budget)
    decreases j
  {
    match j
    case Array(items) =>
      ItemsCostAtLeast(items, |items|);
      ItemBoundsAreImplied(items, |items|, budget);
    case Object(fields) =>
      FieldsCostAtLeast(fields, |fields|);
      FieldBoundsAreImplied(fields, |fields|, budget);
    case _ =>
  }

  lemma {:induction false} ItemBoundsAreImplied(items: seq<Json>, n: nat, budget: nat)
    requires n <= |items| && ItemsCost(items, n) + 2 <= budget
    ensures ItemKeysFit(items, n, budget)
    decreases items, n
  {
    if n > 0 {
      ItemBoundsAreImplied(items, n - 1, budget);
      KeyBoundsAreImplied(items[n - 1], budget);
      ArrayIsShorter(items[n - 1]);
    }
  }

  lemma {:induction false} FieldBoundsAreImplied(fields: seq<Field>, n: nat, budget: nat)
    requires n <= |fields| && FieldsCost(fields, n) + 2 <= budget
    ensures FieldKeysFit(fields, n, budget)
    decreases fields, n
  {
    if n > 0 {
      FieldBoundsAreImplied(fields, n - 1, budget);
      KeyBoundsAreImplied(fields[n - 1].value, budget);
      ArrayIsShorter(fields[n - 1].value);
    }
  }

  lemma ArrayIsShorter(j: Json)
    ensures j.Array? ==> 2 * |j.items| <= Cost(j)
  {
    if j.Array? {
      ItemsCostAtLeast(j.items, |j.items|);
    }
  }

  const ONE := Number([49], false)

  lemma OnePrints()
    ensures Print(Array([ONE])) == [91, 49, 93]
  {
    assert PrintItems([ONE], 1) == PrintItems([ONE], 0) + Comma(0) + Print(ONE);
  }

  /** Why the exception exists: three octets of text in a budget of three are refused. */
  lemma OddBudgetRefuses()
    ensures |Octets(Print(Array([ONE])))| == 3 && Nesting(Array([ONE])) == 1 && Allowed(Array([ONE]))
    ensures !KeysFit(Array([ONE]), 3)
  {
    OnePrints();
    AsciiSize([91, 49, 93]);
    SizeIsOctets([91, 49, 93]);
    assert ItemsNesting([ONE], 1) == Max(ItemsNesting([ONE], 0), Nesting(ONE));
  }

  // ---- cloneIsolatedJson ----

  class Cloner {
    const maxBytes: nat
    var bytes: nat

    constructor (maxBytes: nat)
      ensures this.maxBytes == maxBytes && bytes == 0
    {
      this.maxBytes := maxBytes;
      bytes := 0;
    }

    method Add(count: nat) returns (ok: bool)
      modifies this`bytes
      ensures bytes == old(bytes) + count && (ok <==> bytes <= maxBytes)
    {
      bytes := bytes + count;
      ok := bytes <= maxBytes;
    }

    method AddString(input: seq<Unit>) returns (ok: bool)
      modifies this`bytes
      ensures ok <==> old(bytes) + QuoteSize(input) <= maxBytes
      ensures ok ==> bytes == old(bytes) + QuoteSize(input)
    {
      QuoteCosts(input);
      if |input| > maxBytes {
        return false;
      }
      QuoteSizeIsSize(input);
      var size := ByteLength(Quote(input));
      ok := Add(size);
    }

    method Copy(input: Json, depth: nat) returns (copied: Option<Json>)
      requires bytes <= maxBytes && depth <= MAX_DEPTH
      modifies this`bytes
      ensures copied.Some? <==> Fits(input, depth, old(bytes), maxBytes)
      ensures copied.Some? ==> copied.value == Normal(input) && bytes == old(bytes) + Cost(input)
      decreases input, 1
    {
      match input
      case Null =>
        var ok := Add(4);
        copied := if ok then Some(Null) else None;
      case Bool(value) =>
        var ok := Add(if value then 4 else 5);
        copied := if ok then Some(input) else None;
      case Number(text, negativeZero) =>
        var ok := Add(|text|);
        copied := if ok then Some(Number(text, false)) else None;
      case Text(units) =>
        var ok := AddString(units);
        copied := if ok then Some(input) else None;
      case Array(items) =>
        if depth >= MAX_DEPTH || 2 * |items| > maxBytes || 2 * (|items| + 1) > maxBytes {
          return None;
        }
        copied := CopyArray(input, depth);
      case Object(fields) =>
        if depth >= MAX_DEPTH || 2 * |fields| > maxBytes {
          return None;
        }
        copied := CopyObject(input, depth);
    }

    method CopyArray(input: Json, depth: nat) returns (copied: Option<Json>)
      requires input.Array? && bytes <= maxBytes && depth < MAX_DEPTH && 2 * (|input.items| + 1) <= maxBytes
      modifies this`bytes
      ensures copied.Some? <==> Fits(input, depth, old(bytes), maxBytes)
      ensures copied.Some? ==> copied.value == Normal(input) && bytes == old(bytes) + Cost(input)
      decreases input, 0
    {
      var items := input.items;
      var ok := Add(2 + Max(0, |items| - 1));
      if !ok {
        return None;
      }
      ghost var used := old(bytes);
      var result: seq<Json> := [];
      var i := 0;
      while i < |items|
        invariant 0 <= i <= |items| && result == NormalItems(items, i)
        invariant bytes == used + 2 + Max(0, |items| - 1) + ItemsCost(items, i) <= maxBytes
        invariant ItemsShaped(items, i, depth + 1, maxBytes)
      {
        var item := Copy(items[i], depth + 1);
        if item.None? {
          BadItem(items, i, depth, used, 2 + Max(0, |items| - 1), maxBytes);
          return None;
        }
        OneMoreItem(items, i, depth + 1, maxBytes);
        result := result + [item.value];
        i := i + 1;
      }
      return Some(Array(result));
    }

    method CopyObject(input: Json, depth: nat) returns (copied: Option<Json>)
      requires input.Object? && bytes <= maxBytes && depth < MAX_DEPTH && 2 * |input.fields| <= maxBytes
      modifies this`bytes
      ensures copied.Some? <==> Fits(input, depth, old(bytes), maxBytes)
      ensures copied.Some? ==> copied.value == Normal(input) && bytes == old(bytes) + Cost(input)
      decreases input, 0
    {
      var fields := input.fields;
      var ok := Add(2 + Max(0, |fields| - 1));
      if !ok {
        return None;
      }
      ghost var used := old(bytes);
      var result: seq<Field> := [];
      var i := 0;
      while i < |fields|
        invariant 0 <= i <= |fields| && result == NormalFields(fields, i)
        invariant bytes == used + 2 + Max(0, |fields| - 1) + FieldsCost(fields, i) <= maxBytes
        invariant FieldsShaped(fields, i, depth + 1, maxBytes)
      {
        var field := CopyField(fields[i], depth);
        if field.None? {
          BadField(fields, i, depth, used, 2 + Max(0, |fields| - 1), maxBytes);
          return None;
        }
        OneMoreField(fields, i, depth + 1, maxBytes);
        result := result + [field.value];
        i := i + 1;
      }
      return Some(Object(result));
    }

    method CopyField(field: Field, depth: nat) returns (copied: Option<Field>)
      requires bytes <= maxBytes && depth < MAX_DEPTH
      modifies this`bytes
      ensures copied.Some? <==> FieldFits(field, depth, old(bytes), maxBytes)
      ensures copied.Some? ==>
                && copied.value == Field(field.name, Normal(field.value))
                && bytes == old(bytes) + QuoteSize(field.name) + 1 + Cost(field.value)
      decreases field, 2
    {
      if Forbidden(field.name) {
        return None;
      }
      var ok := AddString(field.name);
      if !ok {
        return None;
      }
      ok := Add(1);
      if !ok {
        return None;
      }
      var value := Copy(field.value, depth + 1);
      copied := if value.Some? then Some(Field(field.name, value.value)) else None;
    }
  }

  /** Accepts exactly what nests at most 16 deep, avoids the forbidden keys and prints within the
      budget, and returns an equal copy; the one exception is KeyBoundsAreImplied's. */
  method CloneIsolatedJson(value: Json, maxBytes: nat) returns (copied: Option<Json>)
    ensures copied.Some? <==>
              && Nesting(value) <= 16 && |Octets(Print(value))| <= maxBytes && Allowed(value)
              && !(value.Array? && 2 * |value.items| + 1 == maxBytes)
    ensures copied.Some? ==> copied.value == Normal(value) && Print(copied.value) == Print(value)
  {
    var cloner := new Cloner(maxBytes);
    copied := cloner.Copy(value, 0);
    PrintSize(value);
    SizeIsOctets(Print(value));
    NormalPrints(value);
    if Cost(value) <= maxBytes {
      KeyBoundsAreImplied(value, maxBytes);
    }
  }
}

/**
 UTF-8 sizes of JavaScript strings, which are sequences of UTF-16 code units. The reference is the
 encoding itself, section 3 of RFC 3629; a lone surrogate encodes as U+FFFD.
 */
module Utf8 {
  type Unit = u: nat | u < 0x1_0000

  type Byte = b: nat | b < 0x100

  predicate High(u: Unit) {
    0xD800 <= u <= 0xDBFF
  }

  predicate Low(u: Unit) {
    0xDC00 <= u <= 0xDFFF
  }

  /** The units at the front form a surrogate pair. */
  predicate PairAt(s: seq<Unit>, i: nat) {
    i + 1 < |s| && High(s[i]) && Low(s[i + 1])
  }

  function Point(high: Unit, low: Unit): (p: nat)
    requires High(high) && Low(low)
    ensures 0x1_0000 <= p < 0x11_0000
  {
    0x1_0000 + (high - 0xD800) * 0x400 + (low - 0xDC00)
  }

  /** A scalar value as one to four octets. */
  function Encode(p: nat): (bytes: seq<Byte>)
    requires p < 0x11_0000
    ensures |bytes| == Width(p)
  {
    if p < 0x80 then [p]
    else if p < 0x800 then [0xC0 + p / 0x40, 0x80 + p % 0x40]
    else if p < 0x1_0000 then [0xE0 + p / 0x1000, 0x80 + p / 0x40 % 0x40, 0x80 + p % 0x40]
    else [0xF0 + p / 0x4_0000, 0x80 + p / 0x1000 % 0x40, 0x80 + p / 0x40 % 0x40, 0x80 + p % 0x40]
  }

  /** How many units the first character takes, and its scalar value. */
  function First(s: seq<Unit>): (r: (nat, nat))
    requires s != []
    ensures 1 <= r.0 <= |s| && r.1 < 0x11_0000
  {
    if PairAt(s, 0) then (2, Point(s[0], s[1]))
    else if High(s[0]) || Low(s[0]) then (1, 0xFFFD)
    else (1, s[0])
  }

  function Octets(s: seq<Unit>): seq<Byte> {
    if s == [] then [] else Encode(First(s).1) + Octets(s[First(s).0..])
  }

  function Width(p: nat): nat {
    if p < 0x80 then 1 else if p < 0x800 then 2 else if p < 0x1_0000 then 3 else 4
  }

  /** The number of octets, without the octets. */
  function Size(s: seq<Unit>): nat {
    if s == [] then 0 else Width(First(s).1) + Size(s[First(s).0..])
  }

  lemma {:induction false} SizeIsOctets(s: seq<Unit>)
    ensures Size(s) == |Octets(s)|
    decreases |s|
  {
    if s != [] {
      SizeIsOctets(s[First(s).0..]);
    }
  }

  /** utf8ByteLength: character by character; a lone surrogate counts as its own code point. */
  method ByteLength(value: seq<Unit>) returns (bytes: nat)
    ensures bytes == |Octets(value)| == Size(value)
  {
    SizeIsOctets(value);
    bytes := 0;
    var i := 0;
    while i < |value|
      invariant 0 <= i <= |value|
      invariant bytes + Size(value[i..]) == Size(value)
      decreases |value| - i
    {
      var point, width := value[i] as nat, 1;
      if PairAt(value, i) {
        point, width := Point(value[i], value[i + 1]), 2;
      }
      assert value[i..][First(value[i..]).0..] == value[i + width..];
      bytes := bytes + if point < 0x80 then 1 else if point < 0x800 then 2 else if point < 0x1_0000 then 3 else 4;
      i := i + width;
    }
  }

  /** Encoding goes piece by piece, unless a cut separates a surrogate pair. */
  lemma {:induction false} OctetsAppend(a: seq<Unit>, b: seq<Unit>)
    requires a != [] && b != [] ==> !(High(a[|a| - 1]) && Low(b[0]))
    ensures Octets(a + b) == Octets(a) + Octets(b)
    decreases |a|
  {
    if a == [] {
      assert a + b == b;
    } else {
      var n := First(a).0;
      assert First(a + b) == First(a);
      assert (a + b)[n..] == a[n..] + b;
      OctetsAppend(a[n..], b);
    }
  }

  lemma SizeAppend(a: seq<Unit>, b: seq<Unit>)
    requires a != [] && b != [] ==> !(High(a[|a| - 1]) && Low(b[0]))
    ensures Size(a + b) == Size(a) + Size(b)
  {
    OctetsAppend(a, b);
    SizeIsOctets(a + b);
    SizeIsOctets(a);
    SizeIsOctets(b);
  }

  predicate Ascii(s: seq<Unit>) {
    forall i :: 0 <= i < |s| ==> s[i] < 0x80
  }

  lemma {:induction false} AsciiSize(s: seq<Unit>)
    requires Ascii(s)
    ensures Size(s) == |s|
    decreases |s|
  {
    if s != [] {
      AsciiSize(s[1..]);
    }
  }

  /** Every unit costs at least one octet. */
  lemma {:induction false} UnitsFit(s: seq<Unit>)
    ensures |s| <= Size(s)
    decreases |s|
  {
    if s != [] {
      UnitsFit(s[First(s).0..]);
    }
  }
}

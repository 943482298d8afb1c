/**
 The incremental HTTP/1 response parser of backend/src/federation/remote-transport.ts
 (message body framing of RFC 9112, sections 6.3 and 7.1).
 This file is the reference semantics: one byte at a time, on values.
 */
module ResponseParser {
  import opened Base

  type Byte = b: int | 0 <= b < 256

  const CR: Byte := 13
  const LF: Byte := 10
  const HEADER_LIMIT := 8192
  const LINE_LIMIT := 64
  const END_OF_HEADERS: seq<Byte> := [13, 10, 13, 10]

  datatype Code = ResponseInvalid | ResponseTooLarge | RedirectDenied | RequestFailed

  /** Header fields that select framing or are reported; names are compared in lower case. */
  datatype Fields = Fields(
    length: Option<string>,
    transfer: Option<string>,
    encoding: Option<string>,
    etag: Option<string>,
    contentType: Option<string>)

  /** A header block as read line by line. Fields are missing when a line is malformed or a
      framing field is repeated. */
  datatype Head = BadStatusLine | Head(status: int, fields: Option<Fields>)

  datatype Metadata = Metadata(status: int, etag: Option<string>, contentType: Option<string>)

  datatype Response = Response(metadata: Metadata, bytes: seq<Byte>)

  datatype Mode = Headers | Length | Close | ChunkLine | ChunkData | ChunkCRLF | Trailers | Done

  /** What one request fixes: the limit, whether it was conditional, and how header text is read. */
  datatype Request = Request(maxBytes: int, conditional: bool, read: seq<Byte> -> Head)

  datatype State = State(
    mode: Mode,
    control: seq<Byte>,
    body: seq<Byte>,
    remaining: int,
    crlf: int,
    metadata: Option<Metadata>,
    responses: seq<Response>)

  const INITIAL := State(Headers, [], [], 0, 0, None, [])

  // ---- Header fields ----

  predicate Digit(c: char) {
    '0' <= c <= '9'
  }

  /** The decimal form 0 or [1-9][0-9]*. */
  predicate Decimal(s: string) {
    && |s| > 0
    && (forall i :: 0 <= i < |s| ==> Digit(s[i]))
    && (s[0] == '0' ==> |s| == 1)
  }

  function DigitValue(c: char): nat
    requires Digit(c)
  {
    c as int - '0' as int
  }

  function DecimalValue(s: string): nat
    requires forall i :: 0 <= i < |s| ==> Digit(s[i])
  {
    if s == [] then 0 else DecimalValue(s[..|s| - 1]) * 10 + DigitValue(s[|s| - 1])
  }

  function Lower(s: string): (t: string)
    ensures |t| == |s|
  {
    seq(|s|, i requires 0 <= i < |s| =>
      if 'A' <= s[i] <= 'Z' then ((s[i] as int - 'A' as int) + 'a' as int) as char else s[i])
  }

  predicate EtagChar(c: char) {
    c == '!' || '#' <= c <= '~'
  }

  predicate QuotedTag(s: string) {
    |s| >= 2 && s[0] == '"' && s[|s| - 1] == '"' && forall i :: 0 < i < |s| - 1 ==> EtagChar(s[i])
  }

  predicate ValidEtag(s: string) {
    |s| <= 200 && (QuotedTag(s) || (|s| >= 2 && s[..2] == "W/" && QuotedTag(s[2..])))
  }

  predicate ValidContentType(s: string) {
    |s| <= 200 && forall i :: 0 <= i < |s| ==> ' ' <= s[i] <= '~'
  }

  predicate ValidFields(f: Fields) {
    && (f.length.Some? ==> Decimal(f.length.value))
    && (f.transfer.Some? ==> Lower(f.transfer.value) == "chunked" && f.length.None?)
    && (f.encoding.Some? ==> Lower(f.encoding.value) == "identity")
    && (f.etag.Some? ==> ValidEtag(f.etag.value))
    && (f.contentType.Some? ==> ValidContentType(f.contentType.value))
  }

  /** The state after a complete header block, or the reason it is refused. */
  function Framing(request: Request, head: Head): Result<State, Code> {
    if head.BadStatusLine? then Err(ResponseInvalid)
    else if 300 <= head.status < 400 && !(head.status == 304 && request.conditional) then Err(RedirectDenied)
    else if head.fields.None? || !ValidFields(head.fields.value) then Err(ResponseInvalid)
    else
      var status, f := head.status, head.fields.value;
      if f.length.Some? && DecimalValue(f.length.value) > request.maxBytes then Err(ResponseTooLarge)
      else if (status == 204 || status == 304)
              && (f.transfer.Some? || (status == 204 && f.length.Some? && f.length.value != "0")) then Err(ResponseInvalid)
      else
        var base := State(Close, [], [], 0, 0, Some(Metadata(status, f.etag, f.contentType)), []);
        if status == 204 || status == 304 || f.length == Some("0") then Ok(base.(mode := Length))
        else if f.transfer.Some? then Ok(base.(mode := ChunkLine))
        else if f.length.Some? then Ok(base.(mode := Length, remaining := DecimalValue(f.length.value)))
        else Ok(base)
  }

  // ---- Chunk sizes ----

  predicate HexDigit(b: Byte) {
    48 <= b <= 57 || 65 <= b <= 70 || 97 <= b <= 102
  }

  function HexDigitValue(b: Byte): nat
    requires HexDigit(b)
  {
    if b <= 57 then b - 48 else if b <= 70 then b - 55 else b - 87
  }

  predicate SizeLine(line: seq<Byte>) {
    1 <= |line| <= 8 && forall i :: 0 <= i < |line| ==> HexDigit(line[i])
  }

  function HexValue(line: seq<Byte>): nat
    requires forall i :: 0 <= i < |line| ==> HexDigit(line[i])
  {
    if line == [] then 0 else HexValue(line[..|line| - 1]) * 16 + HexDigitValue(line[|line| - 1])
  }

  // ---- One byte ----

  predicate EndsWith(s: seq<Byte>, tail: seq<Byte>) {
    |tail| <= |s| && s[|s| - |tail|..] == tail
  }

  function Complete(s: State): Result<State, Code> {
    if s.metadata.None? then Err(ResponseInvalid)
    else Ok(s.(mode := Done, responses := s.responses + [Response(s.metadata.value, s.body)]))
  }

  function HeaderByte(request: Request, s: State, b: Byte): Result<State, Code> {
    if |s.control| == HEADER_LIMIT then Err(ResponseInvalid)
    else
      var control := s.control + [b];
      if EndsWith(control, END_OF_HEADERS) then Framing(request, request.read(control[..|control| - 4]))
      else Ok(s.(control := control))
  }

  function SizeByte(request: Request, s: State, b: Byte): Result<State, Code> {
    if |s.control| == LINE_LIMIT then Err(ResponseInvalid)
    else
      var control := s.control + [b];
      if !EndsWith(control, [CR, LF]) then Ok(s.(control := control))
      else
        var line := control[..|control| - 2];
        if !SizeLine(line) then Err(ResponseInvalid)
        else if HexValue(line) > request.maxBytes - |s.body| then Err(ResponseTooLarge)
        else Ok(s.(control := [], remaining := HexValue(line), crlf := 0,
                   mode := if HexValue(line) == 0 then Trailers else ChunkData))
  }

  function LineEndByte(s: State, b: Byte): Result<State, Code> {
    if b != (if s.crlf == 0 then CR else LF) then Err(ResponseInvalid)
    else if s.crlf + 1 != 2 then Ok(s.(crlf := s.crlf + 1))
    else if s.mode == Trailers then Complete(s.(crlf := 2))
    else Ok(s.(mode := ChunkLine, crlf := 0))
  }

  function BodyByte(request: Request, s: State, b: Byte): Result<State, Code> {
    if s.mode != Close && s.remaining == 0 then Err(ResponseInvalid)
    else if |s.body| + 1 > request.maxBytes then Err(ResponseTooLarge)
    else
      var t := s.(body := s.body + [b]);
      if s.mode == Close then Ok(t)
      else if s.remaining > 1 then Ok(t.(remaining := s.remaining - 1))
      else if s.mode == Length then Complete(t.(remaining := 0))
      else Ok(t.(mode := ChunkCRLF, remaining := 0, crlf := 0))
  }

  /** A byte after the end of the message is always excess. */
  function Step(request: Request, s: State, b: Byte): Result<State, Code> {
    match s.mode
    case Headers => HeaderByte(request, s, b)
    case ChunkLine => SizeByte(request, s, b)
    case ChunkCRLF => LineEndByte(s, b)
    case Trailers => LineEndByte(s, b)
    case Done => Err(ResponseInvalid)
    case _ => BodyByte(request, s, b)
  }

  function Run(request: Request, s: State, bytes: seq<Byte>): Result<State, Code>
    decreases |bytes|
  {
    if bytes == [] then Ok(s)
    else
      match Step(request, s, bytes[0])
      case Err(code) => Err(code)
      case Ok(t) => Run(request, t, bytes[1..])
  }

  /** A message with no body ends with the chunk that holds the end of its header. */
  function Settle(s: State): Result<State, Code> {
    if s.mode == Length && s.remaining == 0 then Complete(s) else Ok(s)
  }

  /** One data event. After completion nothing more is looked at. */
  function Feed(request: Request, s: State, chunk: seq<Byte>): Result<State, Code> {
    if s.mode == Done then Ok(s)
    else
      match Run(request, s, chunk)
      case Err(code) => Err(code)
      case Ok(t) => Settle(t)
  }

  /** The end event. */
  function End(s: State): Result<State, Code> {
    if s.mode == Done then Ok(s)
    else if s.mode != Close then Err(RequestFailed)
    else Complete(s)
  }

  /** All data events of a connection; the first error settles the request. */
  function FeedAll(request: Request, s: State, chunks: seq<seq<Byte>>): Result<State, Code>
    decreases |chunks|
  {
    if chunks == [] then Ok(s)
    else
      match Feed(request, s, chunks[0])
      case Err(code) => Err(code)
      case Ok(t) => FeedAll(request, t, chunks[1..])
  }

  function Concat(chunks: seq<seq<Byte>>): seq<Byte> {
    if chunks == [] then [] else chunks[0] + Concat(chunks[1..])
  }
}

/** Laws of the reference parser: bounds, independence from the cutting, round trips. */
module ResponseParserLaws {
  import opened Base
  import opened ResponseParser

  // ---- Bounds of every reachable state ----

  predicate Bounded(request: Request, s: State) {
    && |s.control| <= HEADER_LIMIT
    && (s.mode == ChunkLine ==> |s.control| <= LINE_LIMIT)
    && (s.mode != Headers && s.mode != ChunkLine ==> s.control == [])
    && 0 <= s.remaining && |s.body| + s.remaining <= request.maxBytes
    && 0 <= s.crlf <= 2 && (s.mode == ChunkCRLF || s.mode == Trailers ==> s.crlf < 2)
    && (s.mode == ChunkData ==> s.remaining > 0)
    && (s.mode != Headers ==> s.metadata.Some?)
    && (s.mode == Headers ==> s.body == [])
    && (s.mode == Headers || s.mode == Close ==> s.remaining == 0)
    && if s.mode == Done then s.responses == [Response(s.metadata.value, s.body)] else s.responses == []
  }

  lemma FramingBounded(request: Request, head: Head)
    requires request.maxBytes >= 0 && Framing(request, head).Ok?
    ensures Bounded(request, Framing(request, head).value)
  {
  }

  lemma HeaderByteBounded(request: Request, s: State, b: Byte)
    requires request.maxBytes >= 0 && Bounded(request, s) && s.mode == Headers && HeaderByte(request, s, b).Ok?
    ensures Bounded(request, HeaderByte(request, s, b).value)
  {
    var control := s.control + [b];
    if EndsWith(control, END_OF_HEADERS) {
      FramingBounded(request, request.read(control[..|control| - 4]));
    }
  }

  lemma SizeByteBounded(request: Request, s: State, b: Byte)
    requires Bounded(request, s) && s.mode == ChunkLine && SizeByte(request, s, b).Ok?
    ensures Bounded(request, SizeByte(request, s, b).value)
  {
  }

  lemma LineEndByteBounded(request: Request, s: State, b: Byte)
    requires Bounded(request, s) && (s.mode == ChunkCRLF || s.mode == Trailers) && LineEndByte(s, b).Ok?
    ensures Bounded(request, LineEndByte(s, b).value)
  {
  }

  lemma BodyByteBounded(request: Request, s: State, b: Byte)
    requires Bounded(request, s) && (s.mode == Length || s.mode == Close || s.mode == ChunkData)
    requires BodyByte(request, s, b).Ok?
    ensures Bounded(request, BodyByte(request, s, b).value)
  {
  }

  lemma StepBounded(request: Request, s: State, b: Byte)
    requires request.maxBytes >= 0 && Bounded(request, s) && Step(request, s, b).Ok?
    ensures Bounded(request, Step(request, s, b).value)
  {
    match s.mode
    case Headers => HeaderByteBounded(request, s, b);
    case ChunkLine => SizeByteBounded(request, s, b);
    case ChunkCRLF => LineEndByteBounded(request, s, b);
    case Trailers => LineEndByteBounded(request, s, b);
    case Done =>
    case _ => BodyByteBounded(request, s, b);
  }

  lemma {:induction false} RunBounded(request: Request, s: State, bytes: seq<Byte>)
    requires request.maxBytes >= 0 && Bounded(request, s) && Run(request, s, bytes).Ok?
    ensures Bounded(request, Run(request, s, bytes).value)
    decreases |bytes|
  {
    if bytes != [] {
      StepBounded(request, s, bytes[0]);
      RunBounded(request, Step(request, s, bytes[0]).value, bytes[1..]);
    }
  }

  /** However the data arrives: buffers stay within their limits and complete is called at most once. */
  lemma {:induction false} ConnectionBounded(request: Request, s: State, chunks: seq<seq<Byte>>)
    requires request.maxBytes >= 0 && Bounded(request, s) && FeedAll(request, s, chunks).Ok?
    ensures var t := FeedAll(request, s, chunks).value;
            && Bounded(request, t) && |t.responses| <= 1
            && (End(t).Ok? ==> Bounded(request, End(t).value))
            && (s.mode == Done ==> t == s && End(t) == Ok(s))
    decreases |chunks|
  {
    if chunks != [] {
      if s.mode != Done {
        RunBounded(request, s, chunks[0]);
      }
      ConnectionBounded(request, Feed(request, s, chunks[0]).value, chunks[1..]);
    }
  }

  // ---- Independence from the cutting ----

  /** Go on with more bytes unless already refused. */
  function Continue(request: Request, r: Result<State, Code>, bytes: seq<Byte>): Result<State, Code> {
    if r.Err? then r else Run(request, r.value, bytes)
  }

  lemma {:induction false} RunConcat(request: Request, s: State, a: seq<Byte>, b: seq<Byte>)
    ensures Run(request, s, a + b) == Continue(request, Run(request, s, a), b)
    decreases |a|
  {
    if a == [] {
      assert a + b == b;
    } else {
      assert (a + b)[1..] == a[1..] + b;
      if Step(request, s, a[0]).Ok? {
        RunConcat(request, Step(request, s, a[0]).value, a[1..], b);
      }
    }
  }

  /** If a neither fails nor completes, it does not matter whether b comes with it or after it. */
  lemma SplitIndependence(request: Request, s: State, a: seq<Byte>, b: seq<Byte>)
    requires Feed(request, s, a).Ok? && Feed(request, s, a).value.mode != Done
    ensures Feed(request, s, a + b) == Feed(request, Feed(request, s, a).value, b)
  {
    RunConcat(request, s, a, b);
  }

  /** A failed start fails with the same code whatever follows. */
  lemma FailureIsFinal(request: Request, s: State, a: seq<Byte>, b: seq<Byte>)
    requires Feed(request, s, a).Err? && request.maxBytes >= 0 && Bounded(request, s)
    ensures Feed(request, s, a + b) == Feed(request, s, a)
  {
    RunConcat(request, s, a, b);
    if Run(request, s, a).Ok? {
      RunBounded(request, s, a);
    }
  }

  /** No proper prefix of the message is already a complete message. */
  ghost predicate NoExcess(request: Request, s: State, bytes: seq<Byte>) {
    s.mode != Done && forall k :: 0 <= k < |bytes| ==> !CompletesAt(request, s, bytes, k)
  }

  predicate CompletesAt(request: Request, s: State, bytes: seq<Byte>, k: nat)
    requires k <= |bytes|
  {
    var r := Feed(request, s, bytes[..k]);
    r.Ok? && r.value.mode == Done
  }

  /** Any cutting of a message without excess bytes has the result of the uncut message. */
  lemma {:induction false} AnyCutting(request: Request, s: State, chunks: seq<seq<Byte>>)
    requires request.maxBytes >= 0 && Bounded(request, s)
    requires s.mode == Length ==> s.remaining > 0
    requires NoExcess(request, s, Concat(chunks))
    ensures FeedAll(request, s, chunks) == Feed(request, s, Concat(chunks))
    decreases |chunks|
  {
    if chunks == [] {
      return;
    }
    var a, rest := chunks[0], Concat(chunks[1..]);
    var all := a + rest;
    assert all[..|a|] == a;
    var first := Feed(request, s, a);
    if first.Err? {
      FailureIsFinal(request, s, a, rest);
    } else if rest == [] {
      assert all == a;
      OnlyEmptyChunks(request, first.value, chunks[1..]);
      RunBounded(request, s, a);
    } else {
      assert !CompletesAt(request, s, all, |a|);
      var t := first.value;
      RunBounded(request, s, a);
      SplitIndependence(request, s, a, rest);
      forall k | 0 <= k < |rest| ensures !CompletesAt(request, t, rest, k) {
        SplitIndependence(request, s, a, rest[..k]);
        assert all[..|a| + k] == a + rest[..k];
        assert !CompletesAt(request, s, all, |a| + k);
      }
      AnyCutting(request, t, chunks[1..]);
    }
  }

  lemma {:induction false} OnlyEmptyChunks(request: Request, s: State, chunks: seq<seq<Byte>>)
    requires Concat(chunks) == [] && (s.mode == Length ==> s.remaining != 0)
    ensures FeedAll(request, s, chunks) == Ok(s)
    decreases |chunks|
  {
    if chunks != [] {
      OnlyEmptyChunks(request, s, chunks[1..]);
    }
  }

  /** With excess bytes the cut matters: in one chunk the message is refused, */
  lemma ExcessInOneChunk(request: Request, s: State, message: seq<Byte>, excess: seq<Byte>)
    requires request.maxBytes >= 0 && Bounded(request, s) && s.mode != Done && excess != []
    requires CompletesAt(request, s, message, |message|)
    ensures Feed(request, s, message + excess) == Err(ResponseInvalid)
  {
    assert message[..|message|] == message;
    RunConcat(request, s, message, excess);
    RunBounded(request, s, message);
    var t := Run(request, s, message).value;
    assert Step(request, t, excess[0]) == Err(ResponseInvalid);
  }

  /** while a cut at its end completes it. */
  lemma ExcessAfterCut(request: Request, s: State, message: seq<Byte>, excess: seq<Byte>)
    requires CompletesAt(request, s, message, |message|)
    ensures FeedAll(request, s, [message, excess]) == Feed(request, s, message)
  {
    assert message[..|message|] == message;
    var t := Feed(request, s, message).value;
    var chunks := [message, excess];
    assert chunks[1..] == [excess];
    assert FeedAll(request, t, [excess]) == FeedAll(request, t, []);
  }

  // ---- Stretches of input ----

  predicate TakesData(s: State, data: seq<Byte>) {
    (s.mode == Length || s.mode == ChunkData) && 0 < |data| <= s.remaining
  }

  function AfterData(s: State, data: seq<Byte>): Result<State, Code>
    requires TakesData(s, data)
  {
    var t := s.(body := s.body + data, remaining := s.remaining - |data|);
    if |data| < s.remaining then Ok(t)
    else if s.mode == Length then Complete(t)
    else Ok(t.(mode := ChunkCRLF, crlf := 0))
  }

  /** A stretch of announced body data can be copied at once. */
  lemma {:induction false} RunData(request: Request, s: State, data: seq<Byte>)
    requires TakesData(s, data) && |s.body| + |data| <= request.maxBytes
    ensures Run(request, s, data) == AfterData(s, data)
    decreases |data|
  {
    if |data| == 1 {
      assert data == [data[0]];
      RunOne(request, s, data[0]);
    } else {
      var t := s.(body := s.body + [data[0]], remaining := s.remaining - 1);
      RunData(request, t, data[1..]);
      assert t.body + data[1..] == s.body + data;
    }
  }

  /** Without an announced length everything up to the limit is body, and nothing beyond it. */
  lemma {:induction false} RunClose(request: Request, s: State, data: seq<Byte>)
    requires s.mode == Close && |s.body| <= request.maxBytes
    ensures Run(request, s, data)
         == if |s.body| + |data| <= request.maxBytes then Ok(s.(body := s.body + data)) else Err(ResponseTooLarge)
    decreases |data|
  {
    if data == [] {
      assert s.body + data == s.body;
    } else if |s.body| < request.maxBytes {
      var t := s.(body := s.body + [data[0]]);
      RunClose(request, t, data[1..]);
      assert t.body + data[1..] == s.body + data;
    }
  }

  // ---- Header block ----

  /** A complete header block: it ends with the blank line and does so for the first time. */
  predicate HeaderBlock(block: seq<Byte>) {
    && |block| <= HEADER_LIMIT
    && EndsWith(block, END_OF_HEADERS)
    && forall k :: 0 <= k < |block| ==> !EndsWith(block[..k], END_OF_HEADERS)
  }

  lemma RunOne(request: Request, s: State, b: Byte)
    ensures Run(request, s, [b]) == Step(request, s, b)
  {
    assert [b][1..] == [];
    if Step(request, s, b).Ok? {
      assert Run(request, Step(request, s, b).value, []) == Step(request, s, b);
    }
  }

  /** One more byte after some that are accepted. */
  lemma RunThenByte(request: Request, s: State, bytes: seq<Byte>, b: Byte)
    requires Run(request, s, bytes).Ok?
    ensures Run(request, s, bytes + [b]) == Step(request, Run(request, s, bytes).value, b)
  {
    RunConcat(request, s, bytes, [b]);
    RunOne(request, Run(request, s, bytes).value, b);
  }

  lemma {:induction false} RunHeaderPart(request: Request, block: seq<Byte>, k: nat)
    requires HeaderBlock(block) && k < |block|
    ensures Run(request, INITIAL, block[..k]) == Ok(INITIAL.(control := block[..k]))
    decreases k
  {
    if k > 0 {
      RunHeaderPart(request, block, k - 1);
      assert block[..k] == block[..k - 1] + [block[k - 1]];
      RunThenByte(request, INITIAL, block[..k - 1], block[k - 1]);
    }
  }

  function HeadState(request: Request, block: seq<Byte>): Result<State, Code>
    requires |block| >= 4
  {
    Framing(request, request.read(block[..|block| - 4]))
  }

  lemma RunHeader(request: Request, block: seq<Byte>)
    requires HeaderBlock(block)
    ensures Run(request, INITIAL, block) == HeadState(request, block)
  {
    var k := |block| - 1;
    RunHeaderPart(request, block, k);
    assert block == block[..k] + [block[k]];
    RunThenByte(request, INITIAL, block[..k], block[k]);
  }

  /** The bytes after the header block meet an empty body within the limit. */
  lemma RunAfterHeader(request: Request, block: seq<Byte>, rest: seq<Byte>)
    requires request.maxBytes >= 0 && HeaderBlock(block) && HeadState(request, block).Ok?
    ensures var s := HeadState(request, block).value;
            && Run(request, INITIAL, block + rest) == Run(request, s, rest)
            && Bounded(request, s) && s.body == [] && s.control == [] && s.responses == []
            && s.metadata.Some? && s.mode in {Length, Close, ChunkLine}
  {
    FramingBounded(request, request.read(block[..|block| - 4]));
    RunHeader(request, block);
    RunConcat(request, INITIAL, block, rest);
  }

  // ---- Chunked bodies ----

  datatype Chunk = Chunk(size: seq<Byte>, data: seq<Byte>)

  /** chunk = chunk-size CRLF chunk-data CRLF, with one to eight hexadecimal digits. */
  predicate ValidChunk(c: Chunk) {
    c.data != [] && SizeLine(c.size) && HexValue(c.size) == |c.data|
  }

  predicate LastChunk(size: seq<Byte>) {
    SizeLine(size) && HexValue(size) == 0
  }

  function Encode(c: Chunk): seq<Byte> {
    c.size + [CR, LF] + (c.data + [CR, LF])
  }

  function EncodeBody(chunks: seq<Chunk>, last: seq<Byte>): seq<Byte> {
    if chunks == [] then last + [CR, LF] + [CR, LF]
    else Encode(chunks[0]) + EncodeBody(chunks[1..], last)
  }

  function DataOf(chunks: seq<Chunk>): seq<Byte> {
    if chunks == [] then [] else chunks[0].data + DataOf(chunks[1..])
  }

  /** Between chunks. */
  predicate AtChunk(request: Request, s: State) {
    s.mode == ChunkLine && s.control == [] && s.metadata.Some? && |s.body| <= request.maxBytes
  }

  /** Any byte but a line feed is kept. */
  lemma SizeByteKept(request: Request, s: State, b: Byte)
    requires s.mode == ChunkLine && |s.control| < LINE_LIMIT && b != LF
    ensures Step(request, s, b) == Ok(s.(control := s.control + [b]))
  {
    var control := s.control + [b];
    assert control[|control| - 1] == b;
  }

  lemma {:induction false} RunSizeDigits(request: Request, s: State, size: seq<Byte>, k: nat)
    requires AtChunk(request, s) && SizeLine(size) && k <= |size|
    ensures Run(request, s, size[..k]) == Ok(s.(control := size[..k]))
    decreases k
  {
    if k == 0 {
      assert size[..k] == s.control;
    } else {
      RunSizeDigits(request, s, size, k - 1);
      assert size[..k] == size[..k - 1] + [size[k - 1]];
      RunThenByte(request, s, size[..k - 1], size[k - 1]);
      SizeByteKept(request, s.(control := size[..k - 1]), size[k - 1]);
    }
  }

  function SizeRead(request: Request, s: State, size: seq<Byte>): Result<State, Code>
    requires SizeLine(size)
  {
    if HexValue(size) > request.maxBytes - |s.body| then Err(ResponseTooLarge)
    else Ok(s.(control := [], remaining := HexValue(size), crlf := 0,
               mode := if HexValue(size) == 0 then Trailers else ChunkData))
  }

  /** The line feed after size and carriage return ends the line. */
  lemma SizeLineEnds(request: Request, s: State, size: seq<Byte>)
    requires s.mode == ChunkLine && SizeLine(size) && s.control == size + [CR]
    ensures Step(request, s, LF) == SizeRead(request, s, size)
  {
    var control := s.control + [LF];
    assert control[|control| - 2..] == [CR, LF];
    assert control[..|control| - 2] == size;
  }

  lemma RunSizeLine(request: Request, s: State, size: seq<Byte>)
    requires AtChunk(request, s) && SizeLine(size)
    ensures Run(request, s, size + [CR, LF]) == SizeRead(request, s, size)
  {
    RunSizeDigits(request, s, size, |size|);
    assert size[..|size|] == size;
    RunThenByte(request, s, size, CR);
    SizeByteKept(request, s.(control := size), CR);
    RunThenByte(request, s, size + [CR], LF);
    SizeLineEnds(request, s.(control := size + [CR]), size);
    assert size + [CR] + [LF] == size + [CR, LF];
  }

  lemma RunLineEnd(request: Request, s: State)
    requires (s.mode == ChunkCRLF || s.mode == Trailers) && s.crlf == 0 && s.metadata.Some?
    ensures Run(request, s, [CR, LF])
         == if s.mode == Trailers then Complete(s.(crlf := 2)) else Ok(s.(mode := ChunkLine, crlf := 0))
  {
    assert [CR] + [LF] == [CR, LF];
    RunConcat(request, s, [CR], [LF]);
    RunOne(request, s, CR);
    RunOne(request, s.(crlf := 1), LF);
  }

  lemma RunChunk(request: Request, s: State, c: Chunk)
    requires AtChunk(request, s) && ValidChunk(c)
    ensures Run(request, s, Encode(c))
         == if |s.body| + |c.data| > request.maxBytes then Err(ResponseTooLarge)
            else Ok(s.(body := s.body + c.data, remaining := 0, crlf := 0))
  {
    RunSizeLine(request, s, c.size);
    RunConcat(request, s, c.size + [CR, LF], c.data + [CR, LF]);
    if |s.body| + |c.data| <= request.maxBytes {
      var t := s.(remaining := |c.data|, crlf := 0, mode := ChunkData);
      RunData(request, t, c.data);
      RunConcat(request, t, c.data, [CR, LF]);
      RunLineEnd(request, AfterData(t, c.data).value);
    }
  }

  /** The body was delivered, or it is too large. */
  predicate EndsWithBody(request: Request, s: State, body: seq<Byte>, r: Result<State, Code>)
    requires s.metadata.Some?
  {
    if |body| > request.maxBytes then r == Err(ResponseTooLarge)
    else r.Ok? && r.value.mode == Done && r.value.responses == s.responses + [Response(s.metadata.value, body)]
  }

  lemma RunLastChunk(request: Request, s: State, last: seq<Byte>)
    requires AtChunk(request, s) && LastChunk(last)
    ensures EndsWithBody(request, s, s.body, Run(request, s, last + [CR, LF] + [CR, LF]))
  {
    RunSizeLine(request, s, last);
    RunConcat(request, s, last + [CR, LF], [CR, LF]);
    RunLineEnd(request, s.(remaining := 0, crlf := 0, mode := Trailers));
  }

  lemma RunChunkThen(request: Request, s: State, c: Chunk, rest: seq<Byte>)
    requires AtChunk(request, s) && ValidChunk(c)
    ensures Run(request, s, Encode(c) + rest)
         == if |s.body| + |c.data| > request.maxBytes then Err(ResponseTooLarge)
            else Run(request, s.(body := s.body + c.data, remaining := 0, crlf := 0), rest)
  {
    RunChunk(request, s, c);
    RunConcat(request, s, Encode(c), rest);
  }

  lemma Associates(a: seq<Byte>, b: seq<Byte>, c: seq<Byte>)
    ensures (a + b) + c == a + (b + c)
  {
  }

  lemma {:induction false} RunBody(request: Request, s: State, chunks: seq<Chunk>, last: seq<Byte>)
    requires AtChunk(request, s) && LastChunk(last) && forall i :: 0 <= i < |chunks| ==> ValidChunk(chunks[i])
    ensures EndsWithBody(request, s, s.body + DataOf(chunks), Run(request, s, EncodeBody(chunks, last)))
    decreases |chunks|
  {
    if chunks == [] {
      RunLastChunk(request, s, last);
      assert s.body + DataOf(chunks) == s.body;
    } else {
      var c, rest := chunks[0], chunks[1..];
      RunChunkThen(request, s, c, EncodeBody(rest, last));
      Associates(s.body, c.data, DataOf(rest));
      if |s.body| + |c.data| <= request.maxBytes {
        RunBody(request, s.(body := s.body + c.data, remaining := 0, crlf := 0), rest, last);
      }
    }
  }

  // ---- Round trips ----

  predicate Delivers(r: Result<State, Code>, response: Response) {
    r.Ok? && r.value.mode == Done && r.value.responses == [response]
  }

  /** Every chunked encoding of a body decodes to the body, exactly when it fits the limit. */
  lemma ChunkedRoundTrip(request: Request, block: seq<Byte>, chunks: seq<Chunk>, last: seq<Byte>)
    requires request.maxBytes >= 0 && HeaderBlock(block) && LastChunk(last)
    requires forall i :: 0 <= i < |chunks| ==> ValidChunk(chunks[i])
    requires HeadState(request, block).Ok? && HeadState(request, block).value.mode == ChunkLine
    ensures var r := Feed(request, INITIAL, block + EncodeBody(chunks, last));
            if |DataOf(chunks)| <= request.maxBytes
            then Delivers(r, Response(HeadState(request, block).value.metadata.value, DataOf(chunks)))
            else r == Err(ResponseTooLarge)
  {
    var s := HeadState(request, block).value;
    RunAfterHeader(request, block, EncodeBody(chunks, last));
    RunBody(request, s, chunks, last);
    assert s.body + DataOf(chunks) == DataOf(chunks);
  }

  /** A body of the announced length is delivered as it is; this includes bodies that must be empty. */
  lemma LengthRoundTrip(request: Request, block: seq<Byte>, body: seq<Byte>)
    requires request.maxBytes >= 0 && HeaderBlock(block)
    requires HeadState(request, block).Ok? && HeadState(request, block).value.mode == Length
    requires |body| == HeadState(request, block).value.remaining
    ensures Delivers(Feed(request, INITIAL, block + body), Response(HeadState(request, block).value.metadata.value, body))
  {
    var s := HeadState(request, block).value;
    RunAfterHeader(request, block, body);
    assert s.body + body == body;
    if body != [] {
      RunData(request, s, body);
    }
  }

  /** A close-delimited body is what arrives before the end of the connection. */
  lemma CloseRoundTrip(request: Request, block: seq<Byte>, body: seq<Byte>)
    requires request.maxBytes >= 0 && HeaderBlock(block)
    requires HeadState(request, block).Ok? && HeadState(request, block).value.mode == Close
    ensures var r := Feed(request, INITIAL, block + body);
            if |body| <= request.maxBytes
            then && r.Ok? && r.value.mode == Close
                 && Delivers(End(r.value), Response(HeadState(request, block).value.metadata.value, body))
            else r == Err(ResponseTooLarge)
  {
    var s := HeadState(request, block).value;
    RunAfterHeader(request, block, body);
    RunClose(request, s, body);
    assert s.body + body == body;
  }

  // ---- Round trips over any cutting ----

  /** A message that is not refused for excess bytes has none, wherever one looks. */
  lemma AcceptedHasNoExcess(request: Request, s: State, message: seq<Byte>)
    requires request.maxBytes >= 0 && Bounded(request, s) && s.mode != Done
    requires Feed(request, s, message) != Err(ResponseInvalid)
    ensures NoExcess(request, s, message)
  {
    forall k | 0 <= k < |message| ensures !CompletesAt(request, s, message, k) {
      if CompletesAt(request, s, message, k) {
        assert message[..k][..k] == message[..k] && message[..k] + message[k..] == message;
        ExcessInOneChunk(request, s, message[..k], message[k..]);
      }
    }
  }

  lemma AnyCuttingOfMessage(request: Request, message: seq<Byte>, pieces: seq<seq<Byte>>)
    requires request.maxBytes >= 0 && Concat(pieces) == message
    requires Feed(request, INITIAL, message) != Err(ResponseInvalid)
    ensures FeedAll(request, INITIAL, pieces) == Feed(request, INITIAL, message)
  {
    AcceptedHasNoExcess(request, INITIAL, message);
    AnyCutting(request, INITIAL, pieces);
  }

  /** However a chunked message arrives, in however many data events, exactly its body is delivered. */
  lemma ChunkedInPieces(request: Request, block: seq<Byte>, chunks: seq<Chunk>, last: seq<Byte>, pieces: seq<seq<Byte>>)
    requires request.maxBytes >= 0 && HeaderBlock(block) && LastChunk(last)
    requires forall i :: 0 <= i < |chunks| ==> ValidChunk(chunks[i])
    requires HeadState(request, block).Ok? && HeadState(request, block).value.mode == ChunkLine
    requires Concat(pieces) == block + EncodeBody(chunks, last)
    ensures var r := FeedAll(request, INITIAL, pieces);
            if |DataOf(chunks)| <= request.maxBytes
            then Delivers(r, Response(HeadState(request, block).value.metadata.value, DataOf(chunks)))
            else r == Err(ResponseTooLarge)
  {
    ChunkedRoundTrip(request, block, chunks, last);
    AnyCuttingOfMessage(request, block + EncodeBody(chunks, last), pieces);
  }

  /** The same for a body of announced length, */
  lemma LengthInPieces(request: Request, block: seq<Byte>, body: seq<Byte>, pieces: seq<seq<Byte>>)
    requires request.maxBytes >= 0 && HeaderBlock(block)
    requires HeadState(request, block).Ok? && HeadState(request, block).value.mode == Length
    requires |body| == HeadState(request, block).value.remaining
    requires Concat(pieces) == block + body
    ensures Delivers(FeedAll(request, INITIAL, pieces), Response(HeadState(request, block).value.metadata.value, body))
  {
    LengthRoundTrip(request, block, body);
    AnyCuttingOfMessage(request, block + body, pieces);
  }

  /** and for one that ends with the connection. */
  lemma CloseInPieces(request: Request, block: seq<Byte>, body: seq<Byte>, pieces: seq<seq<Byte>>)
    requires request.maxBytes >= 0 && HeaderBlock(block)
    requires HeadState(request, block).Ok? && HeadState(request, block).value.mode == Close
    requires Concat(pieces) == block + body
    ensures var r := FeedAll(request, INITIAL, pieces);
            if |body| <= request.maxBytes
            then r.Ok? && Delivers(End(r.value), Response(HeadState(request, block).value.metadata.value, body))
            else r == Err(ResponseTooLarge)
  {
    CloseRoundTrip(request, block, body);
    AnyCuttingOfMessage(request, block + body, pieces);
  }

  /** A connection that ends early never yields a response, whatever framing was announced. */
  lemma EarlyEnd(request: Request, chunks: seq<seq<Byte>>)
    requires request.maxBytes >= 0 && FeedAll(request, INITIAL, chunks).Ok?
    ensures var t := FeedAll(request, INITIAL, chunks).value;
            && (t.mode != Close && t.mode != Done ==> End(t) == Err(RequestFailed) && t.responses == [])
            && (t.mode == Close ==> t.metadata.Some? && Delivers(End(t), Response(t.metadata.value, t.body)))
  {
    ConnectionBounded(request, INITIAL, chunks);
  }

  // ---- Every body has each of the three forms ----

  function DecimalDigits(n: nat): (s: string)
    ensures |s| > 0 && forall i :: 0 <= i < |s| ==> Digit(s[i])
  {
    if n < 10 then [DigitOf(n)] else DecimalDigits(n / 10) + [DigitOf(n % 10)]
  }

  function DigitOf(n: nat): (c: char)
    requires n < 10
    ensures Digit(c) && DigitValue(c) == n && (c == '0' <==> n == 0)
  {
    ('0' as int + n) as char
  }

  /** A printed Content-Length is accepted and read back. */
  lemma {:induction false} DecimalRoundTrip(n: nat)
    ensures Decimal(DecimalDigits(n)) && DecimalValue(DecimalDigits(n)) == n
    ensures DecimalDigits(n)[0] == '0' <==> n == 0
    decreases n
  {
    var s := DecimalDigits(n);
    if n < 10 {
      assert s[..|s| - 1] == [];
    } else {
      DecimalRoundTrip(n / 10);
      assert s[..|s| - 1] == DecimalDigits(n / 10);
    }
  }

  function HexDigitOf(n: nat): (b: Byte)
    requires n < 16
    ensures HexDigit(b) && HexDigitValue(b) == n
  {
    if n < 10 then 48 + n else 87 + n
  }

  function HexDigits(n: nat): (s: seq<Byte>)
    ensures |s| > 0 && forall i :: 0 <= i < |s| ==> HexDigit(s[i])
  {
    if n < 16 then [HexDigitOf(n)] else HexDigits(n / 16) + [HexDigitOf(n % 16)]
  }

  function Power16(k: nat): (p: nat)
    ensures p >= 1
  {
    if k == 0 then 1 else 16 * Power16(k - 1)
  }

  lemma {:induction false} HexRoundTrip(n: nat, k: nat)
    requires n < Power16(k + 1)
    ensures HexValue(HexDigits(n)) == n && |HexDigits(n)| <= k + 1
    decreases k
  {
    var s := HexDigits(n);
    if n < 16 {
      assert s[..|s| - 1] == [];
    } else {
      assert k > 0 by {
        assert Power16(1) == 16;
      }
      HexRoundTrip(n / 16, k - 1);
      assert s[..|s| - 1] == HexDigits(n / 16);
    }
  }

  function ChunkOf(data: seq<Byte>): Chunk {
    Chunk(HexDigits(|data|), data)
  }

  /** Up to the largest size the grammar can announce, every non-empty piece is a valid chunk. */
  lemma EveryPieceIsAChunk(data: seq<Byte>)
    requires 0 < |data| < 0x1_0000_0000
    ensures ValidChunk(ChunkOf(data)) && LastChunk(HexDigits(0))
  {
    assert Power16(8) == 0x1_0000_0000 by {
      assert Power16(2) == 256;
      assert Power16(4) == 65536;
    }
    HexRoundTrip(|data|, 7);
    HexRoundTrip(0, 0);
  }
}

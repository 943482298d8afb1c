/**
 The parser object itself: fixed buffers, updated in place, whole stretches of body copied at once.
 Every method is proved against the byte-at-a-time reference semantics.
 */
module RemoteResponseParser {
  import opened Base
  import R = ResponseParser
  import Laws = ResponseParserLaws

  type Byte = R.Byte
  type Code = R.Code

  /** A copied stretch of body data is what the byte-at-a-time parser makes of it. */
  lemma RunStretch(request: R.Request, s: R.State, data: seq<Byte>, rest: seq<Byte>)
    requires Laws.Bounded(request, s) && (s.mode == R.Length || s.mode == R.ChunkData || s.mode == R.Close)
    requires s.mode == R.Close || (|data| <= s.remaining && (data == [] ==> s.remaining == 0))
    ensures R.Run(request, s, data + rest) ==
              if |s.body| + |data| > request.maxBytes then Err(R.ResponseTooLarge)
              else if s.mode == R.Close then R.Run(request, s.(body := s.body + data), rest)
              else if data == [] then R.Run(request, s, rest)
              else Laws.Continue(request, Laws.AfterData(s, data), rest)
  {
    Laws.RunConcat(request, s, data, rest);
    if s.mode == R.Close {
      Laws.RunClose(request, s, data);
    } else if data != [] {
      Laws.RunData(request, s, data);
    } else {
      assert data + rest == rest;
    }
  }

  class Parser {
    const maxBytes: int
    const conditional: bool
    // How header text is read into a head; the regular expressions are not part of this model.
    const read: seq<Byte> -> R.Head
    const control: array<Byte>
    var mode: R.Mode
    var used: nat
    var body: array?<Byte>
    var total: nat
    var remaining: int
    var crlf: int
    var metadata: Option<R.Metadata>
    // The responses passed to the complete callback.
    var responses: seq<R.Response>

    ghost predicate Valid()
      reads this, control, body
    {
      Held() && Laws.Bounded(Request(), Abstract())
    }

    ghost predicate Held()
      reads this
    {
      && maxBytes >= 1
      && control.Length == R.HEADER_LIMIT && used <= control.Length
      && (body == null ==> mode == R.Headers && total == 0)
      && (body != null ==> body != control && body.Length == maxBytes && total <= maxBytes)
    }

    ghost function Request(): R.Request {
      R.Request(maxBytes, conditional, read)
    }

    ghost function Abstract(): R.State
      reads this, control, body
      requires used <= control.Length && (body != null ==> total <= body.Length)
    {
      R.State(mode, control[..used], if body == null then [] else body[..total], remaining, crlf, metadata, responses)
    }

    /** The outcome of an operation: the new state, or an error that settles the request. */
    ghost predicate Outcome(expected: Result<R.State, Code>, error: Option<Code>)
      reads this, control, body
    {
      match expected
      case Err(code) => error == Some(code)
      case Ok(t) => error == None && Valid() && Abstract() == t
    }

    constructor (maxBytes: int, conditional: bool, read: seq<Byte> -> R.Head)
      requires maxBytes >= 1
      ensures Valid() && Abstract() == R.INITIAL && Request() == R.Request(maxBytes, conditional, read)
      ensures body == null && fresh(control)
    {
      this.maxBytes, this.conditional, this.read := maxBytes, conditional, read;
      control := new Byte[R.HEADER_LIMIT];
      mode, used, body, total, remaining, crlf := R.Headers, 0, null, 0, 0, 0;
      metadata, responses := None, [];
    }

    method HeaderBlock() returns (error: Option<Code>)
      requires Valid() && mode == R.Headers && used >= 4
      modifies this
      ensures Outcome(R.Framing(Request(), read(old(control[..used - 4]))), error)
      ensures body == old(body) || fresh(body)
    {
      var framing := R.Framing(R.Request(maxBytes, conditional, read), read(control[..used - 4]));
      if framing.Err? {
        return Some(framing.error);
      }
      Laws.FramingBounded(Request(), read(control[..used - 4]));
      var s := framing.value;
      metadata := s.metadata;
      body := new Byte[maxBytes];
      used, total, crlf := 0, 0, 0;
      mode, remaining := s.mode, s.remaining;
      return None;
    }

    method Put(b: Byte)
      requires Valid() && (mode == R.Headers || mode == R.ChunkLine)
      requires used < if mode == R.Headers then R.HEADER_LIMIT else R.LINE_LIMIT
      modifies this`used, control
      ensures Valid() && used == old(used) + 1
      ensures Abstract() == old(Abstract()).(control := old(Abstract().control) + [b])
    {
      ghost var before := control[..used];
      control[used] := b;
      used := used + 1;
      assert control[..used] == before + [b];
    }

    predicate HeaderEnded()
      reads this, control
      requires used <= control.Length
      ensures HeaderEnded() <==> R.EndsWith(control[..used], R.END_OF_HEADERS)
    {
      var n := used;
      if n < 4 then false
      else
        assert control[..n][n - 4..] == [control[n - 4], control[n - 3], control[n - 2], control[n - 1]];
        control[n - 4] == 13 && control[n - 3] == 10 && control[n - 2] == 13 && control[n - 1] == 10
    }

    predicate LineEnded()
      reads this, control
      requires used <= control.Length
      ensures LineEnded() <==> R.EndsWith(control[..used], [R.CR, R.LF])
    {
      var n := used;
      if n < 2 then false
      else
        assert control[..n][n - 2..] == [control[n - 2], control[n - 1]];
        control[n - 2] == 13 && control[n - 1] == 10
    }

    method HeaderByte(b: Byte) returns (error: Option<Code>)
      requires Valid() && mode == R.Headers
      modifies this, control
      ensures Outcome(R.HeaderByte(Request(), old(Abstract()), b), error)
      ensures body == old(body) || fresh(body)
    {
      if used == R.HEADER_LIMIT {
        return Some(R.ResponseInvalid);
      }
      Put(b);
      if HeaderEnded() {
        assert control[..used][..used - 4] == control[..used - 4];
        error := HeaderBlock();
      } else {
        error := None;
      }
    }

    method SizeByte(b: Byte) returns (error: Option<Code>)
      requires Valid() && mode == R.ChunkLine
      modifies this, control
      ensures Outcome(R.SizeByte(Request(), old(Abstract()), b), error)
      ensures body == old(body)
    {
      if used == R.LINE_LIMIT {
        return Some(R.ResponseInvalid);
      }
      Put(b);
      if LineEnded() {
        assert control[..used][..used - 2] == control[..used - 2];
        error := SizeLine(used - 2);
      } else {
        error := None;
      }
    }

    method SizeLine(n: nat) returns (error: Option<Code>)
      requires Valid() && mode == R.ChunkLine && n + 2 == used
      modifies this
      ensures body == old(body)
      ensures var line := old(control[..n]);
              var s := old(Abstract());
              Outcome(if !R.SizeLine(line) then Err(R.ResponseInvalid)
                      else if R.HexValue(line) > maxBytes - |s.body| then Err(R.ResponseTooLarge)
                      else Ok(s.(control := [], remaining := R.HexValue(line), crlf := 0,
                                 mode := if R.HexValue(line) == 0 then R.Trailers else R.ChunkData)), error)
    {
      var line := control[..n];
      if !R.SizeLine(line) {
        return Some(R.ResponseInvalid);
      }
      remaining := R.HexValue(line);
      used := 0;
      if remaining > maxBytes - total {
        return Some(R.ResponseTooLarge);
      }
      mode := if remaining == 0 then R.Trailers else R.ChunkData;
      crlf := 0;
      return None;
    }

    method Finish(noExtraBytes: bool) returns (error: Option<Code>)
      requires mode == R.Trailers || mode == R.Length || mode == R.Close
      requires Held() && Laws.Bounded(Request(), Abstract().(crlf := 0)) && 0 <= crlf <= 2
      modifies this`mode, this`responses
      ensures Outcome(if noExtraBytes then R.Complete(old(Abstract())) else Err(R.ResponseInvalid), error)
    {
      if !noExtraBytes || metadata.None? || body == null {
        return Some(R.ResponseInvalid);
      }
      mode := R.Done;
      responses := responses + [R.Response(metadata.value, body[..total])];
      return None;
    }

    /** CR or LF after a chunk or at the very end; last says that no byte follows in this event. */
    method LineEndByte(b: Byte, last: bool) returns (error: Option<Code>)
      requires Valid() && (mode == R.ChunkCRLF || mode == R.Trailers)
      modifies this
      ensures body == old(body)
      ensures var r := R.LineEndByte(old(Abstract()), b);
              Outcome(if r.Ok? && r.value.mode == R.Done && !last then Err(R.ResponseInvalid) else r, error)
    {
      if b != (if crlf == 0 then R.CR else R.LF) {
        return Some(R.ResponseInvalid);
      }
      crlf := crlf + 1;
      if crlf == 2 {
        if mode == R.Trailers {
          error := Finish(last);
          return;
        }
        mode, crlf := R.ChunkLine, 0;
      }
      return None;
    }

    /** Body data from offset on: as much as the framing and this event allow. */
    method CopyData(chunk: seq<Byte>, offset: nat) returns (count: nat, error: Option<Code>)
      requires Valid() && (mode == R.Length || mode == R.ChunkData || mode == R.Close) && offset < |chunk|
      modifies this, body
      ensures body == old(body)
      ensures count == if old(mode) == R.Close then |chunk| - offset else Min(old(remaining), |chunk| - offset)
      ensures var s := old(Abstract());
              if |s.body| + count > maxBytes then error == Some(R.ResponseTooLarge)
              else if s.mode != R.Close && s.remaining == 0 then error == Some(R.ResponseInvalid)
              else
                var data := chunk[offset..offset + count];
                if s.mode == R.Close then Outcome(Ok(s.(body := s.body + data)), error)
                else
                  var r := Laws.AfterData(s, data);
                  Outcome(if r.Ok? && r.value.mode == R.Done && offset + count != |chunk| then Err(R.ResponseInvalid) else r, error)
    {
      count := if mode == R.Close then |chunk| - offset else Min(remaining, |chunk| - offset);
      if total + count > maxBytes {
        return count, Some(R.ResponseTooLarge);
      }
      var data := chunk[offset..offset + count];
      Append(data);
      error := None;
      if mode != R.Close {
        remaining := remaining - count;
        if remaining == 0 {
          if mode == R.Length {
            error := Finish(offset + count == |chunk|);
          } else {
            mode, crlf := R.ChunkCRLF, 0;
          }
        }
      }
    }

    method Append(data: seq<Byte>)
      requires body != null && body != control && total + |data| <= body.Length && used <= control.Length
      modifies this`total, body
      ensures total == old(total) + |data| && Abstract() == old(Abstract()).(body := old(body[..total]) + data)
    {
      forall i | 0 <= i < |data| {
        body[total + i] := data[i];
      }
      assert body[..total + |data|] == old(body[..total]) + data;
      total := total + |data|;
    }

    /** One round of the feed loop: a control byte, a line end, or a stretch of body data. */
    method Advance(chunk: seq<Byte>, offset: nat) returns (next: nat, error: Option<Code>)
      requires Valid() && mode != R.Done && offset < |chunk|
      modifies this, control, body
      ensures body == old(body) || fresh(body)
      ensures Progress(old(Abstract()), chunk, offset, next, error)
    {
      ghost var s, rest := Abstract(), chunk[offset..];
      next := offset + 1;
      assert rest[0] == chunk[offset] && rest[1..] == chunk[next..];
      if mode == R.Headers {
        error := HeaderByte(chunk[offset]);
      } else if mode == R.ChunkLine {
        error := SizeByte(chunk[offset]);
      } else if mode == R.ChunkCRLF || mode == R.Trailers {
        error := LineEndByte(chunk[offset], next == |chunk|);
      } else {
        next, error := AdvanceData(chunk, offset);
      }
    }

    method AdvanceData(chunk: seq<Byte>, offset: nat) returns (next: nat, error: Option<Code>)
      requires Valid() && (mode == R.Length || mode == R.ChunkData || mode == R.Close) && offset < |chunk|
      modifies this, body
      ensures body == old(body)
      ensures Progress(old(Abstract()), chunk, offset, next, error)
    {
      ghost var s := Abstract();
      var count;
      count, error := CopyData(chunk, offset);
      next := offset + count;
      assert chunk[offset..] == chunk[offset..next] + chunk[next..];
      RunStretch(Request(), s, chunk[offset..next], chunk[next..]);
    }

    ghost predicate Progress(s: R.State, chunk: seq<Byte>, offset: nat, next: nat, error: Option<Code>)
      requires offset <= |chunk|
      reads this, control, body
    {
      match error
      case Some(code) => R.Run(Request(), s, chunk[offset..]) == Err(code)
      case None =>
        && Valid() && offset < next <= |chunk| && (mode == R.Done ==> next == |chunk|)
        && R.Run(Request(), s, chunk[offset..]) == R.Run(Request(), Abstract(), chunk[next..])
    }

    /** One data event of the connection. */
    method Feed(chunk: seq<Byte>) returns (error: Option<Code>)
      requires Valid()
      modifies this, control, body
      ensures Outcome(R.Feed(Request(), old(Abstract()), chunk), error)
      ensures body == old(body) || fresh(body)
    {
      var offset := 0;
      ghost var start := Abstract();
      while offset < |chunk| && mode != R.Done
        invariant Valid() && 0 <= offset <= |chunk|
        invariant body == old(body) || fresh(body)
        invariant start.mode == R.Done ==> Abstract() == start
        invariant mode == R.Done && offset < |chunk| ==> start.mode == R.Done
        invariant R.Run(Request(), start, chunk) == R.Run(Request(), Abstract(), chunk[offset..])
        decreases |chunk| - offset
      {
        offset, error := Advance(chunk, offset);
        if error.Some? {
          return;
        }
      }
      error := None;
      if mode == R.Length && remaining == 0 {
        error := Finish(true);
      }
    }

    /** The end of the connection. */
    method End() returns (error: Option<Code>)
      requires Valid()
      modifies this`mode, this`responses
      ensures Outcome(R.End(old(Abstract())), error)
    {
      if mode == R.Done {
        return None;
      }
      if mode != R.Close {
        return Some(R.RequestFailed);
      }
      error := Finish(true);
    }
  }
}

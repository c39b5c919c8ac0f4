/** Request bodies on the way from the tunnel to the backend: the worker's pump, and the chunked
    coding of RFC 9112, section 7.1. */
module Chunked {
  import opened Frames

  const CR: byte := 13
  const LF: byte := 10
  const TEXT: byte := 1
  const BINARY: byte := 2
  const CLOSE: byte := 8

  // ---------------------------------------------------------------- writing

  function HexDigit(d: nat): byte
    requires d < 16
  {
    if d < 10 then 48 + d else 87 + d
  }

  /** fmt's %x */
  function Hex(n: nat): (r: seq<byte>)
    ensures r != []
  {
    if n < 16 then [HexDigit(n)] else Hex(n / 16) + [HexDigit(n % 16)]
  }

  /** writeHTTPChunk for a non-empty payload */
  function Chunk(payload: seq<byte>): seq<byte>
  {
    Hex(|payload|) + [CR, LF] + payload + [CR, LF]
  }

  const LAST_CHUNK: seq<byte> := [48, CR, LF, CR, LF]

  /** What pumpTunnelRequestBodyToConn writes to the backend for the frames it reads. */
  function Pumped(frames: seq<Frame>, chunked: bool): seq<byte>
  {
    if frames == [] then []
    else
      var f, rest := frames[0], frames[1..];
      if f.opcode == CLOSE then (if chunked then LAST_CHUNK else [])
      else Piece(f, chunked) + Pumped(rest, chunked)
  }

  function Piece(f: Frame, chunked: bool): seq<byte>
  {
    if f.opcode != BINARY || f.payload == [] then []
    else if chunked then Chunk(f.payload)
    else f.payload
  }

  /** The payload bytes of the binary frames before the first close frame. */
  function BodyOf(frames: seq<Frame>): seq<byte>
  {
    if frames == [] || frames[0].opcode == CLOSE then []
    else Piece(frames[0], false) + BodyOf(frames[1..])
  }

  predicate HasClose(frames: seq<Frame>)
  {
    frames != [] && (frames[0].opcode == CLOSE || HasClose(frames[1..]))
  }

  /** pumpTunnelRequestBodyToConn: it returns when it reads a close frame or the tunnel ends. */
  method PumpToConn(tunnel: Conn, chunked: bool) returns (written: seq<byte>)
    modifies tunnel`incoming
    ensures written == Pumped(DecodeAll(Joined(old(tunnel.incoming))), chunked)
  {
    hide Decode, Piece, Pumped;
    written := [];
    PumpedNothing(chunked);
    while true
      invariant written + Pumped(DecodeAll(Joined(tunnel.incoming)), chunked)
        == Pumped(DecodeAll(Joined(old(tunnel.incoming))), chunked)
      decreases |Joined(tunnel.incoming)|
    {
      ghost var frames := DecodeAll(Joined(tunnel.incoming));
      var r := tunnel.ReadFrame();
      if !r.Arrived? {
        return;
      }
      ghost var later := DecodeAll(Joined(tunnel.incoming));
      assert frames == [r.frame] + later;
      PumpedStep(r.frame, later, chunked);
      if r.frame.opcode == BINARY {
        if r.frame.payload != [] {
          written := written + (if chunked then Chunk(r.frame.payload) else r.frame.payload);
        }
      } else if r.frame.opcode == CLOSE {
        if chunked {
          written := written + LAST_CHUNK;
        }
        return;
      }
    }
  }

  lemma PumpedNothing(chunked: bool)
    ensures Pumped([], chunked) == []
  {
  }

  lemma PumpedStep(f: Frame, later: seq<Frame>, chunked: bool)
    ensures Pumped([f] + later, chunked) ==
            if f.opcode == CLOSE then (if chunked then LAST_CHUNK else [])
            else if f.opcode != BINARY || f.payload == [] then Pumped(later, chunked)
            else (if chunked then Chunk(f.payload) else f.payload) + Pumped(later, chunked)
  {
    hide Chunk;
    assert ([f] + later)[1..] == later;
  }

  /** Without chunking the pump forwards exactly the body. */
  lemma {:induction false} PlainPump(frames: seq<Frame>)
    ensures Pumped(frames, false) == BodyOf(frames)
  {
    if frames != [] {
      PlainPump(frames[1..]);
    }
  }

  lemma {:induction false} BodyOfPrefix(a: seq<Frame>, b: seq<Frame>)
    requires a <= b
    ensures BodyOf(a) <= BodyOf(b)
  {
    if a != [] {
      BodyOfPrefix(a[1..], b[1..]);
    }
  }

  // ---------------------------------------------------------------- reading, per section 7.1 of RFC 9112

  predicate IsHexDigit(b: byte)
  {
    48 <= b <= 57 || 65 <= b <= 70 || 97 <= b <= 102
  }

  function HexDigitValue(b: byte): nat
    requires IsHexDigit(b)
  {
    if b <= 57 then b - 48 else if b <= 70 then b - 55 else b - 87
  }

  datatype Size = Size(n: nat, rest: seq<byte>) | SizeCut | SizeBad

  /** chunk-size CRLF, after some digits of value acc. */
  function ReadSize(bytes: seq<byte>, acc: nat, any: bool): (r: Size)
    ensures r.Size? ==> |r.rest| < |bytes|
    decreases |bytes|
  {
    if bytes == [] then SizeCut
    else if IsHexDigit(bytes[0]) then ReadSize(bytes[1..], acc * 16 + HexDigitValue(bytes[0]), true)
    else if bytes[0] != CR || !any then SizeBad
    else if |bytes| < 2 then SizeCut
    else if bytes[1] != LF then SizeBad
    else Size(acc, bytes[2..])
  }

  /** A chunked body without extensions and trailer fields: complete with what follows it, cut off after
      some data, or not in the grammar. */
  datatype Decoded = Complete(body: seq<byte>, rest: seq<byte>) | Partial(body: seq<byte>) | Malformed

  function After(data: seq<byte>, m: Decoded): Decoded
  {
    match m
    case Complete(body, rest) => Complete(data + body, rest)
    case Partial(body) => Partial(data + body)
    case Malformed => Malformed
  }

  function DecodeChunked(bytes: seq<byte>): Decoded
    decreases |bytes|
  {
    var size := ReadSize(bytes, 0, false);
    if size.SizeCut? then Partial([])
    else if size.SizeBad? then Malformed
    else if size.n == 0 then
      if |size.rest| < 2 then Partial([])
      else if size.rest[..2] == [CR, LF] then Complete([], size.rest[2..])
      else Malformed
    else if |size.rest| < size.n + 2 then Partial(if |size.rest| <= size.n then size.rest else size.rest[..size.n])
    else if size.rest[size.n..size.n + 2] != [CR, LF] then Malformed
    else After(size.rest[..size.n], DecodeChunked(size.rest[size.n + 2..]))
  }

  function ReadDigits(acc: nat, digits: seq<byte>): nat
    requires forall i :: 0 <= i < |digits| ==> IsHexDigit(digits[i])
    decreases |digits|
  {
    if digits == [] then acc else ReadDigits(acc * 16 + HexDigitValue(digits[0]), digits[1..])
  }

  lemma {:induction false} DigitsSnoc(acc: nat, digits: seq<byte>, d: byte)
    requires IsHexDigit(d) && forall i :: 0 <= i < |digits| ==> IsHexDigit(digits[i])
    ensures ReadDigits(acc, digits + [d]) == ReadDigits(acc, digits) * 16 + HexDigitValue(d)
    decreases |digits|
  {
    var all := digits + [d];
    if digits == [] {
      assert all[1..] == [];
    } else {
      assert all[0] == digits[0] && all[1..] == digits[1..] + [d];
      DigitsSnoc(acc * 16 + HexDigitValue(digits[0]), digits[1..], d);
    }
  }

  lemma {:induction false} HexRoundTrip(n: nat)
    ensures forall i :: 0 <= i < |Hex(n)| ==> IsHexDigit(Hex(n)[i])
    ensures ReadDigits(0, Hex(n)) == n
  {
    if n < 16 {
      assert Hex(n)[1..] == [];
    } else {
      HexRoundTrip(n / 16);
      DigitsSnoc(0, Hex(n / 16), HexDigit(n % 16));
    }
  }

  lemma {:induction false} SizeRead(digits: seq<byte>, rest: seq<byte>, acc: nat, any: bool)
    requires forall i :: 0 <= i < |digits| ==> IsHexDigit(digits[i])
    requires any || digits != []
    ensures ReadSize(digits + [CR, LF] + rest, acc, any) == Size(ReadDigits(acc, digits), rest)
    decreases |digits|
  {
    var bytes := digits + [CR, LF] + rest;
    if digits == [] {
      assert bytes[2..] == rest;
    } else {
      assert bytes[0] == digits[0] && bytes[1..] == digits[1..] + [CR, LF] + rest;
      SizeRead(digits[1..], rest, acc * 16 + HexDigitValue(digits[0]), true);
    }
  }

  /** One chunk is read back, whatever follows it. */
  lemma ChunkRoundTrip(payload: seq<byte>, rest: seq<byte>)
    requires payload != []
    ensures DecodeChunked(Chunk(payload) + rest) == After(payload, DecodeChunked(rest))
  {
    HexRoundTrip(|payload|);
    var tail := payload + [CR, LF] + rest;
    SizeRead(Hex(|payload|), tail, 0, false);
    assert Chunk(payload) + rest == Hex(|payload|) + [CR, LF] + tail;
    hide Hex, ReadSize;
    assert tail[..|payload|] == payload;
    assert tail[|payload|..|payload| + 2] == [CR, LF];
    assert tail[|payload| + 2..] == rest;
  }

  lemma LastChunk()
    ensures DecodeChunked(LAST_CHUNK) == Complete([], [])
  {
    var tail: seq<byte> := [CR, LF];
    assert LAST_CHUNK == [48] + [CR, LF] + tail;
    SizeRead([48], tail, 0, false);
    assert ReadDigits(0, [48]) == ReadDigits(0, [48][1..]);
    assert tail[..2] == [CR, LF];
  }

  /** For any frame sequence, the chunked output decodes to the body, and it is complete, with nothing
      after the last chunk, exactly if a close frame was read. */
  lemma {:induction false} ChunkedPump(frames: seq<Frame>)
    ensures DecodeChunked(Pumped(frames, true))
      == if HasClose(frames) then Complete(BodyOf(frames), []) else Partial(BodyOf(frames))
  {
    hide Chunk, DecodeChunked;
    if frames == [] {
      NothingYet();
    } else if frames[0].opcode == CLOSE {
      LastChunk();
    } else {
      ChunkedPump(frames[1..]);
      var f, rest := frames[0], Pumped(frames[1..], true);
      if f.opcode == BINARY && f.payload != [] {
        ChunkRoundTrip(f.payload, rest);
      } else {
        assert Piece(f, true) + rest == rest;
      }
    }
  }

  lemma NothingYet()
    ensures DecodeChunked([]) == Partial([])
  {
  }
}

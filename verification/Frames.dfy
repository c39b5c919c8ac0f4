/** The WebSocket framing of RFC 6455, sections 5.2 and 5.3, as websocketx writes and reads it. */
module Frames {
  import opened Strings

  type byte = b: int | 0 <= b < 256

  /** b & 0x0F */
  function Low4(b: byte): byte
  {
    b % 16
  }

  /** b & 0x7F */
  function Low7(b: byte): byte
  {
    b % 128
  }

  /** b & 0x80 != 0 */
  predicate TopBit(b: byte)
  {
    b >= 128
  }

  /** 0x80 | b for b below 0x80, if `top`; else b. */
  function WithTop(top: bool, b: byte): byte
    requires b < 128
  {
    if top then 128 + b else b
  }

  /** A frame as a reader sees it. FIN is always set; the reader looks at the opcode bits alone. */
  datatype Frame = Frame(opcode: byte, payload: seq<byte>)

  /** A frame with the masking key its writer chose, None for the server side. */
  datatype Outgoing = Outgoing(frame: Frame, key: Option<seq<byte>>)

  /** Crash: a 64-bit length with the top bit set is negative as an int64, and allocating the
      payload panics. */
  datatype Read = Got(frame: Frame, rest: seq<byte>) | Short | Crash

  // ---------------------------------------------------------------- lengths

  function Pow256(k: nat): (p: nat)
    ensures p > 0
  {
    if k == 0 then 1 else 256 * Pow256(k - 1)
  }

  function LowByte(n: nat): byte
  {
    n % 256
  }

  function ByteAt(n: nat, p: nat): byte
    requires p > 0
  {
    LowByte(n / p)
  }

  /** The k low bytes of n, the highest first. */
  function BigEndian(n: nat, k: nat): seq<byte>
  {
    if k == 0 then [] else [ByteAt(n, Pow256(k - 1))] + BigEndian(n, k - 1)
  }

  lemma {:induction false} BigEndianLength(n: nat, k: nat)
    ensures |BigEndian(n, k)| == k
  {
    hide ByteAt;
    if k > 0 {
      BigEndianLength(n, k - 1);
    }
  }

  /** The value of big-endian bytes that follow a value already read. */
  function Value(acc: nat, bytes: seq<byte>): nat
    decreases bytes
  {
    if bytes == [] then acc else Value(acc * 256 + bytes[0], bytes[1..])
  }

  lemma Distribute(a: int, b: int, p: int)
    ensures (a + b) * p == a * p + b * p
  {
  }

  lemma Associate(a: int, b: int, p: int)
    ensures (a * b) * p == a * (b * p)
  {
  }

  lemma MulGrows(m: int, x: int)
    requires m > 0
    ensures x >= 1 ==> m * x >= m
    ensures x <= -1 ==> m * x <= -m
  {
  }

  lemma ModUnique(n: nat, m: nat, k: nat, r: nat)
    requires r < m && n == m * k + r
    ensures n % m == r && n / m == k
  {
    var d: int, k': int := n / m, k;
    assert n == m * d + n % m;
    Distribute(d, -k', m);
    MulGrows(m, d - k');
  }

  lemma {:induction false} DivMod(n: nat, p: nat)
    requires p > 0
    ensures ((n / p) % 256) * p + n % p == n % (256 * p)
  {
    var q, r := n / p, n % p;
    var h, b := q / 256, q % 256;
    DivMul(n, p);
    Regroup(h, b, p, r);
    SmallDigit(b, p, r);
    ModUnique(n, 256 * p, h, b * p + r);
  }

  lemma DivMul(n: nat, p: nat)
    requires p > 0
    ensures n == (n / p) * p + n % p && 0 <= n % p < p
  {
  }

  lemma Regroup(h: nat, b: nat, p: nat, r: nat)
    ensures (256 * h + b) * p + r == (256 * p) * h + (b * p + r)
  {
  }

  lemma SmallDigit(b: nat, p: nat, r: nat)
    requires b < 256 && r < p
    ensures 0 <= b * p + r < 256 * p
  {
    Distribute(b, 255 - b, p);
    assert (255 - b) * p >= 0;
  }

  lemma {:induction false} ValueOfBigEndian(acc: nat, n: nat, k: nat)
    ensures Value(acc, BigEndian(n, k)) == acc * Pow256(k) + n % Pow256(k)
    decreases k
  {
    if k > 0 {
      var p := Pow256(k - 1);
      var b := (n / p) % 256;
      ValueOfBigEndian(acc * 256 + b, n, k - 1);
      DivMod(n, p);
      Distribute(acc * 256, b, p);
      Associate(acc, 256, p);
      BigEndianStep(acc, n, k);
    }
  }

  lemma BigEndianStep(acc: nat, n: nat, k: nat)
    requires k > 0
    ensures Value(acc, BigEndian(n, k)) == Value(acc * 256 + (n / Pow256(k - 1)) % 256, BigEndian(n, k - 1))
  {
    hide Pow256;
    assert BigEndian(n, k)[1..] == BigEndian(n, k - 1);
  }

  lemma {:induction false} ValueBound(acc: nat, bytes: seq<byte>)
    ensures Value(acc, bytes) < (acc + 1) * Pow256(|bytes|)
    decreases bytes
  {
    if bytes != [] {
      var next := acc * 256 + bytes[0];
      ValueBound(next, bytes[1..]);
      BoundStep(acc, bytes[0], Pow256(|bytes| - 1));
    }
  }

  lemma BoundStep(acc: nat, b: nat, p: nat)
    requires b < 256
    ensures (acc * 256 + b + 1) * p <= (acc + 1) * (256 * p)
  {
    Associate(acc + 1, 256, p);
    Distribute(acc * 256 + b + 1, 255 - b, p);
    assert (255 - b) * p >= 0;
  }

  lemma Pow256Eight()
    ensures Pow256(2) == 0x1_0000 && Pow256(7) == 0x100_0000_0000_0000 && Pow256(8) == 0x1_0000_0000_0000_0000
  {
    assert Pow256(1) == 0x100;
    assert Pow256(2) == 0x1_0000;
    assert Pow256(3) == 0x100_0000;
    assert Pow256(4) == 0x1_0000_0000;
    assert Pow256(5) == 0x100_0000_0000;
    assert Pow256(6) == 0x1_0000_0000_0000;
    assert Pow256(7) == 0x100_0000_0000_0000;
  }

  const INT64_END := 0x8000_0000_0000_0000

  type Limit = n: nat | 0x1_0000 <= n <= INT64_END witness INT64_END

  /** The least length for which allocating a slice panics. It depends on the platform (one above 2^48 on
      64-bit Linux); negative lengths panic on all of them. What follows holds for any such limit. */
  const MAX_LENGTH: Limit

  // ---------------------------------------------------------------- masking

  /** Exclusive or, bit by bit. */
  function Xor(a: nat, b: nat, bits: nat): nat
  {
    if bits == 0 then 0 else Digit(a % 2, b % 2) + 2 * Xor(a / 2, b / 2, bits - 1)
  }

  function Digit(a: nat, b: nat): nat
  {
    if a == b then 0 else 1
  }

  function Pow2(bits: nat): nat
  {
    if bits == 0 then 1 else 2 * Pow2(bits - 1)
  }

  lemma {:induction false} XorTwice(a: nat, b: nat, bits: nat)
    requires a < Pow2(bits)
    ensures Xor(a, b, bits) < Pow2(bits)
    ensures Xor(Xor(a, b, bits), b, bits) == a
  {
    if bits > 0 {
      var rest := Xor(a / 2, b / 2, bits - 1);
      XorTwice(a / 2, b / 2, bits - 1);
      Halves(Digit(a % 2, b % 2), rest);
    }
  }

  lemma Halves(low: nat, rest: nat)
    requires low < 2
    ensures (low + 2 * rest) / 2 == rest && (low + 2 * rest) % 2 == low
  {
  }

  lemma Pow2Eight()
    ensures Pow2(8) == 256
  {
    assert Pow2(4) == 16;
  }

  function XorByte(a: byte, b: byte): byte
  {
    Pow2Eight();
    XorTwice(a, b, 8);
    Xor(a, b, 8)
  }

  lemma XorByteTwice(a: byte, b: byte)
    ensures XorByte(XorByte(a, b), b) == a
  {
    Pow2Eight();
    XorTwice(a, b, 8);
  }

  predicate IsKey(key: seq<byte>)
  {
    |key| == 4
  }

  function Masked(payload: seq<byte>, key: seq<byte>): (r: seq<byte>)
    requires IsKey(key)
    ensures |r| == |payload|
  {
    seq(|payload|, i requires 0 <= i < |payload| => XorByte(payload[i], key[i % 4]))
  }

  lemma MaskTwice(payload: seq<byte>, key: seq<byte>)
    requires IsKey(key)
    ensures Masked(Masked(payload, key), key) == payload
  {
    forall i | 0 <= i < |payload| ensures Masked(Masked(payload, key), key)[i] == payload[i] {
      XorByteTwice(payload[i], key[i % 4]);
    }
  }

  // ---------------------------------------------------------------- writing

  /** The length field, with the mask bit. */
  function LengthField(n: nat, masked: bool): seq<byte>
  {
    if n < 126 then [WithTop(masked, n)]
    else if n <= 0xFFFF then [WithTop(masked, 126), LowByte(n / 256), LowByte(n)]
    else [WithTop(masked, 127)] + BigEndian(n, 8)
  }

  function Encode(o: Outgoing): seq<byte>
    requires o.key.Some? ==> IsKey(o.key.value)
  {
    var first := WithTop(true, Low4(o.frame.opcode));
    if o.key.Some? then
      [first] + LengthField(|o.frame.payload|, true) + o.key.value + Masked(o.frame.payload, o.key.value)
    else
      [first] + LengthField(|o.frame.payload|, false) + o.frame.payload
  }

  // ---------------------------------------------------------------- reading

  /** What the second byte announces. */
  function ExtraLength(b: byte): nat
  {
    if Low7(b) == 126 then 2 else if Low7(b) == 127 then 8 else 0
  }

  function PayloadLength(b: byte, extra: seq<byte>): nat
  {
    if extra == [] then Low7(b) else Value(0, extra)
  }

  function KeyLength(b: byte): nat
  {
    if TopBit(b) then 4 else 0
  }

  function Decode(bytes: seq<byte>): (r: Read)
    ensures r.Got? ==> |r.rest| < |bytes|
  {
    if |bytes| < 2 then Short
    else
      var extra, key := ExtraLength(bytes[1]), KeyLength(bytes[1]);
      if |bytes| < 2 + extra + key then Short
      else
        var n := PayloadLength(bytes[1], bytes[2..2 + extra]);
        var body := bytes[2 + extra + key..];
        if n >= MAX_LENGTH then Crash
        else if |body| < n then Short
        else
          var payload := if key == 0 then body[..n] else Masked(body[..n], bytes[2 + extra..2 + extra + 4]);
          Got(Frame(Low4(bytes[0]), payload), body[n..])
  }

  /** The length field is understood. */
  lemma LengthRoundTrip(n: nat, masked: bool)
    requires n < MAX_LENGTH
    ensures var field := LengthField(n, masked);
            && |field| == 1 + ExtraLength(field[0])
            && KeyLength(field[0]) == (if masked then 4 else 0)
            && PayloadLength(field[0], field[1..]) == n
  {
    hide Pow256, LowByte, BigEndian, Value;
    if 126 <= n <= 0xFFFF {
      MediumValue(n);
      assert LengthField(n, masked)[1..] == [LowByte(n / 256), LowByte(n)];
    } else if n > 0xFFFF {
      LargeValue(n);
      assert LengthField(n, masked)[1..] == BigEndian(n, 8);
    }
  }

  lemma MediumValue(n: nat)
    requires n <= 0xFFFF
    ensures Value(0, [LowByte(n / 256), LowByte(n)]) == n
  {
    TwoBytes(n);
    Pow256Eight();
    ValueOfBigEndian(0, n, 2);
  }

  lemma LargeValue(n: nat)
    requires n < MAX_LENGTH
    ensures |BigEndian(n, 8)| == 8 && Value(0, BigEndian(n, 8)) == n
  {
    Pow256Eight();
    BigEndianLength(n, 8);
    ValueOfBigEndian(0, n, 8);
  }

  lemma TwoBytes(n: nat)
    ensures BigEndian(n, 2) == [LowByte(n / 256), LowByte(n)]
  {
    hide LowByte;
    assert Pow256(0) == 1 && Pow256(1) == 256;
    assert BigEndian(n, 0) == [];
    assert BigEndian(n, 1) == [LowByte(n)];
  }

  predicate Sendable(o: Outgoing)
  {
    |o.frame.payload| < MAX_LENGTH && (o.key.Some? ==> IsKey(o.key.value))
  }

  /** The frame a reader gets: the opcode cut to its four bits. */
  function Seen(o: Outgoing): Frame
  {
    Frame(Low4(o.frame.opcode), o.frame.payload)
  }

  function Header(o: Outgoing): seq<byte>
  {
    [WithTop(true, Low4(o.frame.opcode))] + LengthField(|o.frame.payload|, o.key.Some?)
  }

  function KeyOf(o: Outgoing): seq<byte>
  {
    if o.key.Some? then o.key.value else []
  }

  function Body(o: Outgoing): seq<byte>
    requires o.key.Some? ==> IsKey(o.key.value)
  {
    if o.key.Some? then Masked(o.frame.payload, o.key.value) else o.frame.payload
  }

  lemma EncodeParts(o: Outgoing)
    requires Sendable(o)
    ensures Encode(o) == Header(o) + KeyOf(o) + Body(o)
  {
    hide LengthField, Masked;
  }

  /** A header is understood: its length, its key length and its payload length. */
  lemma HeaderRead(o: Outgoing, bytes: seq<byte>)
    requires Sendable(o) && Header(o) <= bytes
    ensures |Header(o)| >= 2 && |Header(o)| == 2 + ExtraLength(bytes[1]) && KeyLength(bytes[1]) == |KeyOf(o)|
    ensures PayloadLength(bytes[1], bytes[2..|Header(o)|]) == |o.frame.payload|
    ensures Low4(bytes[0]) == Low4(o.frame.opcode)
  {
    hide LengthField, PayloadLength, ExtraLength, KeyLength;
    var field := LengthField(|o.frame.payload|, o.key.Some?);
    LengthRoundTrip(|o.frame.payload|, o.key.Some?);
    assert bytes[..|Header(o)|] == Header(o);
    assert bytes[1] == field[0] && bytes[2..|Header(o)|] == field[1..];
  }

  /** Reading back one written frame, whatever follows it. */
  lemma FrameRoundTrip(o: Outgoing, rest: seq<byte>)
    requires Sendable(o)
    ensures Decode(Encode(o) + rest) == Got(Seen(o), rest)
  {
    EncodeParts(o);
    HeaderRead(o, Encode(o) + rest);
    if o.key.Some? {
      MaskTwice(o.frame.payload, o.key.value);
    }
    DecodeParts(Encode(o) + rest, Header(o), KeyOf(o), Body(o), rest);
  }

  /** Decode on a buffer that is laid out as its second byte announces. */
  lemma DecodeParts(bytes: seq<byte>, header: seq<byte>, key: seq<byte>, body: seq<byte>, rest: seq<byte>)
    requires bytes == header + key + body + rest && |header| >= 2 && |body| < MAX_LENGTH
    requires |header| == 2 + ExtraLength(bytes[1]) && |key| == KeyLength(bytes[1])
    requires PayloadLength(bytes[1], bytes[2..|header|]) == |body|
    ensures Decode(bytes) == Got(Frame(Low4(bytes[0]), if key == [] then body else Masked(body, key)), rest)
  {
    KeyLengths(bytes[1]);
    hide Low4, PayloadLength, ExtraLength, KeyLength, Masked;
    assert bytes == (header + key) + (body + rest);
    Slices(header + key, body + rest);
    Slices(header, key);
    Slices(body, rest);
    assert bytes[|header|..|header| + |key|] == (header + key)[|header|..];
  }

  lemma Slices(a: seq<byte>, b: seq<byte>)
    ensures (a + b)[..|a|] == a && (a + b)[|a|..] == b
  {
  }

  lemma KeyLengths(b: byte)
    ensures KeyLength(b) == 0 || KeyLength(b) == 4
  {
  }

  /** A frame that has not arrived completely is never mistaken for another one. */
  lemma PrefixIsShort(o: Outgoing, k: nat)
    requires Sendable(o) && k < |Encode(o)|
    ensures Decode(Encode(o)[..k]) == Short
  {
    EncodeParts(o);
    HeaderRead(o, Encode(o));
    hide Header, PayloadLength, ExtraLength, KeyLength, Masked, Encode, Low4;
    var whole, h := Encode(o), |Header(o)|;
    var bytes := whole[..k];
    if k >= 2 {
      assert bytes[1] == whole[1];
      if k >= h + |KeyOf(o)| {
        SliceOfPrefix(whole, k, 2, h);
      }
    }
  }

  lemma SliceOfPrefix(s: seq<byte>, k: nat, i: nat, j: nat)
    requires i <= j <= k <= |s|
    ensures s[..k][i..j] == s[i..j]
  {
  }

  // ---------------------------------------------------------------- streams

  ghost predicate AllSendable(os: seq<Outgoing>)
  {
    forall i :: 0 <= i < |os| ==> Sendable(os[i])
  }

  ghost function EncodeAll(os: seq<Outgoing>): seq<byte>
    requires AllSendable(os)
  {
    if os == [] then [] else Encode(os[0]) + EncodeAll(os[1..])
  }

  function SeenAll(os: seq<Outgoing>): (r: seq<Frame>)
    ensures |r| == |os|
  {
    if os == [] then [] else [Seen(os[0])] + SeenAll(os[1..])
  }

  /** The frames that repeated reading yields before it stops. */
  function DecodeAll(bytes: seq<byte>): seq<Frame>
    decreases |bytes|
  {
    var r := Decode(bytes);
    if r.Got? then [r.frame] + DecodeAll(r.rest) else []
  }

  /** What is left when it stops. */
  function Leftover(bytes: seq<byte>): seq<byte>
    decreases |bytes|
  {
    var r := Decode(bytes);
    if r.Got? then Leftover(r.rest) else bytes
  }

  /** Reading a stream of written frames yields exactly these frames, and nothing is left over. */
  lemma {:induction false} StreamRoundTrip(os: seq<Outgoing>)
    requires AllSendable(os)
    ensures DecodeAll(EncodeAll(os)) == SeenAll(os)
    ensures Leftover(EncodeAll(os)) == []
  {
    hide Decode, Encode;
    if os == [] {
      NothingIsShort();
    } else {
      FrameRoundTrip(os[0], EncodeAll(os[1..]));
      StreamRoundTrip(os[1..]);
    }
  }

  lemma NothingIsShort()
    ensures Decode([]) == Short
  {
  }

  /** Cut anywhere, the stream yields a prefix of the frames. */
  lemma {:induction false} StreamPrefix(os: seq<Outgoing>, k: nat)
    requires AllSendable(os)
    requires k <= |EncodeAll(os)|
    ensures DecodeAll(EncodeAll(os)[..k]) <= SeenAll(os)
    ensures |DecodeAll(EncodeAll(os)[..k])| == |os| ==> k == |EncodeAll(os)|
  {
    hide Decode, Encode;
    if os == [] {
      NothingIsShort();
    } else {
      var first, rest := Encode(os[0]), EncodeAll(os[1..]);
      var bytes := (first + rest)[..k];
      if k < |first| {
        assert bytes == first[..k];
        PrefixIsShort(os[0], k);
      } else {
        assert bytes == first + rest[..k - |first|];
        FrameRoundTrip(os[0], rest[..k - |first|]);
        StreamPrefix(os[1..], k - |first|);
      }
    }
  }

  // ---------------------------------------------------------------- the connection

  function Joined(segments: seq<seq<byte>>): seq<byte>
  {
    if segments == [] then [] else segments[0] + Joined(segments[1..])
  }

  /** One end of a connection. `incoming` are the pieces in which the peer's bytes arrive, and `finish`
      is what comes after them. */
  class Conn {
    const mask: bool
    const finish: Finish
    var incoming: seq<seq<byte>>
    var out: seq<byte>

    constructor (mask: bool, incoming: seq<seq<byte>>, finish: Finish)
      ensures this.mask == mask && this.incoming == incoming && this.finish == finish && out == []
    {
      this.mask, this.incoming, this.finish, out := mask, incoming, finish, [];
    }

    /** io.ReadFull: it takes pieces until it has n bytes. At the end of the stream it fails, with io.EOF
        if it got no byte at all, with io.ErrUnexpectedEOF if it got some, or as the connection failed. */
    method ReadFull(n: nat) returns (r: Option<seq<byte>>, error: ReadError)
      modifies this`incoming
      ensures |Joined(old(incoming))| >= n ==>
        r == Some(Joined(old(incoming))[..n]) && Joined(incoming) == Joined(old(incoming))[n..]
      ensures |Joined(old(incoming))| < n ==>
        r == None && incoming == [] && error == ErrorAfter(finish, |Joined(old(incoming))|)
    {
      var buf: seq<byte> := [];
      while |buf| < n && incoming != []
        invariant |buf| <= n && buf + Joined(incoming) == Joined(old(incoming))
        decreases n - |buf|, |incoming|
      {
        var piece, later := incoming[0], incoming[1..];
        if |piece| <= n - |buf| {
          buf, incoming := buf + piece, later;
        } else {
          var take := n - |buf|;
          assert piece == piece[..take] + piece[take..];
          buf, incoming := buf + piece[..take], [piece[take..]] + later;
          assert incoming[1..] == later;
        }
      }
      assert buf == (buf + Joined(incoming))[..|buf|];
      r, error := if |buf| == n then Some(buf) else None, ErrorAfter(finish, |buf|);
    }

    /** The length loop: shifting in byte after byte, in 64-bit two's complement. */
    method Accumulate(ext: seq<byte>) returns (length: int)
      requires |ext| == 8
      ensures length == ToInt64(Value(0, ext))
    {
      length := 0;
      Pow256Eight();
      for i := 0 to |ext|
        invariant length == ToInt64(Value(0, ext[..i]))
        invariant i <= 7 ==> 0 <= length == Value(0, ext[..i])
      {
        ValueSnoc(0, ext[..i], ext[i]);
        assert ext[..i + 1] == ext[..i] + [ext[i]];
        if i < 7 {
          ValueBelow(ext[..i + 1]);
        }
        length := ToInt64(length * 256 + ext[i]);
      }
      assert ext[..|ext|] == ext;
    }

    method Unmask(bytes: seq<byte>, key: seq<byte>) returns (payload: seq<byte>)
      requires IsKey(key)
      ensures payload == Masked(bytes, key)
    {
      payload := bytes;
      for i := 0 to |payload|
        invariant |payload| == |bytes|
        invariant forall j :: 0 <= j < i ==> payload[j] == XorByte(bytes[j], key[j % 4])
        invariant forall j :: i <= j < |bytes| ==> payload[j] == bytes[j]
      {
        payload := payload[i := XorByte(payload[i], key[i % 4])];
      }
    }

    /** ReadFrame hands on the error of the read that failed. */
    method ReadFrame() returns (r: Incoming)
      modifies this`incoming
      ensures match Decode(Joined(old(incoming)))
              case Got(f, rest) => r == Arrived(f) && Joined(incoming) == rest
              case Short => r == Ended(EndError(finish, Joined(old(incoming))))
              case Crash => r == Panicked
    {
      hide Low4, KeyLength, ExtraLength, PayloadLength, Masked, Decode, EndError, ErrorAfter;
      ghost var all := Joined(incoming);
      DecodeStart(all);
      ShortReads(finish, all);
      var header, error := ReadFull(2);
      if header.None? {
        return Ended(error);
      }
      ghost var afterHeader := Joined(incoming);
      assert |afterHeader| == |all| - 2;
      var flags := header.value[1];
      assert flags == all[1];
      KeyLengths(flags);
      var extra;
      extra, error := ReadFull(ExtraLength(flags));
      if extra.None? {
        return Ended(error);
      }
      ghost var afterExtra := Joined(incoming);
      assert |afterExtra| == |all| - 2 - ExtraLength(flags);
      assert afterHeader == extra.value + afterExtra;
      var key;
      key, error := ReadFull(KeyLength(flags));
      if key.None? {
        return Ended(error);
      }
      ghost var rest := Joined(incoming);
      assert afterExtra == key.value + rest;
      Pieces(all, header.value, afterHeader, extra.value, afterExtra, key.value, rest);
      assert |rest| == |all| - 2 - ExtraLength(flags) - KeyLength(flags);
      DecodeBody(all, header.value, extra.value, key.value, rest);
      var length := Length(flags, extra.value);
      if length < 0 || length >= MAX_LENGTH {
        return Panicked;
      }
      var payload;
      payload, error := ReadFull(length);
      if payload.None? {
        return Ended(error);
      }
      var bytes := payload.value;
      if KeyLength(flags) != 0 {
        bytes := Unmask(bytes, key.value);
      }
      return Arrived(Frame(Low4(header.value[0]), bytes));
    }

    /** The switch over the seven-bit length. */
    method Length(flags: byte, extra: seq<byte>) returns (length: int)
      requires |extra| == ExtraLength(flags)
      ensures PayloadLength(flags, extra) < INT64_END ==> length == PayloadLength(flags, extra)
      ensures PayloadLength(flags, extra) >= INT64_END ==> length < 0
    {
      hide Value, Pow256;
      Pow256Eight();
      if Low7(flags) == 126 {
        TwoByteValue(extra);
        length := extra[0] as int * 256 + extra[1] as int;
      } else if Low7(flags) == 127 {
        ValueBound(0, extra);
        length := Accumulate(extra);
      } else {
        length := Low7(flags);
      }
    }

    /** The first half of writeFrame: opcode and length. */
    method WriteHeader(opcode: byte, n: nat)
      modifies this`out
      ensures out == old(out) + [WithTop(true, Low4(opcode))] + LengthField(n, mask)
    {
      hide LowByte, BigEndian;
      out := out + [WithTop(true, Low4(opcode))];
      ghost var before := out;
      if n < 126 {
        out := out + [WithTop(mask, n)];
      } else if n <= 0xFFFF {
        out := out + [WithTop(mask, 126)];
        out := out + [LowByte(n / 256)];
        out := out + [LowByte(n)];
        assert out == before + [WithTop(mask, 126), LowByte(n / 256), LowByte(n)];
      } else {
        out := out + [WithTop(mask, 127)];
        WriteLength(n);
        assert out == before + ([WithTop(mask, 127)] + BigEndian(n, 8));
      }
    }

    /** writeFrame, the masking key being drawn at random for a masking end. */
    method WriteFrame(opcode: byte, payload: seq<byte>, maskKey: seq<byte>)
      requires IsKey(maskKey)
      modifies this`out
      ensures out == old(out) + Encode(Outgoing(Frame(opcode, payload), if mask then Some(maskKey) else None))
    {
      ghost var before, first := out, [WithTop(true, Low4(opcode))];
      hide LengthField, Masked, WithTop, Low4;
      WriteHeader(opcode, |payload|);
      assert out == before + first + LengthField(|payload|, mask);
      if mask {
        out := out + maskKey;
        var masked := Unmask(payload, maskKey);
        out := out + masked;
        assert out == before + (first + LengthField(|payload|, true) + maskKey + Masked(payload, maskKey));
      } else {
        out := out + payload;
        assert out == before + (first + LengthField(|payload|, false) + payload);
      }
    }

    /** The shift loop: shift runs from 56 down to 0 in steps of 8, and `left` is shift / 8. */
    method WriteLength(n: nat)
      modifies this`out
      ensures out == old(out) + BigEndian(n, 8)
    {
      hide Pow256, ByteAt, BigEndian;
      ghost var before := out;
      ghost var done: seq<byte> := [];
      var left := 8;
      NoBytes(n);
      while left > 0
        invariant 0 <= left <= 8 && out == before + done
        invariant done + BigEndian(n, left) == BigEndian(n, 8)
      {
        left := left - 1;
        FirstByte(n, left);
        ghost var b := ByteAt(n, Pow256(left));
        assert done + ([b] + BigEndian(n, left)) == (done + [b]) + BigEndian(n, left);
        out := out + [ByteAt(n, Pow256(left))];
        assert out == before + (done + [b]);
        done := done + [b];
      }
    }
  }

  /** What ReadFrame returns: a frame, an error because the stream ended, or no return at all. */
  /** How the peer's bytes end: the peer closes, or the connection fails in another way. */
  datatype Finish = Closed | Reset

  /** io.EOF, io.ErrUnexpectedEOF, or the error of the connection. */
  datatype ReadError = EndOfStream | UnexpectedEnd | ConnectionReset

  function ErrorAfter(finish: Finish, got: nat): ReadError
  {
    if finish.Reset? then ConnectionReset else if got == 0 then EndOfStream else UnexpectedEnd
  }

  /** Nothing, or all of a header, of its extended length or of its key: the next read gets no byte. */
  predicate AtBoundary(bytes: seq<byte>)
  {
    || bytes == []
    || (|bytes| >= 2 && |bytes| in {2, 2 + ExtraLength(bytes[1]), 2 + ExtraLength(bytes[1]) + KeyLength(bytes[1])})
  }

  /** The error of ReadFrame on a frame that is cut off after these bytes. */
  function EndError(finish: Finish, bytes: seq<byte>): ReadError
  {
    if finish.Reset? then ConnectionReset else if AtBoundary(bytes) then EndOfStream else UnexpectedEnd
  }

  /** The read that fails is the first that gets fewer bytes than it asks for. */
  lemma ShortReads(finish: Finish, all: seq<byte>)
    ensures |all| < 2 ==> EndError(finish, all) == ErrorAfter(finish, |all|)
    ensures |all| >= 2 ==>
      var e := 2 + ExtraLength(all[1]);
      && (|all| < e ==> EndError(finish, all) == ErrorAfter(finish, |all| - 2))
      && (e <= |all| < e + KeyLength(all[1]) ==> EndError(finish, all) == ErrorAfter(finish, |all| - e))
      && (e + KeyLength(all[1]) <= |all| && |all| > e + KeyLength(all[1]) ==>
            EndError(finish, all) == ErrorAfter(finish, |all| - e - KeyLength(all[1])))
      && (|all| == e + KeyLength(all[1]) ==> EndError(finish, all) == ErrorAfter(finish, 0))
  {
    if |all| >= 2 {
      KeyLengths(all[1]);
    }
  }

  datatype Incoming = Arrived(frame: Frame) | Ended(error: ReadError) | Panicked

  /** What stops a reader that takes in frames as long as it can. */
  datatype Stop = Failure(error: ReadError) | Crashing

  function StopOf(finish: Finish, bytes: seq<byte>): Stop
  {
    if Decode(Leftover(bytes)).Crash? then Crashing else Failure(EndError(finish, Leftover(bytes)))
  }

  /** Where a cut-off stream of written frames ends: at most in mid-frame, never in a crash. */
  lemma {:induction false} CutStops(os: seq<Outgoing>, k: nat)
    requires AllSendable(os) && k <= |EncodeAll(os)|
    ensures Decode(Leftover(EncodeAll(os)[..k])) == Short
    ensures k == |EncodeAll(os)| ==> Leftover(EncodeAll(os)[..k]) == []
  {
    hide Decode, Encode;
    if os == [] {
      NothingIsShort();
    } else {
      var first, rest := Encode(os[0]), EncodeAll(os[1..]);
      var bytes := (first + rest)[..k];
      if k < |first| {
        assert bytes == first[..k];
        PrefixIsShort(os[0], k);
      } else {
        assert bytes == first + rest[..k - |first|];
        FrameRoundTrip(os[0], rest[..k - |first|]);
        CutStops(os[1..], k - |first|);
      }
    }
  }

  lemma Pieces(all: seq<byte>, a: seq<byte>, x: seq<byte>, b: seq<byte>, y: seq<byte>, c: seq<byte>, z: seq<byte>)
    requires all == a + x && x == b + y && y == c + z
    ensures all == a + b + c + z
  {
  }

  lemma DecodeStart(all: seq<byte>)
    ensures |all| < 2 || |all| < 2 + ExtraLength(all[1]) + KeyLength(all[1]) ==> Decode(all) == Short
  {
  }

  /** Decode, once header, extended length and key are there. */
  lemma DecodeBody(all: seq<byte>, header: seq<byte>, extra: seq<byte>, key: seq<byte>, rest: seq<byte>)
    requires all == header + extra + key + rest && |header| == 2
    requires |extra| == ExtraLength(header[1]) && |key| == KeyLength(header[1])
    ensures var n := PayloadLength(header[1], extra);
            Decode(all) ==
            if n >= MAX_LENGTH then Crash
            else if |rest| < n then Short
            else Got(Frame(Low4(header[0]), if key == [] then rest[..n] else Masked(rest[..n], key)), rest[n..])
  {
    hide Low4, ExtraLength, PayloadLength, Masked;
    KeyLengths(header[1]);
    var e := 2 + |extra|;
    assert all[..2] == header && all[0] == header[0] && all[1] == header[1];
    assert all[2..e] == extra && all[e..e + |key|] == key && all[e + |key|..] == rest;
  }

  lemma NoBytes(n: nat)
    ensures BigEndian(n, 0) == []
  {
  }

  lemma FirstByte(n: nat, k: nat)
    ensures BigEndian(n, k + 1) == [ByteAt(n, Pow256(k))] + BigEndian(n, k)
  {
  }

  function ToInt64(n: int): int
  {
    var m := n % 0x1_0000_0000_0000_0000;
    if m >= INT64_END then m - 0x1_0000_0000_0000_0000 else m
  }

  lemma {:induction false} ValueSnoc(acc: nat, bytes: seq<byte>, b: byte)
    ensures Value(acc, bytes + [b]) == Value(acc, bytes) * 256 + b
    decreases bytes
  {
    var all := bytes + [b];
    if bytes == [] {
      assert all[1..] == [];
    } else {
      assert all[0] == bytes[0] && all[1..] == bytes[1..] + [b];
      ValueSnoc(acc * 256 + bytes[0], bytes[1..], b);
    }
  }

  lemma ValueBelow(bytes: seq<byte>)
    requires |bytes| <= 7
    ensures Value(0, bytes) < 0x100_0000_0000_0000
  {
    ValueBound(0, bytes);
    Pow256Grows(|bytes|, 7);
    Pow256Eight();
  }

  lemma {:induction false} Pow256Grows(j: nat, k: nat)
    requires j <= k
    ensures Pow256(j) <= Pow256(k)
  {
    if j < k {
      Pow256Grows(j, k - 1);
    }
  }

  lemma TwoByteValue(bytes: seq<byte>)
    requires |bytes| == 2
    ensures Value(0, bytes) == bytes[0] as int * 256 + bytes[1] as int
  {
    assert bytes == [bytes[0]] + [bytes[1]];
    ValueSnoc(0, [bytes[0]], bytes[1]);
    assert Value(0, [bytes[0]]) == Value(bytes[0], []);
  }
}

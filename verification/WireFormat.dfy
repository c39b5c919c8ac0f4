/** Section 5.2 of RFC 6455, byte by byte, and the examples of its section 5.7. */
module WireFormat {
  import opened Strings
  import opened Frames
  import opened Chunked

  function Bit(n: nat, i: nat): nat
  {
    Positive(i);
    n / Pow2(i) % 2
  }

  lemma {:induction false} XorBits(a: nat, b: nat, bits: nat, i: nat)
    requires i < bits
    ensures Pow2(i) > 0 && Bit(Xor(a, b, bits), i) == if Bit(a, i) == Bit(b, i) then 0 else 1
    decreases bits
  {
    var low, rest := Digit(a % 2, b % 2), Xor(a / 2, b / 2, bits - 1);
    Halves(low, rest);
    if i > 0 {
      XorBits(a / 2, b / 2, bits - 1, i - 1);
      HalfBit(a, i);
      HalfBit(b, i);
      HalfBit(low + 2 * rest, i);
    }
  }

  lemma {:induction false} Positive(i: nat)
    ensures Pow2(i) > 0
  {
    if i > 0 {
      Positive(i - 1);
    }
  }

  lemma HalfBit(n: nat, i: nat)
    requires i > 0
    ensures Pow2(i) > 0 && Pow2(i - 1) > 0 && n / Pow2(i) == n / 2 / Pow2(i - 1)
  {
    Positive(i);
    Positive(i - 1);
    DivTwice(n, Pow2(i - 1));
  }

  lemma DivTwice(n: nat, p: nat)
    requires p > 0
    ensures n / (2 * p) == n / 2 / p
  {
    var q := n / 2 / p;
    DivMul(n / 2, p);
    ModUnique(n, 2 * p, q, (n / 2 % p) * 2 + n % 2);
  }

  /** How many bytes of length follow the second byte: as few as will do. */
  function ExtendedLength(n: nat): nat
  {
    if n < 126 then 0 else if n < 0x1_0000 then 2 else 8
  }

  /** A frame as it is sent: FIN and opcode; the mask bit and a length of seven bits, or 126 or 127 and the length
      in two or eight bytes, the shortest form that will do; the key; and the payload, each byte combined with
      a byte of the key, bit by bit. */
  lemma FrameOnWire(o: Outgoing)
    requires Sendable(o)
    ensures var bytes, n := Encode(o), |o.frame.payload|;
            var ext, key := ExtendedLength(n), if o.key.Some? then 4 else 0;
            && |bytes| == 2 + ext + key + n
            && bytes[0] == 128 + o.frame.opcode % 16
            && bytes[1] == (if o.key.Some? then 128 else 0) + (if ext == 0 then n else if ext == 2 then 126 else 127)
            && (ext > 0 ==> Value(0, bytes[2..2 + ext]) == n)
            && (o.key.Some? ==> bytes[2 + ext..6 + ext] == o.key.value)
            && (o.key.None? ==> bytes[2 + ext..] == o.frame.payload)
            && (o.key.Some? ==> forall i, j :: 0 <= i < n && 0 <= j < 8 ==>
                  Bit(bytes[6 + ext + i], j)
                  == if Bit(o.frame.payload[i], j) == Bit(o.key.value[i % 4], j) then 0 else 1)
  {
    var bytes, n := Encode(o), |o.frame.payload|;
    var ext := ExtendedLength(n);
    EncodeParts(o);
    LengthFits(n, o.key.Some?);
    hide LengthField, Masked, Bit, Encode, Value;
    var field := LengthField(n, o.key.Some?);
    assert bytes[2..2 + ext] == field[1..];
    assert bytes[2 + ext..] == KeyOf(o) + Body(o);
    if o.key.Some? {
      assert bytes[2 + ext..6 + ext] == o.key.value;
      assert bytes[6 + ext..] == Body(o);
      forall i, j | 0 <= i < n && 0 <= j < 8
        ensures Bit(bytes[6 + ext + i], j) == if Bit(o.frame.payload[i], j) == Bit(o.key.value[i % 4], j) then 0 else 1
      {
        MaskedBit(o.frame.payload, o.key.value, i, j);
        assert bytes[6 + ext + i] == Body(o)[i];
      }
    }
  }

  lemma MaskedBit(payload: seq<byte>, key: seq<byte>, i: nat, j: nat)
    requires IsKey(key) && i < |payload| && j < 8
    ensures Bit(Masked(payload, key)[i], j) == if Bit(payload[i], j) == Bit(key[i % 4], j) then 0 else 1
  {
    XorBits(payload[i], key[i % 4], 8, j);
  }

  lemma LengthFits(n: nat, masked: bool)
    requires n < MAX_LENGTH
    ensures var field, ext := LengthField(n, masked), ExtendedLength(n);
            && |field| == 1 + ext && (ext > 0 ==> Value(0, field[1..]) == n)
            && field[0] == (if masked then 128 else 0) + (if ext == 0 then n else if ext == 2 then 126 else 127)
  {
    hide Pow256, LowByte, BigEndian, Value;
    if 126 <= n <= 0xFFFF {
      MediumValue(n);
      assert LengthField(n, masked)[1..] == [LowByte(n / 256), LowByte(n)];
    } else if n > 0xFFFF {
      LargeValue(n);
      assert LengthField(n, masked)[1..] == BigEndian(n, 8);
    }
  }

  // ---------------------------------------------------------------- section 5.7

  /** A single-frame text message, unmasked. */
  lemma HelloExample()
    ensures var hello := [0x48, 0x65, 0x6C, 0x6C, 0x6F];
            Encode(Outgoing(Frame(TEXT, hello), None)) == [0x81, 0x05, 0x48, 0x65, 0x6C, 0x6C, 0x6F]
  {
  }

  lemma LongLength()
    ensures BigEndian(0x1_0000, 8) == [0, 0, 0, 0, 0, 0x01, 0, 0]
  {
    Pow256Eight();
    assert Pow256(0) == 1 && Pow256(1) == 0x100 && Pow256(3) == 0x100_0000 && Pow256(4) == 0x1_0000_0000;
    assert Pow256(5) == 0x100_0000_0000 && Pow256(6) == 0x1_0000_0000_0000;
    assert BigEndian(0x1_0000, 2) == [0, 0] by {
      TwoBytes(0x1_0000);
    }
    hide Pow256;
    assert BigEndian(0x1_0000, 3) == [0x01, 0, 0];
    assert BigEndian(0x1_0000, 4) == [0, 0x01, 0, 0];
    assert BigEndian(0x1_0000, 5) == [0, 0, 0x01, 0, 0];
    assert BigEndian(0x1_0000, 6) == [0, 0, 0, 0x01, 0, 0];
    assert BigEndian(0x1_0000, 7) == [0, 0, 0, 0, 0x01, 0, 0];
  }

  /** Binary messages of 256 bytes and of 64 KiB. */
  lemma LongExamples(payload: seq<byte>)
    ensures |payload| == 256 ==> Encode(Outgoing(Frame(BINARY, payload), None)) == [0x82, 0x7E, 0x01, 0x00] + payload
    ensures |payload| == 0x1_0000 ==>
      Encode(Outgoing(Frame(BINARY, payload), None)) == [0x82, 0x7F, 0, 0, 0, 0, 0, 0x01, 0, 0] + payload
  {
    LongLength();
    hide BigEndian;
  }

  /** Close frames have opcode 8. */
  lemma CloseExample()
    ensures Encode(Outgoing(Frame(CLOSE, []), None)) == [0x88, 0]
  {
  }

  /** A chunk of section 7.1 of RFC 9112: the size in hexadecimal, CR LF, the data, CR LF; and the last one. */
  lemma ChunkExamples(payload: seq<byte>)
    ensures |payload| == 26 ==> Chunk(payload) == [0x31, 0x61, 13, 10] + payload + [13, 10]
    ensures LAST_CHUNK == [0x30, 13, 10, 13, 10]
  {
    if |payload| == 26 {
      assert Hex(1) == [0x31];
      assert Hex(26) == [0x31, 0x61];
    }
  }

  /** Two's complement in 64 bits. */
  lemma Int64Is(n: nat)
    ensures -0x8000_0000_0000_0000 <= ToInt64(n) < 0x8000_0000_0000_0000
    ensures (n - ToInt64(n)) % 0x1_0000_0000_0000_0000 == 0
  {
  }
}

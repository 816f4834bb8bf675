/** UDP wire v2: the two datagram formats, strict decoding, and splitting a packet. */
module UdpWire {
  import opened Basics

  const TYPE_NORMAL: Byte := 0x20
  const TYPE_FRAGMENT: Byte := 0x22
  const HEADER: nat := 5
  const FRAG_HEADER: nat := 15
  const MAX_DATAGRAM: nat := 1200
  const MAX_PAYLOAD: nat := MAX_DATAGRAM - HEADER
  const MAX_PIECE: nat := MAX_DATAGRAM - FRAG_HEADER
  const MAX_FRAGMENTS: nat := 255
  const U32: nat := 0x1_0000_0000
  const U64: nat := 0x1_0000_0000_0000_0000

  // ---------------------------------------------------------------------------
  // Big-endian integers
  // ---------------------------------------------------------------------------

  function Power256(w: nat): nat {
    if w == 0 then 1 else 256 * Power256(w - 1)
  }

  function BigEndian(n: nat, w: nat): (b: Bytes)
    ensures |b| == w
  {
    if w == 0 then [] else BigEndian(n / 256, w - 1) + [n % 256]
  }

  function Value(b: Bytes): nat {
    if b == [] then 0 else Value(b[..|b| - 1]) * 256 + b[|b| - 1]
  }

  lemma {:induction false} ValueOfBigEndian(n: nat, w: nat)
    requires n < Power256(w)
    ensures Value(BigEndian(n, w)) == n
  {
    if w > 0 {
      ValueOfBigEndian(n / 256, w - 1);
      var b := BigEndian(n, w);
      assert b[..|b| - 1] == BigEndian(n / 256, w - 1);
    }
  }

  lemma {:induction false} BigEndianOfValue(b: Bytes)
    ensures BigEndian(Value(b), |b|) == b && Value(b) < Power256(|b|)
  {
    if b != [] {
      var front, last := b[..|b| - 1], b[|b| - 1];
      BigEndianOfValue(front);
      assert (Value(front) * 256 + last) / 256 == Value(front);
      assert b == front + [last];
    }
  }

  lemma Widths()
    ensures Power256(4) == U32 && Power256(8) == U64
  {
    assert Power256(1) == 256 && Power256(2) == 0x1_0000 && Power256(3) == 0x100_0000 && Power256(4) == U32;
    assert Power256(5) == 256 * U32 && Power256(6) == 0x1_0000 * U32 && Power256(7) == 0x100_0000 * U32;
  }

  // ---------------------------------------------------------------------------
  // Datagrams
  // ---------------------------------------------------------------------------

  datatype Datagram =
    | Normal(session: nat, payload: Bytes)
    | Fragment(session: nat, id: nat, index: nat, total: nat, payload: Bytes)

  datatype Error = TooShort | TooLarge | UnknownType | EmptyPayload | BadTotal | BadIndex

  datatype Decoded = Parsed(datagram: Datagram) | Refused(error: Error)

  function EncodeNormal(session: nat, payload: Bytes): Bytes {
    [TYPE_NORMAL] + BigEndian(session, 4) + payload
  }

  function FragmentHeader(session: nat, id: nat, index: Byte, total: Byte): (b: Bytes)
    ensures |b| == FRAG_HEADER
  {
    [TYPE_FRAGMENT] + BigEndian(session, 4) + BigEndian(id, 8) + [index, total]
  }

  function EncodeFragment(session: nat, id: nat, index: Byte, total: Byte, payload: Bytes): Bytes {
    FragmentHeader(session, id, index, total) + payload
  }

  function Decode(d: Bytes): Decoded {
    if |d| < HEADER then Refused(TooShort)
    else if |d| > MAX_DATAGRAM then Refused(TooLarge)
    else if d[0] == TYPE_NORMAL then Parsed(Normal(Value(d[1..5]), d[HEADER..]))
    else if d[0] == TYPE_FRAGMENT then
      if |d| < FRAG_HEADER then Refused(TooShort)
      else if |d| == FRAG_HEADER then Refused(EmptyPayload)
      else if d[14] < 2 then Refused(BadTotal)
      else if d[13] >= d[14] then Refused(BadIndex)
      else Parsed(Fragment(Value(d[1..5]), Value(d[5..13]), d[13], d[14], d[FRAG_HEADER..]))
    else Refused(UnknownType)
  }

  predicate Encodable(g: Datagram) {
    match g
    case Normal(session, payload) => session < U32 && |payload| <= MAX_PAYLOAD
    case Fragment(session, id, index, total, payload) =>
      session < U32 && id < U64 && index < total && 2 <= total <= MAX_FRAGMENTS && 0 < |payload| <= MAX_PIECE
  }

  function Encode(g: Datagram): Bytes
    requires Encodable(g)
  {
    match g
    case Normal(session, payload) => EncodeNormal(session, payload)
    case Fragment(session, id, index, total, payload) => EncodeFragment(session, id, index, total, payload)
  }

  lemma HeaderParts(session: nat, id: nat, index: Byte, total: Byte, payload: Bytes)
    ensures var d := EncodeFragment(session, id, index, total, payload);
            && |d| == FRAG_HEADER + |payload| && d[0] == TYPE_FRAGMENT && d[1..5] == BigEndian(session, 4)
            && d[5..13] == BigEndian(id, 8) && d[13] == index && d[14] == total && d[FRAG_HEADER..] == payload
  {
    hide BigEndian;
  }

  /** Decoding undoes encoding. */
  lemma DecodeEncoded(g: Datagram)
    requires Encodable(g)
    ensures Decode(Encode(g)) == Parsed(g)
  {
    Widths();
    hide Value;
    hide Power256;
    match g {
      case Normal(session, payload) =>
        ValueOfBigEndian(session, 4);
        hide BigEndian;
        var d := EncodeNormal(session, payload);
        assert d[1..5] == BigEndian(session, 4) && d[HEADER..] == payload;
      case Fragment(session, id, index, total, payload) =>
        ValueOfBigEndian(session, 4);
        ValueOfBigEndian(id, 8);
        HeaderParts(session, id, index, total, payload);
        hide BigEndian;
        hide EncodeFragment;
    }
  }

  /** Only encodings are accepted: whatever decodes is the encoding of what it decodes to. */
  lemma EncodeDecoded(d: Bytes)
    requires Decode(d).Parsed?
    ensures Encodable(Decode(d).datagram) && Encode(Decode(d).datagram) == d
  {
    Widths();
    BigEndianOfValue(d[1..5]);
    if d[0] == TYPE_FRAGMENT {
      BigEndianOfValue(d[5..13]);
      hide BigEndian;
      hide Value;
      hide Power256;
      assert d == [TYPE_FRAGMENT] + d[1..5] + d[5..13] + [d[13], d[14]] + d[FRAG_HEADER..];
    } else {
      hide BigEndian;
      hide Value;
      hide Power256;
      assert d == [TYPE_NORMAL] + d[1..5] + d[HEADER..];
    }
  }
}

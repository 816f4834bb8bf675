/** Splitting a UDP packet into datagrams, into buffers as the sender does it. */
module UdpFragment {
  import opened Basics
  import opened UdpWire

  function Count(data: Bytes): nat {
    (|data| + MAX_PIECE - 1) / MAX_PIECE
  }

  function PieceEnd(data: Bytes, i: nat): nat {
    Min((i + 1) * MAX_PIECE, |data|)
  }

  function Piece(data: Bytes, i: nat): Bytes
    requires i < Count(data)
  {
    data[i * MAX_PIECE..PieceEnd(data, i)]
  }

  function Join(pieces: seq<Bytes>): Bytes {
    if pieces == [] then [] else Join(pieces[..|pieces| - 1]) + pieces[|pieces| - 1]
  }

  function Pieces(data: Bytes): (p: seq<Bytes>)
    ensures |p| == Count(data) && forall i :: 0 <= i < |p| ==> p[i] == Piece(data, i)
  {
    seq(Count(data), i requires 0 <= i < Count(data) => Piece(data, i))
  }

  /** Every piece is non-empty and fits a fragment. */
  lemma PieceSize(data: Bytes, i: nat)
    requires i < Count(data)
    ensures i * MAX_PIECE < |data| && 0 < |Piece(data, i)| <= MAX_PIECE
    ensures i == Count(data) - 1 ==> PieceEnd(data, i) == |data|
    ensures i < Count(data) - 1 ==> PieceEnd(data, i) == (i + 1) * MAX_PIECE
  {
  }

  lemma {:induction false} JoinPrefix(data: Bytes, n: nat)
    requires n <= Count(data)
    ensures Join(Pieces(data)[..n]) == data[..if n == 0 then 0 else PieceEnd(data, n - 1)]
  {
    if n > 0 {
      var front := Pieces(data)[..n];
      assert front[..n - 1] == Pieces(data)[..n - 1];
      JoinPrefix(data, n - 1);
      PieceSize(data, n - 1);
      if n > 1 {
        PieceSize(data, n - 2);
      }
    }
  }

  /** The pieces in order are the packet. */
  lemma JoinIsData(data: Bytes)
    ensures Join(Pieces(data)) == data
  {
    JoinPrefix(data, Count(data));
    assert Pieces(data)[..Count(data)] == Pieces(data);
    if data != [] {
      PieceSize(data, Count(data) - 1);
    }
  }

  function Identity(epoch: nat, sequence: nat): nat {
    epoch * U32 + sequence
  }

  lemma IdentityUnique(e: nat, s: nat, f: nat, t: nat)
    requires s < U32 && t < U32 && Identity(e, s) == Identity(f, t)
    ensures e == f && s == t
  {
    assert Identity(e, s) / U32 == e && Identity(f, t) / U32 == f;
  }

  datatype Split = Datagrams(datagrams: seq<Bytes>) | Disabled | PacketTooLarge

  function FragmentsOf(session: nat, id: nat, data: Bytes): (d: seq<Bytes>)
    requires Count(data) <= MAX_FRAGMENTS
    ensures |d| == Count(data)
    ensures forall i :: 0 <= i < |d| ==> d[i] == EncodeFragment(session, id, i, Count(data), Piece(data, i))
  {
    seq(Count(data), i requires 0 <= i < Count(data) => EncodeFragment(session, id, i, Count(data), Piece(data, i)))
  }

  function SplitPacket(session: nat, epoch: nat, data: Bytes, sequence: nat, enabled: bool): Split {
    if |data| <= MAX_PAYLOAD then Datagrams([EncodeNormal(session, data)])
    else if !enabled then Disabled
    else if Count(data) > MAX_FRAGMENTS then PacketTooLarge
    else Datagrams(FragmentsOf(session, Identity(epoch, (sequence + 1) % U32), data))
  }

  /** A packet that needs splitting has at least two pieces. */
  lemma AtLeastTwo(data: Bytes)
    requires |data| > MAX_PAYLOAD
    ensures Count(data) >= 2
  {
  }

  // ---------------------------------------------------------------------------
  // The buffers
  // ---------------------------------------------------------------------------

  method PutBytes(buf: array<Byte>, at: nat, b: Bytes)
    requires at + |b| <= buf.Length
    modifies buf
    ensures buf[..] == old(buf[..at]) + b + old(buf[at + |b|..])
  {
    var i := 0;
    while i < |b|
      invariant i <= |b|
      invariant forall k :: 0 <= k < buf.Length ==> buf[k] == if at <= k < at + i then b[k - at] else old(buf[k])
    {
      buf[at + i] := b[i];
      i := i + 1;
    }
  }

  method WriteFragmentHeader(buf: array<Byte>, session: nat, id: nat, index: Byte, total: Byte)
    requires buf.Length == MAX_DATAGRAM
    modifies buf
    ensures buf[..FRAG_HEADER] == FragmentHeader(session, id, index, total)
  {
    hide BigEndian;
    buf[0] := TYPE_FRAGMENT;
    PutBytes(buf, 1, BigEndian(session, 4));
    assert buf[..5] == [TYPE_FRAGMENT] + BigEndian(session, 4);
    PutBytes(buf, 5, BigEndian(id, 8));
    assert buf[..13] == [TYPE_FRAGMENT] + BigEndian(session, 4) + BigEndian(id, 8);
    buf[13] := index;
    buf[14] := total;
    assert buf[..15] == buf[..13] + [index, total];
  }

  method BuildFragment(session: nat, id: nat, index: Byte, total: Byte, payload: Bytes) returns (d: Bytes)
    requires |payload| <= MAX_PIECE
    ensures d == EncodeFragment(session, id, index, total, payload)
  {
    var buf := new Byte[MAX_DATAGRAM](_ => 0);
    WriteFragmentHeader(buf, session, id, index, total);
    hide FragmentHeader;
    PutBytes(buf, FRAG_HEADER, payload);
    d := buf[..FRAG_HEADER + |payload|];
    assert d == FragmentHeader(session, id, index, total) + payload;
  }

  method BuildNormal(session: nat, payload: Bytes) returns (d: Bytes)
    requires |payload| <= MAX_PAYLOAD
    ensures d == EncodeNormal(session, payload)
  {
    hide BigEndian;
    var buf := new Byte[MAX_DATAGRAM](_ => 0);
    buf[0] := TYPE_NORMAL;
    PutBytes(buf, 1, BigEndian(session, 4));
    assert buf[..5] == [TYPE_NORMAL] + BigEndian(session, 4);
    PutBytes(buf, HEADER, payload);
    d := buf[..HEADER + |payload|];
    assert d == ([TYPE_NORMAL] + BigEndian(session, 4)) + payload;
  }

  /** FragmentUDPPooled: the loop over a moving offset cuts the packet into its pieces. */
  method FragmentUDP(session: nat, epoch: nat, data: Bytes, sequence: nat, enabled: bool)
      returns (result: Split, after: nat)
    requires sequence < U32
    ensures result == SplitPacket(session, epoch, data, sequence, enabled)
    ensures after == if result.Datagrams? && |data| > MAX_PAYLOAD then (sequence + 1) % U32 else sequence
  {
    after := sequence;
    if |data| <= MAX_PAYLOAD {
      var d := BuildNormal(session, data);
      return Datagrams([d]), after;
    }
    if !enabled {
      return Disabled, after;
    }
    var count := (|data| + MAX_PIECE - 1) / MAX_PIECE;
    if count > MAX_FRAGMENTS {
      return PacketTooLarge, after;
    }
    after := (sequence + 1) % U32;
    var id := Identity(epoch, after);
    var results: seq<Bytes> := [];
    var offset, i := 0, 0;
    while i < count
      invariant i <= count == Count(data) && |results| == i
      invariant offset == if i == 0 then 0 else PieceEnd(data, i - 1)
      invariant forall k :: 0 <= k < i ==> results[k] == EncodeFragment(session, id, k, count, Piece(data, k))
    {
      PieceSize(data, i);
      if i > 0 {
        PieceSize(data, i - 1);
      }
      var end := Min(offset + MAX_PIECE, |data|);
      var d := BuildFragment(session, id, i, count, data[offset..end]);
      results := results + [d];
      offset, i := end, i + 1;
    }
    assert results == FragmentsOf(session, id, data);
    return Datagrams(results), after;
  }

  /** Every datagram the sender makes decodes to the piece it was made from. */
  lemma FragmentDecodes(session: nat, id: nat, data: Bytes, i: nat)
    requires session < U32 && id < U64 && 2 <= Count(data) <= MAX_FRAGMENTS && i < Count(data)
    ensures Decode(FragmentsOf(session, id, data)[i]) == Parsed(Fragment(session, id, i, Count(data), Piece(data, i)))
  {
    PieceSize(data, i);
    DecodeEncoded(Fragment(session, id, i, Count(data), Piece(data, i)));
  }
}

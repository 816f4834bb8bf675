/** Mesh control messages, the size rules of a frame, and the preflight of a
    declaration: which chunks a client group is checked with before it is published. */
module MeshWire {
  import opened Basics

  const MAX_CHUNK_DATA: nat := 2048
  const MAX_CONTROL_PAYLOAD: nat := 4096
  const FRAME_HEADER: nat := 5
  const DIGEST_SIZE: nat := 32
  const U32_LIMIT: nat := 0x1_0000_0000
  const U64_MAX: nat := 0xFFFF_FFFF_FFFF_FFFF

  datatype Chunk = Chunk(sequence: nat, record: nat, total: nat, offset: nat, digest: Bytes, data: Bytes)

  datatype Path = Path(sequence: nat, pathId: string, groupId: string, ruleVersion: nat,
                       terminal: string, servers: seq<string>, generation: nat)

  datatype Begin = Begin(revision: nat, groups: nat, paths: nat, groupBytes: nat)

  datatype Message =
    | MsgBegin(begin: Begin)
    | MsgChunk(chunk: Chunk)
    | MsgPath(path: Path)
    | MsgWithdraw(sequence: nat, pathId: string)
    | MsgEnd(groups: nat, paths: nat, groupBytes: nat, finalSequence: nat)

  /** A path as it is published: the sequence number belongs to the frame, not to the path. */
  function Anonymous(p: Path): Path {
    p.(sequence := 0)
  }

  // ---------------------------------------------------------------------------
  // Frame sizes
  // ---------------------------------------------------------------------------

  /** Decimal digits of a JSON number. */
  function Digits(n: nat): (d: nat)
    ensures d >= 1
  {
    if n < 10 then 1 else 1 + Digits(n / 10)
  }

  /** Length of the padded base64 form of n bytes (section 4 of RFC 4648). */
  function Base64Length(n: nat): nat {
    (n + 2) / 3 * 4
  }

  predicate ValidChunk(c: Chunk) {
    && 0 < |c.data| <= MAX_CHUNK_DATA
    && 0 < c.total
    && c.offset < c.total
    && c.offset + |c.data| <= c.total
    && (c.offset == 0 ==> |c.digest| == DIGEST_SIZE)
    && (c.offset != 0 ==> c.digest == [])
  }

  /** Length of the JSON object of a chunk: member names and punctuation, the four
      numbers, the base64 data, and the digest member only where there is a digest. */
  function ChunkPayloadLength(c: Chunk): nat {
    12 + Digits(c.sequence) + 10 + Digits(c.record) + 9 + Digits(c.total) + 10 + Digits(c.offset)
    + (if c.digest == [] then 0 else 12 + Base64Length(|c.digest|))
    + 11 + Base64Length(|c.data|)
  }

  /** MarshalMeshControlFrame on a chunk, for any payload limit. */
  function MarshalChunk(c: Chunk, limit: nat): Option<nat> {
    if ValidChunk(c) && ChunkPayloadLength(c) <= limit then Some(FRAME_HEADER + ChunkPayloadLength(c)) else None
  }

  /** The chunk of a declaration that starts at an offset. */
  function ChunkAt(sequence: nat, record: nat, data: Bytes, digest: Bytes, offset: nat): Chunk
    requires offset < |data|
  {
    Chunk(sequence, record, |data|, offset, if offset == 0 then digest else [],
          data[offset..Min(|data|, offset + MAX_CHUNK_DATA)])
  }

  predicate Aligned(data: Bytes, offset: nat) {
    offset < |data| && offset % MAX_CHUNK_DATA == 0
  }

  // ---------------------------------------------------------------------------
  // Preflight
  // ---------------------------------------------------------------------------

  /** Offset of the last full chunk, or 0 when there is none after the first. */
  function LastFull(n: nat): nat {
    if n / MAX_CHUNK_DATA == 0 then 0 else (n / MAX_CHUNK_DATA - 1) * MAX_CHUNK_DATA
  }

  /** Offset of the final chunk, full or partial. */
  function LastOffset(n: nat): nat
    requires n > 0
  {
    (n - 1) / MAX_CHUNK_DATA * MAX_CHUNK_DATA
  }

  /** A chunk of a declaration as the preflight marshals it: with the widest revision. */
  predicate CheckedAt(data: Bytes, digest: Bytes, offset: nat, limit: nat)
    requires offset < |data|
  {
    MarshalChunk(ChunkAt(U64_MAX, 0, data, digest, offset), limit).Some?
  }

  /** The size checks of preflightClientGroup: first chunk, last full chunk, final chunk. */
  predicate Preflight(data: Bytes, digest: Bytes, limit: nat) {
    && data != []
    && CheckedAt(data, digest, 0, limit)
    && (var lastFull := LastFull(|data|);
        && (lastFull > 0 ==> lastFull < |data| && CheckedAt(data, digest, lastFull, limit))
        && (var last := LastOffset(|data|);
            last > 0 && last != lastFull ==> last < |data| && CheckedAt(data, digest, last, limit)))
  }

  lemma {:induction false} DigitsMonotonic(a: nat, b: nat)
    requires a <= b
    ensures Digits(a) <= Digits(b)
  {
    if a >= 10 {
      DigitsMonotonic(a / 10, b / 10);
    }
  }

  /** Wider numbers never make a chunk of the same shape shorter. */
  lemma PayloadMonotonic(c: Chunk, d: Chunk)
    requires c.sequence <= d.sequence && c.record == d.record && c.total == d.total && c.offset <= d.offset
    requires |c.digest| == |d.digest| && |c.data| == |d.data|
    ensures ChunkPayloadLength(c) <= ChunkPayloadLength(d)
  {
    DigitsMonotonic(c.sequence, d.sequence);
    DigitsMonotonic(c.offset, d.offset);
  }

  lemma OffsetArithmetic(n: nat, offset: nat)
    requires offset < n && offset % MAX_CHUNK_DATA == 0
    ensures offset <= LastOffset(n) < n
    ensures LastFull(n) < n
    ensures offset + MAX_CHUNK_DATA <= n ==> offset <= LastFull(n)
    ensures LastFull(n) > 0 ==> LastFull(n) + MAX_CHUNK_DATA <= n
    ensures offset + MAX_CHUNK_DATA > n ==> offset == LastOffset(n)
    ensures offset + MAX_CHUNK_DATA > n ==> LastFull(n) != offset || offset == 0
  {
  }

  /** A chunk that passed the check stands for every chunk of its shape at a smaller offset. */
  lemma CheckedStandsFor(data: Bytes, digest: Bytes, sequence: nat, offset: nat, checked: nat, limit: nat)
    requires |digest| == DIGEST_SIZE
    requires sequence <= U64_MAX
    requires offset <= checked < |data|
    requires (offset == 0) == (checked == 0)
    requires offset == checked || checked + MAX_CHUNK_DATA <= |data|
    requires CheckedAt(data, digest, checked, limit)
    ensures MarshalChunk(ChunkAt(sequence, 0, data, digest, offset), limit).Some?
  {
    PayloadMonotonic(ChunkAt(sequence, 0, data, digest, offset), ChunkAt(U64_MAX, 0, data, digest, checked));
  }

  /** The three chunks the preflight checks stand for all of them: whatever the payload
      limit, every chunk of the declaration can then be framed at every revision. */
  lemma PreflightSufficient(data: Bytes, digest: Bytes, sequence: nat, offset: nat, limit: nat)
    requires |digest| == DIGEST_SIZE
    requires sequence <= U64_MAX
    requires Preflight(data, digest, limit)
    requires Aligned(data, offset)
    ensures MarshalChunk(ChunkAt(sequence, 0, data, digest, offset), limit).Some?
  {
    OffsetArithmetic(|data|, offset);
    var checked := if offset == 0 then 0
                   else if offset + MAX_CHUNK_DATA <= |data| then LastFull(|data|)
                   else offset;
    CheckedStandsFor(data, digest, sequence, offset, checked, limit);
  }

  lemma {:induction false} DigitsBounded(n: nat, width: nat, bound: nat)
    requires width >= 1
    requires n < bound == Pow10(width)
    ensures Digits(n) <= width
  {
    if n >= 10 {
      DigitsBounded(n / 10, width - 1, Pow10(width - 1));
    }
  }

  function Pow10(k: nat): (p: nat)
    ensures p >= 1
  {
    if k == 0 then 1 else 10 * Pow10(k - 1)
  }

  /** With the limit the protocol uses, the preflight rejects only the empty declaration:
      every chunk of a declaration with a 32-bit length fits a frame. */
  lemma PreflightRejectsOnlyEmpty(data: Bytes, digest: Bytes)
    requires |digest| == DIGEST_SIZE
    requires |data| < U32_LIMIT
    ensures Preflight(data, digest, MAX_CONTROL_PAYLOAD) <==> data != []
  {
    if data != [] {
      OffsetArithmetic(|data|, 0);
      ChunkFits(data, digest, 0);
      if LastFull(|data|) > 0 {
        ChunkFits(data, digest, LastFull(|data|));
      }
      ChunkFits(data, digest, LastOffset(|data|));
    }
  }

  lemma ChunkFits(data: Bytes, digest: Bytes, offset: nat)
    requires |digest| == DIGEST_SIZE
    requires |data| < U32_LIMIT
    requires Aligned(data, offset)
    ensures CheckedAt(data, digest, offset, MAX_CONTROL_PAYLOAD)
  {
    WidthOfU64();
    WidthOfU32(|data|);
    WidthOfU32(offset);
  }

  lemma WidthOfU64()
    ensures Digits(U64_MAX) <= 20
  {
    assert Pow10(5) == 100_000;
    assert Pow10(10) == 100_000 * Pow10(5);
    assert Pow10(15) == 100_000 * Pow10(10);
    assert Pow10(20) == 100_000 * Pow10(15);
    DigitsBounded(U64_MAX, 20, Pow10(20));
  }

  lemma WidthOfU32(n: nat)
    requires n < U32_LIMIT
    ensures Digits(n) <= 10
  {
    assert Pow10(5) == 100_000;
    assert Pow10(10) == 100_000 * Pow10(5);
    DigitsBounded(n, 10, Pow10(10));
  }
}

/** What a mesh server publishes: a history of deltas, one per revision, and the control
    frames every delta is broadcast as. */
module MeshLog {
  import opened Basics
  import opened MeshWire

  datatype GroupKey = GroupKey(id: string, version: nat)

  /** A retained declaration: the identity its canonical bytes parse to, and the bytes. */
  datatype Decl = Decl(key: GroupKey, bytes: Bytes)

  datatype Limits = Limits(
    maxGroups: nat, maxTotalGroupBytes: nat,
    maxPathsPerGroup: nat, maxTotalPaths: nat, maxPathHops: nat,
    maxQueueMessages: nat, maxQueueBytes: nat)

  /** The parts of the surroundings that stay abstract: the digest, the strict parser of a
      canonical declaration, and the size of an encoded message. */
  datatype Env = Env(
    sha: Bytes -> Bytes,
    parse: Bytes -> Option<GroupKey>,
    size: Message -> nat,
    limits: Limits)

  datatype Delta =
    | GroupDelta(decl: Decl)
    | PathDelta(path: Path)
    | WithdrawDelta(pathId: string)

  datatype Published = Published(groups: map<string, Decl>, paths: map<string, Path>)

  const NOTHING := Published(map[], map[])

  function ApplyDelta(s: Published, d: Delta): Published {
    match d
    case GroupDelta(decl) => s.(groups := s.groups[decl.key.id := decl])
    case PathDelta(p) => s.(paths := s.paths[p.pathId := Anonymous(p)])
    case WithdrawDelta(id) => s.(paths := s.paths - {id})
  }

  /** The groups and paths published at revision n. */
  function StateAt(log: seq<Delta>, n: nat): Published
    requires n <= |log|
  {
    if n == 0 then NOTHING else ApplyDelta(StateAt(log, n - 1), log[n - 1])
  }

  /** Publishing more never rewrites an earlier revision. */
  lemma {:induction false} StateAtStable(log: seq<Delta>, more: seq<Delta>, n: nat)
    requires n <= |log|
    ensures StateAt(log + more, n) == StateAt(log, n)
  {
    if n > 0 {
      StateAtStable(log, more, n - 1);
    }
  }

  /** A published group has bytes and the identity those bytes parse to. */
  predicate DeltaOk(env: Env, d: Delta) {
    d.GroupDelta? ==>
      && 0 < |d.decl.bytes| < U32_LIMIT
      && env.parse(d.decl.bytes) == Some(d.decl.key)
  }

  predicate LogOk(env: Env, log: seq<Delta>) {
    forall i :: 0 <= i < |log| ==> DeltaOk(env, log[i])
  }

  /** Every index of the published state names the record stored under it. */
  lemma {:induction false} StateAtKeys(log: seq<Delta>, n: nat)
    requires n <= |log|
    ensures forall id :: id in StateAt(log, n).groups ==> StateAt(log, n).groups[id].key.id == id
    ensures forall id :: id in StateAt(log, n).paths ==> StateAt(log, n).paths[id].pathId == id
    ensures forall id :: id in StateAt(log, n).paths ==> StateAt(log, n).paths[id].sequence == 0
  {
    if n > 0 {
      StateAtKeys(log, n - 1);
    }
  }

  lemma {:induction false} StateAtOk(env: Env, log: seq<Delta>, n: nat, id: string)
    requires n <= |log| && LogOk(env, log)
    requires id in StateAt(log, n).groups
    ensures var d := StateAt(log, n).groups[id]; 0 < |d.bytes| < U32_LIMIT && env.parse(d.bytes) == Some(d.key)
  {
    assert DeltaOk(env, log[n - 1]);
    if id in StateAt(log, n - 1).groups {
      StateAtOk(env, log, n - 1, id);
    }
  }

  // ---------------------------------------------------------------------------
  // Frames
  // ---------------------------------------------------------------------------

  /** A queued frame: the revision it belongs to, whether it completes it, and the message. */
  datatype Frame = Frame(sequence: nat, last: bool, message: Message)

  function ChunkFrame(env: Env, sequence: nat, bytes: Bytes, offset: nat): Frame
    requires offset < |bytes|
  {
    Frame(sequence, offset + MAX_CHUNK_DATA >= |bytes|,
          MsgChunk(ChunkAt(sequence, 0, bytes, env.sha(bytes), offset)))
  }

  /** The frames of a declaration from an offset on. */
  function ChunkFrames(env: Env, sequence: nat, bytes: Bytes, offset: nat): (frames: seq<Frame>)
    requires offset < |bytes|
    ensures frames != []
    decreases |bytes| - offset
  {
    [ChunkFrame(env, sequence, bytes, offset)]
    + if offset + MAX_CHUNK_DATA < |bytes| then ChunkFrames(env, sequence, bytes, offset + MAX_CHUNK_DATA) else []
  }

  lemma ChunkFramesUnroll(env: Env, sequence: nat, bytes: Bytes, offset: nat, before: seq<Frame>)
    requires offset < |bytes|
    ensures var next := offset + MAX_CHUNK_DATA;
            before + ChunkFrames(env, sequence, bytes, offset)
            == if next < |bytes|
               then before + [ChunkFrame(env, sequence, bytes, offset)] + ChunkFrames(env, sequence, bytes, next)
               else before + [ChunkFrame(env, sequence, bytes, offset)]
  {
  }

  function FramesOf(env: Env, sequence: nat, d: Delta): (frames: seq<Frame>)
    requires DeltaOk(env, d)
    ensures frames != []
  {
    match d
    case GroupDelta(decl) => ChunkFrames(env, sequence, decl.bytes, 0)
    case PathDelta(p) => [Frame(sequence, true, MsgPath(p.(sequence := sequence)))]
    case WithdrawDelta(id) => [Frame(sequence, true, MsgWithdraw(sequence, id))]
  }

  /** declarationFrames: marshal every chunk, or give up at the first that does not fit.
      After a successful preflight it never gives up, at any revision. */
  method DeclarationFrames(env: Env, sequence: nat, data: Bytes, limit: nat) returns (frames: Option<seq<Frame>>)
    requires |env.sha(data)| == DIGEST_SIZE
    ensures data == [] ==> frames == None
    ensures frames.Some? ==> data != [] && frames.value == ChunkFrames(env, sequence, data, 0)
    ensures frames == None ==> data == [] || exists offset ::
        Aligned(data, offset) && MarshalChunk(ChunkAt(sequence, 0, data, env.sha(data), offset), limit) == None
    ensures sequence <= U64_MAX && Preflight(data, env.sha(data), limit) ==> frames.Some?
  {
    if data == [] {
      return None;
    }
    var result: seq<Frame> := [];
    var digest := env.sha(data);
    var offset := 0;
    while offset < |data|
      invariant offset % MAX_CHUNK_DATA == 0
      invariant offset < |data| ==>
                result + ChunkFrames(env, sequence, data, offset) == ChunkFrames(env, sequence, data, 0)
      invariant offset >= |data| ==> result == ChunkFrames(env, sequence, data, 0)
    {
      var end := Min(|data|, offset + MAX_CHUNK_DATA);
      var chunk := Chunk(sequence, 0, |data|, offset, if offset == 0 then digest else [], data[offset..end]);
      assert chunk == ChunkAt(sequence, 0, data, digest, offset);
      if MarshalChunk(chunk, limit) == None {
        if sequence <= U64_MAX && Preflight(data, digest, limit) {
          PreflightSufficient(data, digest, sequence, offset, limit);
        }
        assert Aligned(data, offset);
        return None;
      }
      ChunkFramesUnroll(env, sequence, data, offset, result);
      result := result + [Frame(sequence, end == |data|, MsgChunk(chunk))];
      offset := offset + MAX_CHUNK_DATA;
    }
    return Some(result);
  }

  // ---------------------------------------------------------------------------
  // Positions in the stream of deltas
  // ---------------------------------------------------------------------------

  /** The next delta frame: the one of this revision that starts at this declaration offset. */
  datatype Pos = Pos(revision: nat, offset: nat)

  predicate ValidPos(log: seq<Delta>, pos: Pos) {
    && 1 <= pos.revision <= |log| + 1
    && (pos.revision == |log| + 1 || !log[pos.revision - 1].GroupDelta? ==> pos.offset == 0)
    && (pos.revision <= |log| && log[pos.revision - 1].GroupDelta? ==>
          Aligned(log[pos.revision - 1].decl.bytes, pos.offset))
  }

  function FrameAt(env: Env, log: seq<Delta>, pos: Pos): Frame
    requires ValidPos(log, pos) && pos.revision <= |log|
  {
    match log[pos.revision - 1]
    case GroupDelta(decl) => ChunkFrame(env, pos.revision, decl.bytes, pos.offset)
    case PathDelta(p) => Frame(pos.revision, true, MsgPath(p.(sequence := pos.revision)))
    case WithdrawDelta(id) => Frame(pos.revision, true, MsgWithdraw(pos.revision, id))
  }

  function NextPos(log: seq<Delta>, pos: Pos): Pos
    requires ValidPos(log, pos) && pos.revision <= |log|
  {
    match log[pos.revision - 1]
    case GroupDelta(decl) =>
      if pos.offset + MAX_CHUNK_DATA < |decl.bytes| then Pos(pos.revision, pos.offset + MAX_CHUNK_DATA)
      else Pos(pos.revision + 1, 0)
    case _ => Pos(pos.revision + 1, 0)
  }

  lemma NextPosValid(env: Env, log: seq<Delta>, pos: Pos)
    requires LogOk(env, log) && ValidPos(log, pos) && pos.revision <= |log|
    ensures ValidPos(log, NextPos(log, pos))
    ensures FrameAt(env, log, pos).last <==> NextPos(log, pos).revision == pos.revision + 1
    ensures FrameAt(env, log, pos).sequence == pos.revision
  {
    if pos.revision < |log| {
      assert DeltaOk(env, log[pos.revision]);
    }
  }

  /** These frames are exactly the ones from a position to the end of the history: every
      revision, in order, none missing. */
  predicate Holds(env: Env, log: seq<Delta>, pos: Pos, frames: seq<Frame>)
    requires LogOk(env, log)
    decreases |frames|
  {
    && ValidPos(log, pos)
    && if frames == [] then pos == Pos(|log| + 1, 0)
       else
         && pos.revision <= |log|
         && frames[0] == FrameAt(env, log, pos)
         && Holds(env, log, NextPos(log, pos), frames[1..])
  }

  lemma {:induction false} ChunkFramesHold(env: Env, log: seq<Delta>, offset: nat)
    requires LogOk(env, log) && log != [] && log[|log| - 1].GroupDelta?
    requires Aligned(log[|log| - 1].decl.bytes, offset)
    ensures Holds(env, log, Pos(|log|, offset), ChunkFrames(env, |log|, log[|log| - 1].decl.bytes, offset))
    decreases |log[|log| - 1].decl.bytes| - offset
  {
    var bytes := log[|log| - 1].decl.bytes;
    var frames := ChunkFrames(env, |log|, bytes, offset);
    if offset + MAX_CHUNK_DATA < |bytes| {
      ChunkFramesHold(env, log, offset + MAX_CHUNK_DATA);
      assert frames[1..] == ChunkFrames(env, |log|, bytes, offset + MAX_CHUNK_DATA);
    } else {
      assert frames[1..] == [];
    }
  }

  /** The frames of the newest delta are what the history still holds for its revision. */
  lemma FramesOfHold(env: Env, log: seq<Delta>)
    requires LogOk(env, log) && log != []
    ensures DeltaOk(env, log[|log| - 1])
    ensures Holds(env, log, Pos(|log|, 0), FramesOf(env, |log|, log[|log| - 1]))
  {
    assert DeltaOk(env, log[|log| - 1]);
    match log[|log| - 1]
    case GroupDelta(decl) =>
      ChunkFramesHold(env, log, 0);
    case _ =>
      var frames := FramesOf(env, |log|, log[|log| - 1]);
      assert frames[1..] == [];
  }

  /** Broadcasting the frames of a new delta extends a complete queue to a complete queue. */
  lemma {:induction false} HoldsExtends(env: Env, log: seq<Delta>, d: Delta, pos: Pos, frames: seq<Frame>)
    requires LogOk(env, log) && LogOk(env, log + [d]) && DeltaOk(env, d)
    requires Holds(env, log, pos, frames)
    ensures Holds(env, log + [d], pos, frames + FramesOf(env, |log| + 1, d))
    decreases |frames|
  {
    var more := FramesOf(env, |log| + 1, d);
    if frames == [] {
      FramesOfHold(env, log + [d]);
      assert frames + more == more;
    } else {
      HoldsExtends(env, log, d, NextPos(log, pos), frames[1..]);
      assert (frames + more)[1..] == frames[1..] + more;
    }
  }
}

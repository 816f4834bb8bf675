/** The stream of one peer link: snapshot, catch-up up to the fence, End, live deltas.
    A receiver that reads any prefix of it either fails or stands exactly where the
    sender's history stood. */
module MeshStream {
  import opened Basics
  import opened MeshWire
  import opened MeshLog
  import opened MeshReceiver

  // ---------------------------------------------------------------------------
  // A list of records as the contents of an index
  // ---------------------------------------------------------------------------

  predicate UniqueGroups(groups: seq<Decl>) {
    forall i, j :: 0 <= i < j < |groups| ==> groups[i].key.id != groups[j].key.id
  }

  predicate UniquePaths(items: seq<Path>) {
    forall i, j :: 0 <= i < j < |items| ==> items[i].pathId != items[j].pathId
  }

  predicate ListsGroups(groups: seq<Decl>, m: map<string, Decl>) {
    && UniqueGroups(groups)
    && (forall i :: 0 <= i < |groups| ==> groups[i].key.id in m && m[groups[i].key.id] == groups[i])
    && (forall id :: id in m ==> FindGroup(groups, id) < |groups|)
  }

  predicate ListsPaths(items: seq<Path>, m: map<string, Path>) {
    && UniquePaths(items)
    && (forall i :: 0 <= i < |items| ==> items[i].pathId in m && m[items[i].pathId] == Anonymous(items[i]))
    && (forall id :: id in m ==> FindPath(items, id) < |items|)
  }

  /** The receiver's groups and paths as indexes, by name. */
  function GroupView(groups: seq<Decl>): map<string, Decl> {
    map id | id in (set i | 0 <= i < |groups| :: groups[i].key.id) && FindGroup(groups, id) < |groups|
      :: groups[FindGroup(groups, id)]
  }

  function PathView(items: seq<Path>): map<string, Path> {
    map id | id in (set i | 0 <= i < |items| :: items[i].pathId) && FindPath(items, id) < |items|
      :: Anonymous(items[FindPath(items, id)])
  }

  lemma GroupViewOf(groups: seq<Decl>, m: map<string, Decl>)
    requires ListsGroups(groups, m)
    ensures GroupView(groups) == m && UniqueGroups(groups)
  {
    forall id | id in m
      ensures id in GroupView(groups) && GroupView(groups)[id] == m[id]
    {
      var i := FindGroup(groups, id);
      assert groups[i].key.id == id;
    }
  }

  lemma PathViewOf(items: seq<Path>, m: map<string, Path>)
    requires ListsPaths(items, m)
    ensures PathView(items) == m && UniquePaths(items)
  {
    forall id | id in m
      ensures id in PathView(items) && PathView(items)[id] == m[id]
    {
      var i := FindPath(items, id);
      assert items[i].pathId == id;
    }
  }

  lemma ReplaceLists(groups: seq<Decl>, m: map<string, Decl>, d: Decl, i: nat)
    requires ListsGroups(groups, m)
    requires i < |groups| && groups[i].key.id == d.key.id
    ensures ListsGroups(groups[i := d], m[d.key.id := d])
  {
    var next := groups[i := d];
    forall id | id in m[d.key.id := d]
      ensures FindGroup(next, id) < |next|
    {
      assert next[FindGroup(groups, id)].key.id == id;
    }
  }

  lemma AppendGroupLists(groups: seq<Decl>, m: map<string, Decl>, d: Decl)
    requires ListsGroups(groups, m)
    requires d.key.id !in m
    ensures ListsGroups(groups + [d], m[d.key.id := d])
  {
    var next := groups + [d];
    forall id | id in m[d.key.id := d]
      ensures FindGroup(next, id) < |next|
    {
      var j := if id == d.key.id then |groups| else FindGroup(groups, id);
      assert next[j].key.id == id;
    }
  }

  lemma InstallLists(groups: seq<Decl>, m: map<string, Decl>, d: Decl, maxGroups: nat)
    requires ListsGroups(groups, m)
    requires Install(groups, d, maxGroups).Some?
    ensures ListsGroups(Install(groups, d, maxGroups).value, m[d.key.id := d])
  {
    var i := FindGroup(groups, d.key.id);
    if i < |groups| {
      ReplaceLists(groups, m, d, i);
    } else {
      AppendGroupLists(groups, m, d);
    }
  }

  lemma RemoveLists(items: seq<Path>, m: map<string, Path>, i: nat)
    requires ListsPaths(items, m) && i < |items|
    ensures ListsPaths(DropAt(items, i), m - {items[i].pathId})
  {
    var next := DropAt(items, i);
    var m' := m - {items[i].pathId};
    forall id | id in m'
      ensures FindPath(next, id) < |next|
    {
      var j := FindPath(items, id);
      assert next[if j < i then j else j - 1].pathId == id;
    }
  }

  lemma AppendLists(items: seq<Path>, m: map<string, Path>, p: Path)
    requires ListsPaths(items, m) && p.pathId !in m
    ensures ListsPaths(items + [p], m[p.pathId := Anonymous(p)])
  {
    var next := items + [p];
    forall id | id in m[p.pathId := Anonymous(p)]
      ensures FindPath(next, id) < |next|
    {
      var j := if id == p.pathId then |items| else FindPath(items, id);
      assert next[j].pathId == id;
    }
  }

  lemma AddPathLists(limits: Limits, st: Staged, m: map<string, Path>, p: Path, snapshot: bool)
    requires ListsPaths(st.items, m)
    requires AddPath(limits, st, p, snapshot).Some?
    ensures ListsPaths(AddPath(limits, st, p, snapshot).value.items, m[p.pathId := Anonymous(p)])
  {
    var i := FindPath(st.items, p.pathId);
    if i < |st.items| {
      RemoveLists(st.items, m, i);
      AppendLists(DropAt(st.items, i), m - {p.pathId}, p);
      assert (m - {p.pathId})[p.pathId := Anonymous(p)] == m[p.pathId := Anonymous(p)];
    } else {
      AppendLists(st.items, m, p);
    }
  }

  // ---------------------------------------------------------------------------
  // Spots in the stream
  // ---------------------------------------------------------------------------

  /** What subscribe cuts under one lock: a revision and everything published at it. */
  datatype Cut = Cut(base: nat, groups: seq<Decl>, paths: seq<Path>)

  datatype Spot =
    | AtBegin
    | AtGroup(index: nat, offset: nat)
    | AtPath(index: nat)
    | AtDelta(pos: Pos, ended: bool)

  predicate GroupsOk(env: Env, groups: seq<Decl>) {
    forall i :: 0 <= i < |groups| ==>
      0 < |groups[i].bytes| < U32_LIMIT && env.parse(groups[i].bytes) == Some(groups[i].key)
  }

  predicate CutOk(env: Env, log: seq<Delta>, cut: Cut) {
    && cut.base <= |log|
    && GroupsOk(env, cut.groups)
    && ListsGroups(cut.groups, StateAt(log, cut.base).groups)
    && ListsPaths(cut.paths, StateAt(log, cut.base).paths)
    && (forall i :: 0 <= i < |cut.paths| ==> cut.paths[i].sequence == 0)
  }

  predicate ValidSpot(log: seq<Delta>, cut: Cut, fence: Option<nat>, spot: Spot) {
    match spot
    case AtBegin => true
    case AtGroup(i, offset) => i < |cut.groups| && Aligned(cut.groups[i].bytes, offset)
    case AtPath(j) => j < |cut.paths|
    case AtDelta(pos, ended) =>
      && ValidPos(log, pos)
      && cut.base < pos.revision
      && (ended ==> fence.Some? && fence.value < pos.revision)
      && (!ended && fence.Some? ==> pos.revision < fence.value + 1 || pos == Pos(fence.value + 1, 0))
  }

  /** The catch-up has reached the fence and End is due. */
  predicate AtEnd(fence: Option<nat>, spot: Spot) {
    spot.AtDelta? && !spot.ended && fence.Some? && spot.pos == Pos(fence.value + 1, 0)
  }

  predicate HasMessage(log: seq<Delta>, cut: Cut, fence: Option<nat>, spot: Spot) {
    && ValidSpot(log, cut, fence, spot)
    && (spot.AtDelta? ==> fence.Some? && (AtEnd(fence, spot) || spot.pos.revision <= |log|))
  }

  function BeginOf(cut: Cut): Begin {
    Begin(cut.base, |cut.groups|, |cut.paths|, TotalBytes(cut.groups))
  }

  function MessageAt(env: Env, log: seq<Delta>, cut: Cut, fence: Option<nat>, spot: Spot): Message
    requires HasMessage(log, cut, fence, spot)
  {
    match spot
    case AtBegin => MsgBegin(BeginOf(cut))
    case AtGroup(i, offset) =>
      MsgChunk(ChunkAt(0, i, cut.groups[i].bytes, env.sha(cut.groups[i].bytes), offset))
    case AtPath(j) => MsgPath(cut.paths[j])
    case AtDelta(pos, _) =>
      if AtEnd(fence, spot) then MsgEnd(|cut.groups|, |cut.paths|, TotalBytes(cut.groups), fence.value)
      else FrameAt(env, log, pos).message
  }

  function AfterPaths(cut: Cut): Spot {
    AtDelta(Pos(cut.base + 1, 0), false)
  }

  function AfterGroups(cut: Cut): Spot {
    if cut.paths != [] then AtPath(0) else AfterPaths(cut)
  }

  function NextSpot(log: seq<Delta>, cut: Cut, fence: Option<nat>, spot: Spot): Spot
    requires HasMessage(log, cut, fence, spot)
  {
    match spot
    case AtBegin => if cut.groups != [] then AtGroup(0, 0) else AfterGroups(cut)
    case AtGroup(i, offset) =>
      if offset + MAX_CHUNK_DATA < |cut.groups[i].bytes| then AtGroup(i, offset + MAX_CHUNK_DATA)
      else if i + 1 < |cut.groups| then AtGroup(i + 1, 0)
      else AfterGroups(cut)
    case AtPath(j) => if j + 1 < |cut.paths| then AtPath(j + 1) else AfterPaths(cut)
    case AtDelta(pos, ended) =>
      if AtEnd(fence, spot) then AtDelta(pos, true) else AtDelta(NextPos(log, pos), ended)
  }

  predicate FenceOk(log: seq<Delta>, cut: Cut, fence: Option<nat>) {
    fence.Some? ==> cut.base <= fence.value <= |log|
  }

  lemma FirstPosValid(env: Env, log: seq<Delta>, revision: nat)
    requires LogOk(env, log) && revision <= |log|
    ensures ValidPos(log, Pos(revision + 1, 0))
  {
    if revision < |log| {
      assert DeltaOk(env, log[revision]);
    }
  }

  lemma NextSpotValid(env: Env, log: seq<Delta>, cut: Cut, fence: Option<nat>, spot: Spot)
    requires LogOk(env, log) && CutOk(env, log, cut) && FenceOk(log, cut, fence)
    requires HasMessage(log, cut, fence, spot)
    ensures ValidSpot(log, cut, fence, NextSpot(log, cut, fence, spot))
  {
    FirstPosValid(env, log, cut.base);
    if spot.AtDelta? && !AtEnd(fence, spot) {
      NextPosValid(env, log, spot.pos);
    }
  }

  // ---------------------------------------------------------------------------
  // What a receiver knows at a spot
  // ---------------------------------------------------------------------------

  predicate AssemblyAt(env: Env, a: Assembly, bytes: Bytes, offset: nat)
    requires offset < |bytes|
  {
    if offset == 0 then a == Idle
    else a.Partial? && |a.raw| == |bytes| && a.raw[..offset] == bytes[..offset] && a.digest == env.sha(bytes)
  }

  predicate ApplierAt(env: Env, log: seq<Delta>, pos: Pos, a: Applier)
    requires ValidPos(log, pos)
  {
    && a.revision + 1 == pos.revision
    && a.offset == pos.offset
    && if pos.revision <= |log| && log[pos.revision - 1].GroupDelta?
       then AssemblyAt(env, a.assembly, log[pos.revision - 1].decl.bytes, pos.offset)
       else a.assembly == Idle
  }

  /** Groups and paths are those published at revision n. */
  predicate StandsAt(log: seq<Delta>, n: nat, st: Staged) {
    && n <= |log|
    && ListsGroups(st.groups, StateAt(log, n).groups)
    && ListsPaths(st.items, StateAt(log, n).paths)
  }

  predicate LoadedAll(cut: Cut, load: Load) {
    load == Load(BeginOf(cut), Idle, TotalBytes(cut.groups), |cut.groups|, |cut.paths|)
  }

  predicate KnowsGroup(env: Env, cut: Cut, i: nat, offset: nat, rc: Receiver)
    requires i < |cut.groups| && offset < |cut.groups[i].bytes|
  {
    && rc.Initial?
    && rc.staged == Staged(cut.groups[..i], [])
    && rc.applier == Applier(cut.base, 0, Idle)
    && rc.load == Load(BeginOf(cut), rc.load.assembly, TotalBytes(cut.groups[..i]) + offset, i, 0)
    && AssemblyAt(env, rc.load.assembly, cut.groups[i].bytes, offset)
  }

  predicate KnowsPath(cut: Cut, j: nat, rc: Receiver)
    requires j <= |cut.paths|
  {
    && rc.Initial?
    && rc.staged == Staged(cut.groups, cut.paths[..j])
    && rc.applier == Applier(cut.base, 0, Idle)
    && rc.load == Load(BeginOf(cut), Idle, TotalBytes(cut.groups), |cut.groups|, j)
  }

  predicate KnowsDelta(env: Env, log: seq<Delta>, cut: Cut, pos: Pos, ended: bool, rc: Receiver)
    requires ValidPos(log, pos)
  {
    && (if ended then rc.Live? else rc.Initial? && LoadedAll(cut, rc.load))
    && StandsAt(log, pos.revision - 1, rc.staged)
    && ApplierAt(env, log, pos, rc.applier)
  }

  /** A receiver that has read everything before a spot has failed, or holds exactly what
      the stream carried so far. */
  predicate Knows(env: Env, log: seq<Delta>, cut: Cut, fence: Option<nat>, spot: Spot, rc: Receiver)
    requires ValidSpot(log, cut, fence, spot)
  {
    rc == Failed ||
    match spot
    case AtBegin => rc == Waiting
    case AtGroup(i, offset) => KnowsGroup(env, cut, i, offset, rc)
    case AtPath(j) => KnowsPath(cut, j, rc)
    case AtDelta(pos, ended) => KnowsDelta(env, log, cut, pos, ended, rc)
  }

  // ---------------------------------------------------------------------------
  // One message
  // ---------------------------------------------------------------------------

  lemma CopyChunk(env: Env, a: Assembly, bytes: Bytes, c: Chunk, offset: nat)
    requires offset < |bytes| && AssemblyAt(env, a, bytes, offset)
    requires c == ChunkAt(c.sequence, c.record, bytes, env.sha(bytes), offset)
    ensures var work := OpenAssembly(a, c);
            && |work.raw| == |bytes| && work.digest == env.sha(bytes)
            && offset + |c.data| <= |work.raw|
            && CopyAt(work.raw, offset, c.data)[..offset + |c.data|] == bytes[..offset + |c.data|]
            && (offset + |c.data| == |bytes| ==> CopyAt(work.raw, offset, c.data) == bytes)
  {
    var work := OpenAssembly(a, c);
    var copied := CopyAt(work.raw, offset, c.data);
    assert copied[..offset] == work.raw[..offset];
    assert work.raw[..offset] == bytes[..offset];
    assert copied[..offset + |c.data|] == copied[..offset] + c.data;
    assert bytes[..offset + |c.data|] == bytes[..offset] + bytes[offset..offset + |c.data|];
    if offset + |c.data| == |bytes| {
      assert copied[..|bytes|] == copied && bytes[..|bytes|] == bytes;
    }
  }

  lemma TotalBytesStep(groups: seq<Decl>, i: nat)
    requires i < |groups|
    ensures TotalBytes(groups[..i + 1]) == TotalBytes(groups[..i]) + |groups[i].bytes|
  {
    assert groups[..i + 1][..i] == groups[..i];
  }

  lemma {:induction false} TotalBytesMonotonic(groups: seq<Decl>, i: nat)
    requires i <= |groups|
    ensures TotalBytes(groups[..i]) <= TotalBytes(groups)
    decreases |groups| - i
  {
    if i < |groups| {
      TotalBytesStep(groups, i);
      TotalBytesMonotonic(groups, i + 1);
    } else {
      assert groups[..i] == groups;
    }
  }

  lemma KnowsAfterPaths(env: Env, log: seq<Delta>, cut: Cut, fence: Option<nat>, rc: Receiver)
    requires LogOk(env, log) && CutOk(env, log, cut) && FenceOk(log, cut, fence)
    requires KnowsPath(cut, |cut.paths|, rc)
    ensures ValidSpot(log, cut, fence, AfterPaths(cut)) && Knows(env, log, cut, fence, AfterPaths(cut), rc)
  {
    hide ListsGroups;
    hide ListsPaths;
    FirstPosValid(env, log, cut.base);
    assert rc.staged == Staged(cut.groups, cut.paths) by { assert cut.paths[..|cut.paths|] == cut.paths; }
    assert StandsAt(log, cut.base, rc.staged);
  }

  lemma KnowsAfterGroups(env: Env, log: seq<Delta>, cut: Cut, fence: Option<nat>, rc: Receiver)
    requires LogOk(env, log) && CutOk(env, log, cut) && FenceOk(log, cut, fence)
    requires KnowsPath(cut, 0, rc)
    ensures ValidSpot(log, cut, fence, AfterGroups(cut)) && Knows(env, log, cut, fence, AfterGroups(cut), rc)
  {
    if cut.paths == [] {
      KnowsAfterPaths(env, log, cut, fence, rc);
    }
  }

  lemma ReceiveBegin(env: Env, log: seq<Delta>, cut: Cut, fence: Option<nat>, rc: Receiver)
    requires LogOk(env, log) && CutOk(env, log, cut) && FenceOk(log, cut, fence)
    requires Knows(env, log, cut, fence, AtBegin, rc)
    ensures var m := MessageAt(env, log, cut, fence, AtBegin);
            var next := NextSpot(log, cut, fence, AtBegin);
            ValidSpot(log, cut, fence, next) && Knows(env, log, cut, fence, next, Receive(env, PeerRole, rc, m))
  {
    NextSpotValid(env, log, cut, fence, AtBegin);
    var after := Receive(env, PeerRole, rc, MessageAt(env, log, cut, fence, AtBegin));
    if after != Failed && cut.groups == [] {
      KnowsAfterGroups(env, log, cut, fence, after);
    }
  }

  /** What LoadChunk does on the chunk the sender sends at this offset of this group. */
  lemma LoadedChunk(env: Env, cut: Cut, i: nat, offset: nat, load: Load, st: Staged, c: Chunk, next: (Load, Staged))
    requires GroupsOk(env, cut.groups)
    requires i < |cut.groups| && Aligned(cut.groups[i].bytes, offset)
    requires st == Staged(cut.groups[..i], [])
    requires load == Load(BeginOf(cut), load.assembly, TotalBytes(cut.groups[..i]) + offset, i, 0)
    requires AssemblyAt(env, load.assembly, cut.groups[i].bytes, offset)
    requires c == ChunkAt(0, i, cut.groups[i].bytes, env.sha(cut.groups[i].bytes), offset)
    requires ValidChunk(c) && LoadChunk(env, PeerRole, load, st, c) == Some(next)
    ensures var end := offset + |c.data|;
            if end == |cut.groups[i].bytes| then
              next == (Load(BeginOf(cut), Idle, TotalBytes(cut.groups[..i + 1]), i + 1, 0),
                       Staged(cut.groups[..i + 1], []))
            else
              && end == offset + MAX_CHUNK_DATA
              && next.1 == st
              && next.0 == Load(BeginOf(cut), next.0.assembly, TotalBytes(cut.groups[..i]) + end, i, 0)
              && AssemblyAt(env, next.0.assembly, cut.groups[i].bytes, end)
  {
    CopyChunk(env, load.assembly, cut.groups[i].bytes, c, offset);
    TotalBytesStep(cut.groups, i);
    assert cut.groups[..i + 1] == cut.groups[..i] + [cut.groups[i]];
    assert cut.groups[i] == Decl(cut.groups[i].key, cut.groups[i].bytes);
  }

  lemma ReceiveGroup(env: Env, log: seq<Delta>, cut: Cut, fence: Option<nat>, i: nat, offset: nat, rc: Receiver)
    requires LogOk(env, log) && CutOk(env, log, cut) && FenceOk(log, cut, fence)
    requires i < |cut.groups| && Aligned(cut.groups[i].bytes, offset)
    requires KnowsGroup(env, cut, i, offset, rc)
    ensures var spot := AtGroup(i, offset);
            var m := MessageAt(env, log, cut, fence, spot);
            var next := NextSpot(log, cut, fence, spot);
            ValidSpot(log, cut, fence, next) && Knows(env, log, cut, fence, next, Receive(env, PeerRole, rc, m))
  {
    hide ListsGroups;
    hide ListsPaths;
    NextSpotValid(env, log, cut, fence, AtGroup(i, offset));
    var c := ChunkAt(0, i, cut.groups[i].bytes, env.sha(cut.groups[i].bytes), offset);
    if ValidChunk(c) && LoadChunk(env, PeerRole, rc.load, rc.staged, c).Some? {
      var next := LoadChunk(env, PeerRole, rc.load, rc.staged, c).value;
      LoadedChunk(env, cut, i, offset, rc.load, rc.staged, c, next);
      var after := rc.(load := next.0, staged := next.1);
      assert after == Receive(env, PeerRole, rc, MsgChunk(c));
      if offset + |c.data| < |cut.groups[i].bytes| {
        assert KnowsGroup(env, cut, i, offset + MAX_CHUNK_DATA, after);
      } else if i + 1 < |cut.groups| {
        assert KnowsGroup(env, cut, i + 1, 0, after);
      } else {
        assert cut.groups[..i + 1] == cut.groups && cut.paths[..0] == [];
        KnowsAfterGroups(env, log, cut, fence, after);
      }
    }
  }

  lemma ReceivePath(env: Env, log: seq<Delta>, cut: Cut, fence: Option<nat>, j: nat, rc: Receiver)
    requires LogOk(env, log) && CutOk(env, log, cut) && FenceOk(log, cut, fence)
    requires j < |cut.paths| && KnowsPath(cut, j, rc)
    ensures var spot := AtPath(j);
            var m := MessageAt(env, log, cut, fence, spot);
            var next := NextSpot(log, cut, fence, spot);
            ValidSpot(log, cut, fence, next) && Knows(env, log, cut, fence, next, Receive(env, PeerRole, rc, m))
  {
    hide ListsGroups;
    hide ListsPaths;
    NextSpotValid(env, log, cut, fence, AtPath(j));
    var p := cut.paths[j];
    var after := Receive(env, PeerRole, rc, MsgPath(p));
    if after != Failed {
      assert cut.paths[..j + 1] == cut.paths[..j] + [p];
      AddPathAppends(env.limits, rc.staged, p);
      assert KnowsPath(cut, j + 1, after);
      if j + 1 == |cut.paths| {
        KnowsAfterPaths(env, log, cut, fence, after);
      }
    }
  }

  lemma AddPathAppends(limits: Limits, st: Staged, p: Path)
    ensures AddPath(limits, st, p, true).Some? ==> AddPath(limits, st, p, true).value == st.(items := st.items + [p])
  {
  }

  lemma ReceiveEnd(env: Env, log: seq<Delta>, cut: Cut, fence: Option<nat>, spot: Spot, rc: Receiver)
    requires LogOk(env, log) && CutOk(env, log, cut) && FenceOk(log, cut, fence)
    requires AtEnd(fence, spot) && ValidSpot(log, cut, fence, spot) && Knows(env, log, cut, fence, spot, rc)
    ensures var m := MessageAt(env, log, cut, fence, spot);
            var next := NextSpot(log, cut, fence, spot);
            ValidSpot(log, cut, fence, next) && Knows(env, log, cut, fence, next, Receive(env, PeerRole, rc, m))
  {
  }

  lemma NextApplier(env: Env, log: seq<Delta>, pos: Pos)
    requires LogOk(env, log) && ValidPos(log, pos) && pos.revision <= |log|
    requires NextPos(log, pos) == Pos(pos.revision + 1, 0)
    ensures ValidPos(log, NextPos(log, pos))
    ensures ApplierAt(env, log, NextPos(log, pos), Applier(pos.revision, 0, Idle))
  {
    NextPosValid(env, log, pos);
  }

  /** The receiver moved to the next position, or rejected the frame. */
  predicate Moved(env: Env, log: seq<Delta>, pos: Pos, result: Option<(Staged, Applier)>) {
    result.Some? ==>
      && ValidPos(log, pos)
      && StandsAt(log, pos.revision - 1, result.value.0)
      && ApplierAt(env, log, pos, result.value.1)
  }

  lemma ApplyChunkFrame(env: Env, log: seq<Delta>, pos: Pos, st: Staged, a: Applier)
    requires LogOk(env, log) && ValidPos(log, pos) && pos.revision <= |log| && log[pos.revision - 1].GroupDelta?
    requires StandsAt(log, pos.revision - 1, st) && ApplierAt(env, log, pos, a)
    ensures Moved(env, log, NextPos(log, pos), Apply(env, st, a, FrameAt(env, log, pos).message))
  {
    hide ListsGroups;
    hide ListsPaths;
    NextPosValid(env, log, pos);
    assert DeltaOk(env, log[pos.revision - 1]);
    var d := log[pos.revision - 1].decl;
    var c := ChunkAt(pos.revision, 0, d.bytes, env.sha(d.bytes), pos.offset);
    CopyChunk(env, a.assembly, d.bytes, c, pos.offset);
    if pos.offset + |c.data| == |d.bytes| {
      var install := Install(st.groups, d, env.limits.maxGroups);
      if install.Some? {
        InstallLists(st.groups, StateAt(log, pos.revision - 1).groups, d, env.limits.maxGroups);
        assert StandsAt(log, pos.revision, st.(groups := install.value));
      }
      NextApplier(env, log, pos);
    }
  }

  lemma ApplyPathFrame(env: Env, log: seq<Delta>, pos: Pos, st: Staged, a: Applier)
    requires LogOk(env, log) && ValidPos(log, pos) && pos.revision <= |log| && log[pos.revision - 1].PathDelta?
    requires StandsAt(log, pos.revision - 1, st) && ApplierAt(env, log, pos, a)
    ensures Moved(env, log, NextPos(log, pos), Apply(env, st, a, FrameAt(env, log, pos).message))
  {
    hide ListsGroups;
    hide ListsPaths;
    var q := log[pos.revision - 1].path.(sequence := pos.revision);
    NextApplier(env, log, pos);
    var added := AddPath(env.limits, st, q, false);
    if added.Some? {
      AddPathLists(env.limits, st, StateAt(log, pos.revision - 1).paths, q, false);
      assert StandsAt(log, pos.revision, added.value);
    }
  }

  lemma ApplyWithdrawFrame(env: Env, log: seq<Delta>, pos: Pos, st: Staged, a: Applier)
    requires LogOk(env, log) && ValidPos(log, pos) && pos.revision <= |log| && log[pos.revision - 1].WithdrawDelta?
    requires StandsAt(log, pos.revision - 1, st) && ApplierAt(env, log, pos, a)
    ensures Moved(env, log, NextPos(log, pos), Apply(env, st, a, FrameAt(env, log, pos).message))
  {
    hide ListsGroups;
    hide ListsPaths;
    var id := log[pos.revision - 1].pathId;
    NextApplier(env, log, pos);
    if RemovePath(st, id).Some? {
      RemoveLists(st.items, StateAt(log, pos.revision - 1).paths, FindPath(st.items, id));
      assert StandsAt(log, pos.revision, RemovePath(st, id).value);
    }
  }

  /** Applying the frame at a position moves the receiver to the next position, or fails. */
  lemma ApplyFrame(env: Env, log: seq<Delta>, pos: Pos, st: Staged, a: Applier)
    requires LogOk(env, log) && ValidPos(log, pos) && pos.revision <= |log|
    requires StandsAt(log, pos.revision - 1, st) && ApplierAt(env, log, pos, a)
    ensures Moved(env, log, NextPos(log, pos), Apply(env, st, a, FrameAt(env, log, pos).message))
  {
    match log[pos.revision - 1]
    case GroupDelta(_) => ApplyChunkFrame(env, log, pos, st, a);
    case PathDelta(_) => ApplyPathFrame(env, log, pos, st, a);
    case WithdrawDelta(_) => ApplyWithdrawFrame(env, log, pos, st, a);
  }

  predicate IsDelta(m: Message) {
    match m
    case MsgChunk(c) => c.sequence != 0
    case MsgPath(p) => p.sequence != 0
    case MsgWithdraw(_, _) => true
    case _ => false
  }

  lemma ReceiveIsApply(env: Env, rc: Receiver, m: Message)
    requires IsDelta(m) && ValidMessage(m)
    requires rc.Live? || (rc.Initial? && SnapshotComplete(rc.load))
    ensures Receive(env, PeerRole, rc, m) ==
            match Apply(env, rc.staged, rc.applier, m)
            case None => Failed
            case Some(next) => rc.(staged := next.0, applier := next.1)
  {
  }

  lemma ReceiveDelta(env: Env, log: seq<Delta>, cut: Cut, fence: Option<nat>, pos: Pos, ended: bool, rc: Receiver)
    requires LogOk(env, log) && CutOk(env, log, cut) && FenceOk(log, cut, fence)
    requires !AtEnd(fence, AtDelta(pos, ended)) && HasMessage(log, cut, fence, AtDelta(pos, ended))
    requires KnowsDelta(env, log, cut, pos, ended, rc)
    ensures var spot := AtDelta(pos, ended);
            var m := MessageAt(env, log, cut, fence, spot);
            var next := NextSpot(log, cut, fence, spot);
            ValidSpot(log, cut, fence, next) && Knows(env, log, cut, fence, next, Receive(env, PeerRole, rc, m))
  {
    hide ListsGroups;
    hide ListsPaths;
    NextSpotValid(env, log, cut, fence, AtDelta(pos, ended));
    var m := FrameAt(env, log, pos).message;
    if ValidMessage(m) {
      ReceiveIsApply(env, rc, m);
      ApplyFrame(env, log, pos, rc.staged, rc.applier);
    }
  }

  /** Whatever is next in the stream, a receiver that knew where it stood still knows. */
  lemma ReceiveNext(env: Env, log: seq<Delta>, cut: Cut, fence: Option<nat>, spot: Spot, rc: Receiver)
    requires LogOk(env, log) && CutOk(env, log, cut) && FenceOk(log, cut, fence)
    requires HasMessage(log, cut, fence, spot) && Knows(env, log, cut, fence, spot, rc)
    ensures var m := MessageAt(env, log, cut, fence, spot);
            var next := NextSpot(log, cut, fence, spot);
            ValidSpot(log, cut, fence, next) && Knows(env, log, cut, fence, next, Receive(env, PeerRole, rc, m))
  {
    if rc == Failed {
      NextSpotValid(env, log, cut, fence, spot);
    } else {
      match spot
      case AtBegin => ReceiveBegin(env, log, cut, fence, rc);
      case AtGroup(i, offset) => ReceiveGroup(env, log, cut, fence, i, offset, rc);
      case AtPath(j) => ReceivePath(env, log, cut, fence, j, rc);
      case AtDelta(pos, ended) =>
        if AtEnd(fence, spot) {
          ReceiveEnd(env, log, cut, fence, spot, rc);
        } else {
          ReceiveDelta(env, log, cut, fence, pos, ended, rc);
        }
    }
  }
}

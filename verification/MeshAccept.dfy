/** When an initial state is accepted. A newer version of a group leaves its old paths
    published, and a receiver rejects a path without its declaration: so acceptance has an
    exact condition, and it is one on the sender's published state. */
module MeshAccept {
  import opened Basics
  import opened MeshWire
  import opened MeshLog
  import opened MeshReceiver
  import opened MeshStream
  import opened MeshLink
  import opened MeshWorld

  predicate PathCurrent(s: Published, p: Path) {
    p.groupId in s.groups && s.groups[p.groupId].key.version == p.ruleVersion
  }

  predicate AllCurrent(s: Published) {
    forall id :: id in s.paths ==> PathCurrent(s, s.paths[id])
  }

  function OfGroup(paths: map<string, Path>, groupId: string): set<string> {
    set id | id in paths && paths[id].groupId == groupId
  }

  predicate PathUsable(limits: Limits, p: Path) {
    0 < |p.servers| <= limits.maxPathHops && ValidMessage(MsgPath(p))
  }

  /** What publishPath and withdrawPath check before they publish. */
  predicate DeltaDisciplined(env: Env, s: Published, d: Delta) {
    match d
    case GroupDelta(_) => true
    case PathDelta(p) => PathCurrent(s, p) && PathUsable(env.limits, p)
    case WithdrawDelta(id) => id != "" && id in s.paths
  }

  predicate DisciplinedAt(env: Env, log: seq<Delta>, k: nat)
    requires k < |log|
  {
    DeltaDisciplined(env, StateAt(log, k), log[k])
  }

  predicate Disciplined(env: Env, log: seq<Delta>) {
    forall k :: 0 <= k < |log| ==> DisciplinedAt(env, log, k)
  }

  /** The published state of a revision is within the receiver's limits. */
  ghost predicate Room(limits: Limits, s: Published) {
    && |s.groups| <= limits.maxGroups
    && |s.paths| <= limits.maxTotalPaths
    && (forall g :: |OfGroup(s.paths, g)| <= limits.maxPathsPerGroup)
  }

  ghost predicate RoomAt(env: Env, log: seq<Delta>, k: nat)
    requires k <= |log|
  {
    Room(env.limits, StateAt(log, k))
  }

  ghost predicate RoomAlways(env: Env, log: seq<Delta>, from: nat, to: nat) {
    forall k :: from <= k <= to && k <= |log| ==> RoomAt(env, log, k)
  }

  ghost predicate DigestOk(env: Env) {
    forall b: Bytes :: |env.sha(b)| == DIGEST_SIZE
  }

  /** The facts about the sender and the link that hold around every message. */
  ghost predicate Sound(env: Env, log: seq<Delta>, cut: Cut, fence: nat) {
    && LogOk(env, log) && CutOk(env, log, cut) && FenceOk(log, cut, Some(fence))
    && DigestOk(env) && Disciplined(env, log)
    && RoomAlways(env, log, cut.base, fence)
    && TotalBytes(cut.groups) <= env.limits.maxTotalGroupBytes
  }

  // ---------------------------------------------------------------------------
  // Lists and their indexes have the same size
  // ---------------------------------------------------------------------------

  lemma {:induction false} PathListSizes(items: seq<Path>, m: map<string, Path>, g: string)
    requires ListsPaths(items, m)
    ensures |items| == |m|
    ensures CountGroup(items, g) == |OfGroup(m, g)|
  {
    if items == [] {
      assert m == map[] by { PathViewOf(items, m); }
      assert OfGroup(m, g) == {};
    } else {
      PathListHead(items, m);
      hide ListsPaths;
      var p := items[0];
      PathListSizes(items[1..], m - {p.pathId}, g);
      OfGroupRemove(m, p.pathId, g);
    }
  }

  lemma PathListHead(items: seq<Path>, m: map<string, Path>)
    requires ListsPaths(items, m) && items != []
    ensures items[0].pathId in m && m[items[0].pathId].groupId == items[0].groupId
    ensures ListsPaths(items[1..], m - {items[0].pathId})
  {
    RemoveLists(items, m, 0);
    assert DropAt(items, 0) == items[1..];
  }

  lemma OfGroupRemove(m: map<string, Path>, id: string, g: string)
    requires id in m
    ensures |m| == |m - {id}| + 1
    ensures |OfGroup(m, g)| == |OfGroup(m - {id}, g)| + if m[id].groupId == g then 1 else 0
  {
    assert m.Keys == (m - {id}).Keys + {id};
    if m[id].groupId == g {
      assert OfGroup(m, g) == OfGroup(m - {id}, g) + {id};
    } else {
      assert OfGroup(m, g) == OfGroup(m - {id}, g);
    }
  }

  lemma {:induction false} GroupListSize(groups: seq<Decl>, m: map<string, Decl>)
    requires ListsGroups(groups, m)
    ensures |groups| == |m|
  {
    if groups == [] {
      assert m == map[] by { GroupViewOf(groups, m); }
    } else {
      var last := groups[|groups| - 1];
      var rest := m - {last.key.id};
      GroupListTail(groups, m);
      GroupListSize(groups[..|groups| - 1], rest);
      assert m.Keys == rest.Keys + {last.key.id};
    }
  }

  lemma GroupListTail(groups: seq<Decl>, m: map<string, Decl>)
    requires ListsGroups(groups, m) && groups != []
    ensures ListsGroups(groups[..|groups| - 1], m - {groups[|groups| - 1].key.id})
  {
    var init := groups[..|groups| - 1];
    forall id | id in m - {groups[|groups| - 1].key.id}
      ensures FindGroup(init, id) < |init|
    {
      var i := FindGroup(groups, id);
      assert init[i].key.id == id;
    }
  }

  lemma HasKeyIsCurrent(groups: seq<Decl>, m: map<string, Decl>, p: Path)
    requires ListsGroups(groups, m)
    requires forall id :: id in m ==> m[id].key.id == id
    ensures HasKey(groups, GroupKey(p.groupId, p.ruleVersion)) <==>
            p.groupId in m && m[p.groupId].key.version == p.ruleVersion
  {
    if p.groupId in m {
      var i := FindGroup(groups, p.groupId);
      assert groups[i].key == m[p.groupId].key;
      assert groups[i].key == GroupKey(p.groupId, groups[i].key.version);
    }
  }

  /** Published paths keep what publishPath checked of the path itself. */
  lemma {:induction false} PublishedUsable(env: Env, log: seq<Delta>, n: nat, id: string)
    requires n <= |log| && Disciplined(env, log) && id in StateAt(log, n).paths
    ensures PathUsable(env.limits, StateAt(log, n).paths[id])
  {
    if log[n - 1].PathDelta? && log[n - 1].path.pathId == id {
      assert DisciplinedAt(env, log, n - 1);
    } else {
      PublishedUsable(env, log, n - 1, id);
    }
  }

  // ---------------------------------------------------------------------------
  // addPath accepts a path exactly if it is current
  // ---------------------------------------------------------------------------

  lemma AddPathExact(env: Env, before: Published, st: Staged, p: Path, snapshot: bool)
    requires ListsGroups(st.groups, before.groups) && ListsPaths(st.items, before.paths)
    requires forall id :: id in before.groups ==> before.groups[id].key.id == id
    requires PathUsable(env.limits, p)
    requires snapshot ==> p.pathId !in before.paths
    requires Room(env.limits, before.(paths := before.paths[p.pathId := Anonymous(p)]))
    ensures AddPath(env.limits, st, p, snapshot).Some? <==> PathCurrent(before, p)
  {
    hide ListsPaths;
    hide ListsGroups;
    hide CountGroup;
    HasKeyIsCurrent(st.groups, before.groups, p);
    AddPathFits(env.limits, before.paths, st.items, p);
  }

  /** Both count limits pass if the state with the path in it is within them. */
  lemma AddPathFits(limits: Limits, m: map<string, Path>, items: seq<Path>, p: Path)
    requires ListsPaths(items, m)
    requires |m[p.pathId := Anonymous(p)]| <= limits.maxTotalPaths
    requires |OfGroup(m[p.pathId := Anonymous(p)], p.groupId)| <= limits.maxPathsPerGroup
    ensures |Left(items, p.pathId)| < limits.maxTotalPaths
    ensures CountGroup(Left(items, p.pathId), p.groupId) < limits.maxPathsPerGroup
    ensures FindPath(items, p.pathId) < |items| <==> p.pathId in m
  {
    hide ListsPaths;
    var rest := m - {p.pathId};
    var left := Left(items, p.pathId);
    LeftLists(items, m, p.pathId);
    PathListSizes(left, rest, p.groupId);
    OfGroupRemove(m[p.pathId := Anonymous(p)], p.pathId, p.groupId);
    assert m[p.pathId := Anonymous(p)] - {p.pathId} == rest;
  }

  lemma LeftLists(items: seq<Path>, m: map<string, Path>, id: string)
    requires ListsPaths(items, m)
    ensures ListsPaths(Left(items, id), m - {id})
    ensures FindPath(items, id) < |items| <==> id in m
  {
    var i := FindPath(items, id);
    if i < |items| {
      RemoveLists(items, m, i);
    } else {
      assert m - {id} == m;
    }
  }

  // ---------------------------------------------------------------------------
  // Which messages are accepted
  // ---------------------------------------------------------------------------

  lemma SliceChunkValid(bytes: Bytes, digest: Bytes, sequence: nat, record: nat, offset: nat)
    requires Aligned(bytes, offset) && |digest| == DIGEST_SIZE
    ensures ValidChunk(ChunkAt(sequence, record, bytes, digest, offset))
  {
  }

  lemma InstallFits(groups: seq<Decl>, m: map<string, Decl>, d: Decl, maxGroups: nat)
    requires ListsGroups(groups, m) && |m[d.key.id := d]| <= maxGroups
    ensures Install(groups, d, maxGroups).Some?
  {
    GroupListSize(groups, m);
    if FindGroup(groups, d.key.id) == |groups| {
      assert d.key.id !in m;
      assert m[d.key.id := d].Keys == m.Keys + {d.key.id};
    }
  }

  lemma ApplyChunkSucceeds(env: Env, log: seq<Delta>, pos: Pos, st: Staged, a: Applier)
    requires LogOk(env, log) && DigestOk(env)
    requires ValidPos(log, pos) && pos.revision <= |log| && log[pos.revision - 1].GroupDelta?
    requires StandsAt(log, pos.revision - 1, st) && ApplierAt(env, log, pos, a)
    requires RoomAt(env, log, pos.revision)
    ensures var m := FrameAt(env, log, pos).message; ValidMessage(m) && Apply(env, st, a, m).Some?
  {
    hide ListsGroups;
    hide ListsPaths;
    hide Room;
    hide Install;
    assert DeltaOk(env, log[pos.revision - 1]);
    var d := log[pos.revision - 1].decl;
    var c := ChunkAt(pos.revision, 0, d.bytes, env.sha(d.bytes), pos.offset);
    SliceChunkValid(d.bytes, env.sha(d.bytes), pos.revision, 0, pos.offset);
    CopyChunk(env, a.assembly, d.bytes, c, pos.offset);
    GroupRoom(env, log, pos.revision);
    hide StateAt;
    InstallFits(st.groups, StateAt(log, pos.revision - 1).groups, d, env.limits.maxGroups);
  }

  lemma GroupRoom(env: Env, log: seq<Delta>, n: nat)
    requires 1 <= n <= |log| && log[n - 1].GroupDelta? && RoomAt(env, log, n)
    ensures var d := log[n - 1].decl; |StateAt(log, n - 1).groups[d.key.id := d]| <= env.limits.maxGroups
  {
  }

  lemma ApplyPathSucceeds(env: Env, log: seq<Delta>, pos: Pos, st: Staged, a: Applier)
    requires LogOk(env, log) && Disciplined(env, log)
    requires ValidPos(log, pos) && pos.revision <= |log| && log[pos.revision - 1].PathDelta?
    requires StandsAt(log, pos.revision - 1, st) && ApplierAt(env, log, pos, a)
    requires RoomAt(env, log, pos.revision)
    ensures var m := FrameAt(env, log, pos).message; ValidMessage(m) && Apply(env, st, a, m).Some?
  {
    hide ListsGroups;
    hide ListsPaths;
    assert DisciplinedAt(env, log, pos.revision - 1);
    var p := log[pos.revision - 1].path.(sequence := pos.revision);
    StateAtKeys(log, pos.revision - 1);
    AddPathExact(env, StateAt(log, pos.revision - 1), st, p, false);
  }

  lemma ApplyWithdrawSucceeds(env: Env, log: seq<Delta>, pos: Pos, st: Staged, a: Applier)
    requires LogOk(env, log) && Disciplined(env, log)
    requires ValidPos(log, pos) && pos.revision <= |log| && log[pos.revision - 1].WithdrawDelta?
    requires StandsAt(log, pos.revision - 1, st) && ApplierAt(env, log, pos, a)
    ensures var m := FrameAt(env, log, pos).message; ValidMessage(m) && Apply(env, st, a, m).Some?
  {
    hide ListsGroups;
    hide ListsPaths;
    assert DisciplinedAt(env, log, pos.revision - 1);
    LeftLists(st.items, StateAt(log, pos.revision - 1).paths, log[pos.revision - 1].pathId);
  }

  lemma DeltaApplies(env: Env, log: seq<Delta>, pos: Pos, st: Staged, a: Applier)
    requires LogOk(env, log) && DigestOk(env) && Disciplined(env, log)
    requires ValidPos(log, pos) && pos.revision <= |log| && RoomAt(env, log, pos.revision)
    requires StandsAt(log, pos.revision - 1, st) && ApplierAt(env, log, pos, a)
    ensures var m := FrameAt(env, log, pos).message; ValidMessage(m) && IsDelta(m) && Apply(env, st, a, m).Some?
  {
    hide Apply;
    hide StandsAt;
    hide ApplierAt;
    hide RoomAt;
    match log[pos.revision - 1]
    case GroupDelta(_) => ApplyChunkSucceeds(env, log, pos, st, a);
    case PathDelta(_) => ApplyPathSucceeds(env, log, pos, st, a);
    case WithdrawDelta(_) => ApplyWithdrawSucceeds(env, log, pos, st, a);
  }

  /** Every delta the sender published is accepted by a receiver that stands before it. */
  lemma DeltaAccepted(env: Env, log: seq<Delta>, cut: Cut, fence: nat, pos: Pos, rc: Receiver)
    requires Sound(env, log, cut, fence)
    requires HasMessage(log, cut, Some(fence), AtDelta(pos, false)) && pos.revision <= fence
    requires KnowsDelta(env, log, cut, pos, false, rc)
    ensures Receive(env, PeerRole, rc, FrameAt(env, log, pos).message) != Failed
  {
    hide Apply;
    hide Receive;
    hide StandsAt;
    hide ApplierAt;
    hide CutOk;
    assert RoomAt(env, log, pos.revision);
    DeltaApplies(env, log, pos, rc.staged, rc.applier);
    ReceiveIsApply(env, rc, FrameAt(env, log, pos).message);
  }

  lemma ChunkAccepted(env: Env, log: seq<Delta>, cut: Cut, fence: nat, i: nat, offset: nat, rc: Receiver)
    requires Sound(env, log, cut, fence)
    requires i < |cut.groups| && Aligned(cut.groups[i].bytes, offset)
    requires KnowsGroup(env, cut, i, offset, rc)
    ensures Receive(env, PeerRole, rc,
                    MsgChunk(ChunkAt(0, i, cut.groups[i].bytes, env.sha(cut.groups[i].bytes), offset))) != Failed
  {
    var bytes := cut.groups[i].bytes;
    var c := ChunkAt(0, i, bytes, env.sha(bytes), offset);
    SliceChunkValid(bytes, env.sha(bytes), 0, i, offset);
    CopyChunk(env, rc.load.assembly, bytes, c, offset);
    TotalBytesStep(cut.groups, i);
    TotalBytesMonotonic(cut.groups, i + 1);
    assert LoadChunk(env, PeerRole, rc.load, rc.staged, c).Some?;
  }

  lemma {:induction false} CountGroupPrefix(items: seq<Path>, j: nat, g: string)
    requires j < |items|
    ensures CountGroup(items[..j], g) + (if items[j].groupId == g then 1 else 0) <= CountGroup(items, g)
  {
    if j > 0 {
      CountGroupPrefix(items[1..], j - 1, g);
      assert items[1..][..j - 1] == items[..j][1..];
    }
  }

  lemma PathAcceptedIff(env: Env, log: seq<Delta>, cut: Cut, fence: nat, j: nat, rc: Receiver)
    requires Sound(env, log, cut, fence)
    requires j < |cut.paths| && KnowsPath(cut, j, rc)
    ensures Receive(env, PeerRole, rc, MsgPath(cut.paths[j])) != Failed
            <==> PathCurrent(StateAt(log, cut.base), cut.paths[j])
  {
    var s := StateAt(log, cut.base);
    var p := cut.paths[j];
    assert s.paths[p.pathId] == Anonymous(p);
    PublishedUsable(env, log, cut.base, p.pathId);
    StateAtKeys(log, cut.base);
    assert RoomAt(env, log, cut.base);
    assert FindPath(cut.paths[..j], p.pathId) == j;
    SnapshotAddExact(env, s, cut, j);
  }

  lemma SnapshotAddExact(env: Env, s: Published, cut: Cut, j: nat)
    requires ListsGroups(cut.groups, s.groups) && ListsPaths(cut.paths, s.paths)
    requires forall id :: id in s.groups ==> s.groups[id].key.id == id
    requires j < |cut.paths| && PathUsable(env.limits, cut.paths[j]) && Room(env.limits, s)
    requires FindPath(cut.paths[..j], cut.paths[j].pathId) == j
    ensures AddPath(env.limits, Staged(cut.groups, cut.paths[..j]), cut.paths[j], true).Some?
            <==> PathCurrent(s, cut.paths[j])
  {
    hide ListsGroups;
    hide ListsPaths;
    var p := cut.paths[j];
    HasKeyIsCurrent(cut.groups, s.groups, p);
    PathListSizes(cut.paths, s.paths, p.groupId);
    CountGroupPrefix(cut.paths, j, p.groupId);
  }

  // ---------------------------------------------------------------------------
  // Acceptance
  // ---------------------------------------------------------------------------

  /** Everything read before this spot was acceptable. */
  predicate Survives(log: seq<Delta>, cut: Cut, fence: nat, spot: Spot)
    requires cut.base <= |log| && fence <= |log|
  {
    match spot
    case AtBegin => true
    case AtGroup(_, _) => true
    case AtPath(j) => FirstCurrent(StateAt(log, cut.base), cut.paths, j)
    case AtDelta(_, ended) =>
      AllCurrent(StateAt(log, cut.base)) && (ended ==> AllCurrent(StateAt(log, fence)))
  }

  predicate FirstCurrent(s: Published, paths: seq<Path>, j: nat) {
    forall i :: 0 <= i < j && i < |paths| ==> PathCurrent(s, paths[i])
  }

  lemma FirstCurrentIsAll(s: Published, paths: seq<Path>)
    requires ListsPaths(paths, s.paths)
    ensures FirstCurrent(s, paths, |paths|) <==> AllCurrent(s)
  {
    forall id | id in s.paths
      ensures FirstCurrent(s, paths, |paths|) ==> PathCurrent(s, s.paths[id])
    {
      assert s.paths[id] == Anonymous(paths[FindPath(paths, id)]);
    }
    forall i | 0 <= i < |paths|
      ensures AllCurrent(s) ==> PathCurrent(s, paths[i])
    {
      assert s.paths[paths[i].pathId] == Anonymous(paths[i]);
    }
  }

  lemma EndAcceptedIff(env: Env, log: seq<Delta>, cut: Cut, fence: nat, rc: Receiver)
    requires Sound(env, log, cut, fence)
    requires HasMessage(log, cut, Some(fence), AtDelta(Pos(fence + 1, 0), false))
    requires KnowsDelta(env, log, cut, Pos(fence + 1, 0), false, rc)
    ensures Receive(env, PeerRole, rc,
                    MessageAt(env, log, cut, Some(fence), AtDelta(Pos(fence + 1, 0), false))) != Failed
            <==> AllCurrent(StateAt(log, fence))
  {
    hide ListsGroups;
    hide ListsPaths;
    StagedCurrent(log, fence, rc.staged);
    assert rc.applier.assembly == Idle;
  }

  lemma StagedCurrent(log: seq<Delta>, n: nat, st: Staged)
    requires StandsAt(log, n, st)
    ensures PathsReferToGroups(st) <==> AllCurrent(StateAt(log, n))
  {
    var s := StateAt(log, n);
    StateAtKeys(log, n);
    FirstCurrentIsAll(s, st.items);
    forall i | 0 <= i < |st.items|
      ensures HasKey(st.groups, GroupKey(st.items[i].groupId, st.items[i].ruleVersion)) <==> PathCurrent(s, st.items[i])
    {
      HasKeyIsCurrent(st.groups, s.groups, st.items[i]);
    }
  }

  lemma BeginAccepted(env: Env, log: seq<Delta>, cut: Cut, fence: nat)
    requires Sound(env, log, cut, fence)
    ensures Receive(env, PeerRole, Waiting, MsgBegin(BeginOf(cut))) != Failed
  {
    GroupListSize(cut.groups, StateAt(log, cut.base).groups);
    PathListSizes(cut.paths, StateAt(log, cut.base).paths, "");
    assert RoomAt(env, log, cut.base);
  }

  lemma FailedStays(env: Env, m: Message)
    ensures Receive(env, PeerRole, Failed, m) == Failed
  {
  }

  lemma SurvivesNext(env: Env, log: seq<Delta>, cut: Cut, fence: nat, spot: Spot, rc: Receiver)
    requires Sound(env, log, cut, fence)
    requires HasMessage(log, cut, Some(fence), spot) && !(spot.AtDelta? && spot.ended)
    requires Knows(env, log, cut, Some(fence), spot, rc)
    requires rc != Failed <==> Survives(log, cut, fence, spot)
    ensures Receive(env, PeerRole, rc, MessageAt(env, log, cut, Some(fence), spot)) != Failed
            <==> Survives(log, cut, fence, NextSpot(log, cut, Some(fence), spot))
  {
    hide ListsGroups;
    hide ListsPaths;
    hide Receive;
    FailedStays(env, MessageAt(env, log, cut, Some(fence), spot));
    FirstCurrentIsAll(StateAt(log, cut.base), cut.paths);
    hide StateAt;
    match spot
    case AtBegin =>
      BeginAccepted(env, log, cut, fence);
    case AtGroup(i, offset) =>
      ChunkAccepted(env, log, cut, fence, i, offset, rc);
    case AtPath(j) =>
      if rc != Failed {
        PathAcceptedIff(env, log, cut, fence, j, rc);
      }
    case AtDelta(pos, _) =>
      if rc != Failed {
        if AtEnd(Some(fence), spot) {
          EndAcceptedIff(env, log, cut, fence, rc);
        } else {
          DeltaAccepted(env, log, cut, fence, pos, rc);
        }
      }
  }

  lemma {:induction false} StreamSurvives(env: Env, log: seq<Delta>, cut: Cut, fence: nat,
                                          spot: Spot, rc: Receiver, messages: seq<Message>)
    requires Sound(env, log, cut, fence)
    requires ValidSpot(log, cut, Some(fence), spot) && Knows(env, log, cut, Some(fence), spot, rc)
    requires rc != Failed <==> Survives(log, cut, fence, spot)
    requires Emits(env, log, cut, Some(fence), spot, messages, AtDelta(Pos(fence + 1, 0), true))
    requires spot.AtDelta? && spot.ended ==> spot.pos == Pos(fence + 1, 0) && messages == []
    ensures ReceiveAll(env, PeerRole, rc, messages) != Failed <==>
            Survives(log, cut, fence, AtDelta(Pos(fence + 1, 0), true))
    ensures ReceiveAll(env, PeerRole, rc, messages) != Failed ==> ReceiveAll(env, PeerRole, rc, messages).Live?
    decreases |messages|
  {
    hide ListsGroups;
    hide ListsPaths;
    hide Receive;
    hide Survives;
    if messages != [] {
      ReceiveAllCons(env, PeerRole, rc, messages);
      SurvivesNext(env, log, cut, fence, spot, rc);
      ReceiveNext(env, log, cut, Some(fence), spot, rc);
      var next := NextSpot(log, cut, Some(fence), spot);
      var after := Receive(env, PeerRole, rc, messages[0]);
      if next.AtDelta? && next.ended && messages[1..] != [] {
        EndedMovesOn(env, log, cut, fence, next, messages[1..], AtDelta(Pos(fence + 1, 0), true));
      }
      StreamSurvives(env, log, cut, fence, next, after, messages[1..]);
    }
  }

  predicate Before(a: Pos, b: Pos) {
    a.revision < b.revision || (a.revision == b.revision && a.offset < b.offset)
  }

  /** Past its End the stream only moves on: it never returns to an earlier position. */
  lemma {:induction false} EndedMovesOn(env: Env, log: seq<Delta>, cut: Cut, fence: nat, spot: Spot,
      messages: seq<Message>, to: Spot)
    requires spot.AtDelta? && spot.ended && messages != []
    requires Emits(env, log, cut, Some(fence), spot, messages, to)
    ensures to.AtDelta? && to.ended && Before(spot.pos, to.pos)
    decreases |messages|
  {
    var next := NextSpot(log, cut, Some(fence), spot);
    if messages[1..] != [] {
      EndedMovesOn(env, log, cut, fence, next, messages[1..], to);
    }
  }

  /** A complete initial state is accepted, by a receiver with room for it, exactly if every
      path published at the cut and at the fence refers to the current version of its group. */
  lemma AcceptedIff(env: Env, log: seq<Delta>, cut: Cut, fence: nat, messages: seq<Message>)
    requires Sound(env, log, cut, fence)
    requires Emits(env, log, cut, Some(fence), AtBegin, messages, AtDelta(Pos(fence + 1, 0), true))
    ensures ReceiveAll(env, PeerRole, Waiting, messages).Live? <==>
            AllCurrent(StateAt(log, cut.base)) && AllCurrent(StateAt(log, fence))
    ensures ReceiveAll(env, PeerRole, Waiting, messages).Live? || ReceiveAll(env, PeerRole, Waiting, messages) == Failed
  {
    StreamSurvives(env, log, cut, fence, AtBegin, Waiting, messages);
  }

  /** Unconditional acceptance fails: one group, one path on it, then a newer version of the
      group is a run of the sender. The path stays published, so the condition fails at revision
      3 and every receiver with room rejects the whole initial state sent from there. */
  lemma NewVersionStrandsPath(env: Env, first: Decl, second: Decl, p: Path)
    requires first.key == GroupKey("g", 1) && second.key == GroupKey("g", 2)
    requires DeltaOk(env, GroupDelta(first)) && DeltaOk(env, GroupDelta(second))
    requires p == Path(0, "p", "g", 1, "s", ["s"], 0)
    requires env.limits.maxPathHops > 0 && env.limits.maxPathsPerGroup > 0
    ensures var w := Run(env, [PublishGroup(first), PublishPath(p, true), PublishGroup(second)]);
            && w.revision == |w.log| == 3 && AllCurrent(StateAt(w.log, 2)) && !AllCurrent(StateAt(w.log, 3))
            && forall cut, messages :: Rejectable(env, w.log, cut, messages) ==>
                 ReceiveAll(env, PeerRole, Waiting, messages) == Failed
  {
    var log := [GroupDelta(first), PathDelta(p), GroupDelta(second)];
    assert StateAt(log, 1) == Published(map["g" := first], map[]);
    assert StateAt(log, 2) == Published(map["g" := first], map["p" := p]);
    assert StateAt(log, 3) == Published(map["g" := second], map["p" := p]);
    assert !PathCurrent(StateAt(log, 3), StateAt(log, 3).paths["p"]);
    StrandingRun(env, first, second, p);
    forall cut, messages | Rejectable(env, log, cut, messages)
      ensures ReceiveAll(env, PeerRole, Waiting, messages) == Failed
    {
      AcceptedIff(env, log, cut, 3, messages);
    }
  }

  /** A whole initial state cut at revision 3, sent to a receiver with room for it. */
  ghost predicate Rejectable(env: Env, log: seq<Delta>, cut: Cut, messages: seq<Message>)
    requires |log| == 3
  {
    && Sound(env, log, cut, 3) && cut.base == 3
    && Emits(env, log, cut, Some(3), AtBegin, messages, AtDelta(Pos(4, 0), true))
  }

  lemma StrandingRun(env: Env, first: Decl, second: Decl, p: Path)
    requires first.key == GroupKey("g", 1) && second.key == GroupKey("g", 2)
    requires DeltaOk(env, GroupDelta(first)) && DeltaOk(env, GroupDelta(second))
    requires p == Path(0, "p", "g", 1, "s", ["s"], 0)
    requires env.limits.maxPathHops > 0 && env.limits.maxPathsPerGroup > 0
    ensures Run(env, [PublishGroup(first), PublishPath(p, true), PublishGroup(second)])
         == World(false, 3, map["g" := second], map["p" := p], [GroupDelta(first), PathDelta(p), GroupDelta(second)],
                  map[])
  {
    hide DeltaOk;
    hide FramesOf;
    var actions := [PublishGroup(first), PublishPath(p, true), PublishGroup(second)];
    assert actions[..2] == [PublishGroup(first), PublishPath(p, true)] && actions[..2][..1] == [PublishGroup(first)];
    assert [PublishGroup(first)][..0] == [];
    assert Run(env, []) == START;
    assert MayPublishGroup(env, START, first);
    var one := Run(env, [PublishGroup(first)]);
    assert one == Do(env, START, PublishGroup(first));
    assert one == World(false, 1, map["g" := first], map[], [GroupDelta(first)], map[]);
    assert OtherPathsOfGroup(one, p) == {};
    assert Run(env, actions[..2]) ==
           World(false, 2, map["g" := first], map["p" := p], [GroupDelta(first), PathDelta(p)], map[]);
  }

  lemma DisciplineExtends(env: Env, log: seq<Delta>, d: Delta)
    requires Disciplined(env, log) && DeltaDisciplined(env, StateAt(log, |log|), d)
    ensures Disciplined(env, log + [d])
  {
    forall k | 0 <= k < |log + [d]|
      ensures DisciplinedAt(env, log + [d], k)
    {
      StateAtStable(log, [d], k);
      if k < |log| {
        assert DisciplinedAt(env, log, k);
      }
    }
  }

  /** The history of every run keeps the sender's checks. */
  lemma {:induction false} RunDisciplined(env: Env, actions: seq<Action>)
    ensures Disciplined(env, Run(env, actions).log)
  {
    if actions != [] {
      var before := actions[..|actions| - 1];
      RunDisciplined(env, before);
      RunOk(env, before);
      StepDisciplined(env, Run(env, before), actions[|actions| - 1]);
    }
  }

  lemma StepDisciplined(env: Env, w: World, a: Action)
    requires WorldOk(env, w) && Disciplined(env, w.log)
    ensures Disciplined(env, Do(env, w, a).log)
  {
    hide StateAt;
    hide LinkOk;
    hide StepLink;
    match a
    case PublishGroup(decl) =>
      if MayPublishGroup(env, w, decl) { DisciplineExtends(env, w.log, GroupDelta(decl)); }
    case PublishPath(p, fits) =>
      if MayPublishPath(env, w, p, fits) { DisciplineExtends(env, w.log, PathDelta(p)); }
    case WithdrawPath(id) =>
      if !w.closed && id in w.paths && id != "" { DisciplineExtends(env, w.log, WithdrawDelta(id)); }
    case _ =>
  }
}

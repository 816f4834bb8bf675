/** The publishing server's objects: the bounded queue of a link, and the control state
    that broadcasts every publication to all of them under one lock. */
module MeshQueue {
  import opened Basics
  import opened MeshWire
  import opened MeshLog
  import opened MeshReceiver
  import opened MeshStream
  import opened MeshLink
  import opened MeshWorld

  class ControlQueue {
    const env: Env
    var frames: seq<Frame>
    var bytes: int
    var failed: bool

    function View(): Queue
      reads this
    {
      Queue(frames, bytes, failed)
    }

    constructor (env: Env)
      ensures View() == EMPTY_QUEUE && this.env == env
    {
      this.env := env;
      frames := [];
      bytes := 0;
      failed := false;
    }

    /** push: all of the batch, or none of it and the queue has failed. */
    method PushAll(batch: seq<Frame>) returns (ok: bool)
      modifies this
      ensures View() == Push(env, old(View()), batch)
      ensures ok <==> !failed
    {
      if failed {
        return false;
      }
      var size := 0;
      for i := 0 to |batch|
        invariant size == FrameBytes(env, batch[..i])
        invariant View() == old(View())
      {
        FrameBytesAppend(env, batch[..i], [batch[i]]);
        assert batch[..i + 1] == batch[..i] + [batch[i]];
        size := size + env.size(batch[i].message);
      }
      assert batch[..|batch|] == batch;
      if |batch| > env.limits.maxQueueMessages - |frames| || size > env.limits.maxQueueBytes - bytes {
        failed := true;
        return false;
      }
      frames := frames + batch;
      bytes := bytes + size;
      return true;
    }

    /** take without waiting: an error once failed, nothing when empty, else the head. */
    method Take() returns (broken: bool, head: Option<Frame>)
      ensures broken <==> failed
      ensures head.Some? <==> !failed && frames != []
      ensures head.Some? ==> head.value == frames[0]
    {
      if failed {
        return true, None;
      }
      if |frames| > 0 {
        return false, Some(frames[0]);
      }
      return false, None;
    }

    /** done removes the head only if it still is the frame that was taken. */
    method Done(f: Frame)
      modifies this
      ensures View() == Pop(env, old(View()), f)
    {
      if |frames| > 0 && frames[0] == f {
        frames := frames[1..];
        bytes := bytes - env.size(f.message);
      }
    }

    method ClearAll()
      modifies this
      ensures View() == CLEARED
    {
      frames := [];
      bytes := 0;
      failed := true;
    }
  }

  predicate Distinct(links: seq<ControlQueue>) {
    forall i, j :: 0 <= i < j < |links| ==> links[i] != links[j]
  }

  class ControlState {
    const env: Env
    var closed: bool
    var revision: nat
    var groups: map<string, Decl>
    var paths: map<string, Path>
    var links: seq<ControlQueue>
    ghost var log: seq<Delta>

    /** The indexes are the newest revision of the history. */
    ghost predicate Valid()
      reads this
    {
      && Distinct(links)
      && (forall i :: 0 <= i < |links| ==> links[i].env == env)
      && LogOk(env, log)
      && revision == |log|
      && (!closed ==> Published(groups, paths) == StateAt(log, |log|))
    }

    constructor (env: Env)
      ensures Valid() && this.env == env && log == [] && links == [] && !closed
    {
      this.env := env;
      closed := false;
      revision := 0;
      groups := map[];
      paths := map[];
      links := [];
      log := [];
    }

    /** broadcastLocked: every link gets the whole batch or has failed; the failed ones are
        returned for closing. */
    method BroadcastAll(batch: seq<Frame>) returns (broken: seq<ControlQueue>)
      requires Valid()
      modifies links
      ensures forall i :: 0 <= i < |links| ==> links[i].View() == Push(env, old(links[i].View()), batch)
      ensures forall q :: q in broken <==> q in links && q.failed
    {
      broken := [];
      for i := 0 to |links|
        invariant forall j :: 0 <= j < i ==> links[j].View() == Push(env, old(links[j].View()), batch)
        invariant forall j :: i <= j < |links| ==> links[j].View() == old(links[j].View())
        invariant forall q :: q in broken <==> q in links[..i] && q.failed
      {
        var ok := links[i].PushAll(batch);
        if !ok {
          broken := broken + [links[i]];
        }
      }
    }

    /** The server's part of the world, without its links. */
    ghost function Server(): World
      reads this
    {
      World(closed, revision, groups, paths, log, map[])
    }

    ghost predicate Pushed(before: map<ControlQueue, Queue>, batch: seq<Frame>)
      reads this, links
    {
      forall q :: q in links ==> q in before && q.View() == Push(env, before[q], batch)
    }

    ghost function Queues(): (m: map<ControlQueue, Queue>)
      reads this, links
    {
      map q | q in links :: q.View()
    }

    /** The common end of every publication: the indexes and the revision move together
        and the frames reach every link under the same lock. */
    method PublishDelta(d: Delta, batch: seq<Frame>) returns (broken: seq<ControlQueue>)
      requires Valid() && !closed && DeltaOk(env, d)
      requires batch == FramesOf(env, revision + 1, d)
      modifies this, links
      ensures Valid() && links == old(links)
      ensures Server() == Publish(env, old(Server()), d)
      ensures Pushed(old(Queues()), batch)
      ensures forall q :: q in broken ==> q in links && q.failed
    {
      hide FramesOf;
      hide Push;
      StateAtStable(log, [d], |log|);
      match d {
        case GroupDelta(decl) => groups := groups[decl.key.id := decl];
        case PathDelta(p) => paths := paths[p.pathId := Anonymous(p)];
        case WithdrawDelta(id) => paths := paths - {id};
      }
      revision := revision + 1;
      log := log + [d];
      broken := BroadcastAll(batch);
    }

    /** commitClientGroup, once the client's generation has committed: the record is
        published only if it is newer, as one revision, to every link. */
    method CommitClientGroup(decl: Decl) returns (publish: bool, broken: seq<ControlQueue>)
      requires Valid() && !closed && DeltaOk(env, GroupDelta(decl))
      requires |env.sha(decl.bytes)| == DIGEST_SIZE && revision < U64_MAX
      modifies this, links
      ensures Valid() && links == old(links)
      ensures publish <==> MayPublishGroup(env, old(Server()), decl)
      ensures publish ==> Server() == Publish(env, old(Server()), GroupDelta(decl))
      ensures publish ==> Pushed(old(Queues()), FramesOf(env, revision, GroupDelta(decl)))
      ensures !publish ==> Server() == old(Server()) && Queues() == old(Queues())
      ensures forall q :: q in broken ==> q in links && q.failed
    {
      hide ChunkFrames;
      hide Preflight;
      hide Push;
      hide MarshalChunk;
      broken := [];
      publish := decl.key.id !in groups || decl.key.version > groups[decl.key.id].key.version;
      if publish {
        PreflightRejectsOnlyEmpty(decl.bytes, env.sha(decl.bytes));
        var frames := DeclarationFrames(env, revision + 1, decl.bytes, MAX_CONTROL_PAYLOAD);
        broken := PublishDelta(GroupDelta(decl), frames.value);
      }
    }

    /** The published paths of a group other than this one. */
    method CountOthers(p: Path) returns (count: nat)
      ensures count == |OtherPathsOfGroup(Server(), p)|
    {
      var rest := paths.Keys;
      count := 0;
      ghost var seen: set<string> := {};
      while rest != {}
        invariant rest <= paths.Keys
        invariant seen == set id | id in paths.Keys - rest && paths[id].groupId == p.groupId && id != p.pathId
        invariant count == |seen|
        decreases rest
      {
        var id :| id in rest;
        rest := rest - {id};
        if paths[id].groupId == p.groupId && id != p.pathId {
          count := count + 1;
          seen := seen + {id};
        }
      }
      assert seen == OtherPathsOfGroup(Server(), p);
    }

    method PublishPath(p: Path, fits: bool) returns (ok: bool, broken: seq<ControlQueue>)
      requires Valid()
      modifies this, links
      ensures Valid() && links == old(links)
      ensures ok <==> MayPublishPath(env, old(Server()), p, fits)
      ensures ok ==> Server() == Publish(env, old(Server()), PathDelta(p))
      ensures ok ==> Pushed(old(Queues()), FramesOf(env, revision, PathDelta(p)))
      ensures !ok ==> Server() == old(Server()) && Queues() == old(Queues())
      ensures forall q :: q in broken ==> q in links && q.failed
    {
      ok, broken := false, [];
      if closed || p.groupId !in groups || groups[p.groupId].key.version != p.ruleVersion
         || |p.servers| > env.limits.maxPathHops {
        return;
      }
      var others := CountOthers(p);
      if others >= env.limits.maxPathsPerGroup || !ValidMessage(MsgPath(p)) || !fits {
        return;
      }
      ok := true;
      broken := PublishDelta(PathDelta(p), [Frame(revision + 1, true, MsgPath(p.(sequence := revision + 1)))]);
    }

    method WithdrawPath(id: string) returns (ok: bool, broken: seq<ControlQueue>)
      requires Valid()
      modifies this, links
      ensures Valid() && links == old(links)
      ensures ok <==> !old(closed) && id in old(paths) && id != ""
      ensures ok ==> Server() == Publish(env, old(Server()), WithdrawDelta(id))
      ensures ok ==> Pushed(old(Queues()), FramesOf(env, revision, WithdrawDelta(id)))
      ensures !ok ==> Server() == old(Server()) && Queues() == old(Queues())
      ensures forall q :: q in broken ==> q in links && q.failed
    {
      ok, broken := false, [];
      if closed || id !in paths || id == "" {
        return;
      }
      ok := true;
      broken := PublishDelta(WithdrawDelta(id), [Frame(revision + 1, true, MsgWithdraw(revision + 1, id))]);
    }

    /** close: nothing stays published and no link is served any more. */
    method CloseAll()
      requires Valid()
      modifies this
      ensures Valid() && closed && groups == map[] && paths == map[] && links == []
      ensures revision == old(revision) && log == old(log)
    {
      closed := true;
      groups := map[];
      paths := map[];
      links := [];
    }
  }

  function GroupSpot(cut: Cut, i: nat, offset: nat): Spot
    requires i < |cut.groups|
  {
    if offset < |cut.groups[i].bytes| then AtGroup(i, offset)
    else if i + 1 < |cut.groups| then AtGroup(i + 1, 0)
    else AfterGroups(cut)
  }

  function PathSpot(cut: Cut, j: nat): Spot {
    if j < |cut.paths| then AtPath(j) else AfterPaths(cut)
  }

  /** sendDeclaration: the chunks of one declaration, in order. */
  method SendDeclaration(env: Env, ghost log: seq<Delta>, cut: Cut, i: nat, before: seq<Message>)
      returns (out: seq<Message>)
    requires LogOk(env, log) && CutOk(env, log, cut) && i < |cut.groups|
    requires Emits(env, log, cut, None, AtBegin, before, AtGroup(i, 0))
    ensures Emits(env, log, cut, None, AtBegin, out, GroupSpot(cut, i, |cut.groups[i].bytes|))
  {
    hide CutOk;
    var data := cut.groups[i].bytes;
    var digest := env.sha(data);
    out := before;
    var offset := 0;
    assert GroupsOk(env, cut.groups) by { CutGroups(env, log, cut); }
    while offset < |data|
      invariant offset % MAX_CHUNK_DATA == 0
      invariant Emits(env, log, cut, None, AtBegin, out, GroupSpot(cut, i, offset))
    {
      var end := Min(|data|, offset + MAX_CHUNK_DATA);
      EmitsSnoc(env, log, cut, None, AtBegin, out, AtGroup(i, offset));
      out := out + [MsgChunk(Chunk(0, i, |data|, offset, if offset == 0 then digest else [], data[offset..end]))];
      offset := offset + MAX_CHUNK_DATA;
    }
  }

  lemma CutGroups(env: Env, log: seq<Delta>, cut: Cut)
    requires CutOk(env, log, cut)
    ensures GroupsOk(env, cut.groups)
  {
  }

  /** The head of sendPeerSnapshot: Begin with the counts of the cut, every declaration,
      every path; exactly the stream up to the first delta. */
  method SendSnapshotHead(env: Env, ghost log: seq<Delta>, cut: Cut) returns (out: seq<Message>)
    requires LogOk(env, log) && CutOk(env, log, cut)
    ensures Emits(env, log, cut, None, AtBegin, out, AfterPaths(cut))
  {
    hide CutOk;
    CutGroups(env, log, cut);
    var groupBytes := 0;
    for i := 0 to |cut.groups|
      invariant groupBytes == TotalBytes(cut.groups[..i])
    {
      TotalBytesStep(cut.groups, i);
      groupBytes := groupBytes + |cut.groups[i].bytes|;
    }
    assert cut.groups[..|cut.groups|] == cut.groups;
    EmitsSnoc(env, log, cut, None, AtBegin, [], AtBegin);
    assert [] + [MsgBegin(BeginOf(cut))] == [MsgBegin(BeginOf(cut))];
    out := [MsgBegin(Begin(cut.base, |cut.groups|, |cut.paths|, groupBytes))];
    for i := 0 to |cut.groups|
      invariant Emits(env, log, cut, None, AtBegin, out, if i < |cut.groups| then AtGroup(i, 0) else AfterGroups(cut))
    {
      out := SendDeclaration(env, log, cut, i, out);
    }
    for j := 0 to |cut.paths|
      invariant Emits(env, log, cut, None, AtBegin, out, PathSpot(cut, j))
    {
      EmitsSnoc(env, log, cut, None, AtBegin, out, AtPath(j));
      out := out + [MsgPath(cut.paths[j])];
    }
  }
}

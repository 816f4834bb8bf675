/** The receiving server's objects: the staged state with its two lists, the delta applier
    that replays one message at a time, and the loop that loads an initial state. */
module MeshApply {
  import opened Basics
  import opened MeshWire
  import opened MeshLog
  import opened MeshReceiver

  class StagedState {
    var groups: seq<Decl>
    var items: seq<Path>

    function View(): Staged
      reads this
    {
      Staged(groups, items)
    }

    constructor ()
      ensures View() == Staged([], [])
    {
      groups := [];
      items := [];
    }

    method IndexOfPath(id: string) returns (i: nat)
      ensures i == FindPath(items, id)
    {
      i := 0;
      while i < |items| && items[i].pathId != id
        invariant i <= |items|
        invariant forall j :: 0 <= j < i ==> items[j].pathId != id
      {
        i := i + 1;
      }
    }

    method IndexOfGroup(id: string) returns (i: nat)
      ensures i == FindGroup(groups, id)
    {
      i := 0;
      while i < |groups| && groups[i].key.id != id
        invariant i <= |groups|
        invariant forall j :: 0 <= j < i ==> groups[j].key.id != id
      {
        i := i + 1;
      }
    }

    method Matches(key: GroupKey) returns (matched: bool)
      ensures matched == HasKey(groups, key)
    {
      for i := 0 to |groups|
        invariant forall j :: 0 <= j < i ==> groups[j].key != key
      {
        if groups[i].key == key {
          return true;
        }
      }
      return false;
    }

    method CountPaths(groupId: string) returns (count: nat)
      ensures count == CountGroup(items, groupId)
    {
      count := 0;
      for i := 0 to |items|
        invariant count + CountGroup(items[i..], groupId) == CountGroup(items, groupId)
      {
        if items[i].groupId == groupId {
          count := count + 1;
        }
      }
    }

    /** Take out the entry of a path, if there is one. */
    method DropPath(id: string)
      modifies this`items
      ensures items == Left(old(items), id)
    {
      var at := IndexOfPath(id);
      if at < |items| {
        items := items[..at] + items[at + 1..];
      }
    }

    /** addPath: the old entry of this path is taken out before both limits are checked, and stays
        out if they refuse the new one. */
    method TryAddPath(limits: Limits, p: Path, snapshot: bool) returns (ok: bool)
      modifies this`items
      ensures ok <==> AddPath(limits, old(View()), p, snapshot).Some?
      ensures ok ==> View() == AddPath(limits, old(View()), p, snapshot).value
      ensures !ok && PathMayEnter(limits, old(View()), p, snapshot) ==> items == Left(old(items), p.pathId)
      ensures !ok && !PathMayEnter(limits, old(View()), p, snapshot) ==> items == old(items)
    {
      if |p.servers| == 0 || |p.servers| > limits.maxPathHops {
        return false;
      }
      var matched := Matches(GroupKey(p.groupId, p.ruleVersion));
      if !matched {
        return false;
      }
      var at := IndexOfPath(p.pathId);
      if at < |items| && snapshot {
        return false;
      }
      DropPath(p.pathId);
      if |items| >= limits.maxTotalPaths {
        return false;
      }
      var groupPaths := CountPaths(p.groupId);
      if groupPaths >= limits.maxPathsPerGroup {
        return false;
      }
      items := items + [p];
      return true;
    }

    method WithdrawPath(id: string) returns (found: bool)
      modifies this
      ensures found <==> RemovePath(old(View()), id).Some?
      ensures found ==> View() == RemovePath(old(View()), id).value
      ensures !found ==> View() == old(View())
    {
      var at := IndexOfPath(id);
      if at < |items| {
        items := items[..at] + items[at + 1..];
        return true;
      }
      return false;
    }

    method ValidatePaths() returns (ok: bool)
      ensures ok <==> PathsReferToGroups(View())
    {
      for i := 0 to |items|
        invariant forall j :: 0 <= j < i ==> HasKey(groups, GroupKey(items[j].groupId, items[j].ruleVersion))
      {
        var found := Matches(GroupKey(items[i].groupId, items[i].ruleVersion));
        if !found {
          return false;
        }
      }
      return true;
    }

    /** Install the record of a group delta: in place, or at the end while there is room. */
    method TryInstall(d: Decl, maxGroups: nat) returns (ok: bool)
      modifies this
      ensures ok <==> Install(old(groups), d, maxGroups).Some?
      ensures ok ==> groups == Install(old(groups), d, maxGroups).value && items == old(items)
      ensures !ok ==> View() == old(View())
    {
      var at := IndexOfGroup(d.key.id);
      if at < |groups| {
        groups := groups[at := d];
        return true;
      }
      if |groups| >= maxGroups {
        return false;
      }
      groups := groups + [d];
      return true;
    }
  }

  class DeltaApplier {
    const env: Env
    const state: StagedState
    var revision: nat
    var offset: nat
    var assembly: Assembly

    function View(): Applier
      reads this
    {
      Applier(revision, offset, assembly)
    }

    constructor (env: Env, state: StagedState, revision: nat)
      ensures View() == Applier(revision, 0, Idle) && this.state == state && this.env == env
    {
      this.env := env;
      this.state := state;
      this.revision := revision;
      offset := 0;
      assembly := Idle;
    }

    method TryApplyChunk(c: Chunk) returns (ok: bool)
      modifies this, state
      ensures ok <==> ApplyChunk(env, old(state.View()), old(View()), c).Some?
      ensures ok ==> (state.View(), View()) == ApplyChunk(env, old(state.View()), old(View()), c).value
    {
      if c.sequence != revision + 1 || c.record != 0 || c.offset != offset {
        return false;
      }
      if assembly.Idle? {
        assembly := Partial(seq(c.total, _ => 0), c.digest);
      }
      if c.total != |assembly.raw| || c.offset + |c.data| > |assembly.raw| {
        return false;
      }
      assembly := Partial(CopyAt(assembly.raw, c.offset, c.data), assembly.digest);
      offset := offset + |c.data|;
      if offset == |assembly.raw| {
        var record := Finish(env, assembly.raw, assembly.digest);
        if record.None? {
          return false;
        }
        var installed := state.TryInstall(record.value, env.limits.maxGroups);
        if !installed {
          return false;
        }
        assembly := Idle;
        offset := 0;
        revision := revision + 1;
      }
      return true;
    }

    method TryApply(m: Message) returns (ok: bool)
      modifies this, state
      ensures ok <==> Apply(env, old(state.View()), old(View()), m).Some?
      ensures ok ==> (state.View(), View()) == Apply(env, old(state.View()), old(View()), m).value
    {
      match m {
        case MsgChunk(c) =>
          ok := TryApplyChunk(c);
        case MsgPath(p) =>
          if assembly.Partial? || p.sequence != revision + 1 {
            return false;
          }
          ok := state.TryAddPath(env.limits, p, false);
          if ok {
            revision := revision + 1;
          }
        case MsgWithdraw(sequence, id) =>
          if assembly.Partial? || sequence != revision + 1 {
            return false;
          }
          ok := state.WithdrawPath(id);
          if ok {
            revision := revision + 1;
          }
        case _ =>
          return false;
      }
    }
  }

  // ---------------------------------------------------------------------------
  // Loading
  // ---------------------------------------------------------------------------

  lemma ReceiveAllSnoc(env: Env, role: Role, input: seq<Message>, i: nat)
    requires i < |input|
    ensures ReceiveAll(env, role, Waiting, input[..i + 1]) ==
            Receive(env, role, ReceiveAll(env, role, Waiting, input[..i]), input[i])
  {
    assert input[..i + 1][..i] == input[..i];
  }

  lemma ReceiveBoundary(env: Env, role: Role, rc: Receiver, m: Message)
    ensures !ValidMessage(m) ==> Receive(env, role, rc, m) == Failed
    ensures Receive(env, role, Waiting, m) == if m.MsgBegin? then StartLoad(env, role, m.begin) else Failed
    ensures Receive(env, role, Failed, m) == Failed
  {
  }

  lemma {:induction false} FailureIsFinal(env: Env, role: Role, input: seq<Message>, i: nat, k: nat)
    requires i <= k <= |input| && ReceiveAll(env, role, Waiting, input[..i]) == Failed
    ensures ReceiveAll(env, role, Waiting, input[..k]) == Failed
  {
    hide Receive;
    if i < k {
      ReceiveBoundary(env, role, Failed, input[k - 1]);
      FailureIsFinal(env, role, input, i, k - 1);
      ReceiveAllSnoc(env, role, input, k - 1);
    }
  }

  /** The snapshot-chunk branch of receiveInitial. */
  method TryLoadChunk(env: Env, role: Role, load: Load, state: StagedState, c: Chunk) returns (next: Option<Load>)
    requires ValidChunk(c)
    modifies state
    ensures next.Some? <==> LoadChunk(env, role, load, old(state.View()), c).Some?
    ensures next.Some? ==> (next.value, state.View()) == LoadChunk(env, role, load, old(state.View()), c).value
  {
    if load.snapshotGroups == load.begin.groups || c.record != load.snapshotGroups || c.record >= load.begin.groups {
      return None;
    }
    var assembly := load.assembly;
    if assembly.Idle? {
      if c.offset != 0 || c.total > load.begin.groupBytes - load.groupBytes {
        return None;
      }
      assembly := Partial(seq(c.total, _ => 0), c.digest);
    }
    if c.total != |assembly.raw| || c.offset >= |assembly.raw| ||
       c.offset != load.groupBytes - TotalBytes(state.groups) {
      return None;
    }
    assembly := Partial(CopyAt(assembly.raw, c.offset, c.data), assembly.digest);
    var counted := load.(groupBytes := load.groupBytes + |c.data|);
    if c.offset + |c.data| < |assembly.raw| {
      return Some(counted.(assembly := assembly));
    }
    var record := Finish(env, assembly.raw, assembly.digest);
    if record.None? || (role.ClientRole? && role.expectedGroup != "" && record.value.key.id != role.expectedGroup) {
      return None;
    }
    var at := state.IndexOfGroup(record.value.key.id);
    if at < |state.groups| {
      return None;
    }
    state.groups := state.groups + [record.value];
    return Some(counted.(assembly := Idle, snapshotGroups := load.snapshotGroups + 1));
  }

  /** One turn of the receiveInitial loop, before End. */
  method TryLoad(env: Env, role: Role, load: Load, state: StagedState, applier: DeltaApplier, m: Message)
    returns (next: Option<Load>)
    requires ValidMessage(m) && !m.MsgEnd? && applier.state == state && applier.env == env
    modifies state, applier
    ensures var rc := Receive(env, role, Initial(load, old(state.View()), old(applier.View())), m);
            if next.Some? then rc == Initial(next.value, state.View(), applier.View()) else rc == Failed
  {
    match m {
      case MsgChunk(c) =>
        if c.sequence != 0 {
          next := TryLoadDelta(role, load, state, applier, m);
        } else {
          next := TryLoadChunk(env, role, load, state, c);
        }
      case MsgPath(p) =>
        if p.sequence != 0 {
          next := TryLoadDelta(role, load, state, applier, m);
        } else {
          if role.ClientRole? || load.assembly.Partial? || load.pathCount >= load.begin.paths {
            return None;
          }
          var ok := state.TryAddPath(env.limits, p, true);
          next := if ok then Some(load.(pathCount := load.pathCount + 1)) else None;
        }
      case MsgWithdraw(_, _) =>
        next := TryLoadDelta(role, load, state, applier, m);
      case MsgBegin(_) =>
        next := None;
    }
  }

  method TryLoadDelta(role: Role, load: Load, state: StagedState, applier: DeltaApplier, m: Message)
    returns (next: Option<Load>)
    requires applier.state == state
    modifies state, applier
    ensures var rc := LoadDelta(applier.env, role, Initial(load, old(state.View()), old(applier.View())), m);
            if next.Some? then rc == Initial(next.value, state.View(), applier.View()) else rc == Failed
  {
    if role.ClientRole? || !SnapshotComplete(load) {
      return None;
    }
    var ok := applier.TryApply(m);
    next := if ok then Some(load) else None;
  }

  /** The End branch of receiveInitial. */
  method TryFinish(env: Env, role: Role, load: Load, state: StagedState, applier: DeltaApplier, m: Message)
    returns (ok: bool)
    requires m.MsgEnd?
    ensures var rc := Receive(env, role, Initial(load, state.View(), applier.View()), m);
            if ok then rc == Live(state.View(), Applier(applier.revision, 0, Idle)) else rc == Failed
  {
    if !SnapshotComplete(load) || applier.assembly.Partial? || load.groupBytes != load.begin.groupBytes
       || m.groups != load.begin.groups || m.paths != load.begin.paths
       || m.groupBytes != load.groupBytes || m.finalSequence != applier.revision {
      return false;
    }
    ok := state.ValidatePaths();
  }

  /** receiveInitial: Begin, then messages until an End that closes a complete snapshot.
      The state it returns is the one the message-by-message receiver stands at, and it
      returns one exactly if that receiver goes live. */
  method ReceiveInitial(env: Env, role: Role, input: seq<Message>)
    returns (accepted: Option<StagedState>, revision: nat, consumed: nat)
    ensures accepted.Some? ==>
      && consumed <= |input|
      && ReceiveAll(env, role, Waiting, input[..consumed]) == Live(accepted.value.View(), Applier(revision, 0, Idle))
    ensures accepted.None? ==> forall k :: 0 <= k <= |input| ==> !ReceiveAll(env, role, Waiting, input[..k]).Live?
    ensures accepted.Some? ==> fresh(accepted.value)
  {
    hide Receive;
    accepted, revision, consumed := None, 0, 0;
    if input == [] {
      return;
    }
    ReceiveAllSnoc(env, role, input, 0);
    var first := input[0];
    ReceiveBoundary(env, role, Waiting, first);
    var started := if first.MsgBegin? then StartLoad(env, role, first.begin) else Failed;
    if started.Failed? {
      NeverLive(env, role, input, 1);
      return;
    }
    var load := started.load;
    var state := new StagedState();
    var applier := new DeltaApplier(env, state, load.begin.revision);
    consumed := 1;
    while consumed < |input|
      invariant 1 <= consumed <= |input|
      invariant fresh(state) && fresh(applier) && applier.state == state && applier.env == env
      invariant ReceiveAll(env, role, Waiting, input[..consumed]) == Initial(load, state.View(), applier.View())
      invariant forall k :: 0 <= k <= consumed ==> !ReceiveAll(env, role, Waiting, input[..k]).Live?
    {
      var m := input[consumed];
      ReceiveAllSnoc(env, role, input, consumed);
      if !ValidMessage(m) {
        ReceiveBoundary(env, role, ReceiveAll(env, role, Waiting, input[..consumed]), m);
        NeverLive(env, role, input, consumed + 1);
        return;
      }
      if m.MsgEnd? {
        var complete := TryFinish(env, role, load, state, applier, m);
        if !complete {
          NeverLive(env, role, input, consumed + 1);
          return;
        }
        return Some(state), applier.revision, consumed + 1;
      }
      var next := TryLoad(env, role, load, state, applier, m);
      if next.None? {
        NeverLive(env, role, input, consumed + 1);
        return;
      }
      load := next.value;
      consumed := consumed + 1;
    }
  }

  lemma NeverLive(env: Env, role: Role, input: seq<Message>, i: nat)
    requires 1 <= i <= |input| && ReceiveAll(env, role, Waiting, input[..i]) == Failed
    requires forall k :: 0 <= k < i ==> !ReceiveAll(env, role, Waiting, input[..k]).Live?
    ensures forall k :: 0 <= k <= |input| ==> !ReceiveAll(env, role, Waiting, input[..k]).Live?
  {
    forall k | i <= k <= |input|
      ensures !ReceiveAll(env, role, Waiting, input[..k]).Live?
    {
      FailureIsFinal(env, role, input, i, k);
    }
  }
}

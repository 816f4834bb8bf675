/** The receiving side of a mesh control stream: staging an initial snapshot, catching up
    with the deltas sent before its End, and applying live deltas afterwards. */
module MeshReceiver {
  import opened Basics
  import opened MeshWire
  import opened MeshLog

  /** A declaration under assembly: the buffer of its announced length, and its digest. */
  datatype Assembly = Idle | Partial(raw: Bytes, digest: Bytes)

  datatype Staged = Staged(groups: seq<Decl>, items: seq<Path>)

  datatype Applier = Applier(revision: nat, offset: nat, assembly: Assembly)

  /** The counters of receiveInitial. */
  datatype Load = Load(begin: Begin, assembly: Assembly, groupBytes: nat, snapshotGroups: nat, pathCount: nat)

  datatype Receiver =
    | Waiting
    | Initial(load: Load, staged: Staged, applier: Applier)
    | Live(staged: Staged, applier: Applier)
    | Failed

  datatype Role = ClientRole(expectedGroup: string) | PeerRole

  // ---------------------------------------------------------------------------
  // Staged groups and paths
  // ---------------------------------------------------------------------------

  function FindGroup(groups: seq<Decl>, id: string): (i: nat)
    ensures i <= |groups|
    ensures forall j :: 0 <= j < i ==> groups[j].key.id != id
    ensures i < |groups| ==> groups[i].key.id == id
  {
    if groups == [] || groups[0].key.id == id then 0 else 1 + FindGroup(groups[1..], id)
  }

  function FindPath(items: seq<Path>, id: string): (i: nat)
    ensures i <= |items|
    ensures forall j :: 0 <= j < i ==> items[j].pathId != id
    ensures i < |items| ==> items[i].pathId == id
  {
    if items == [] || items[0].pathId == id then 0 else 1 + FindPath(items[1..], id)
  }

  function DropAt<T>(s: seq<T>, i: nat): seq<T>
    requires i < |s|
  {
    s[..i] + s[i + 1..]
  }

  function CountGroup(items: seq<Path>, groupId: string): nat {
    if items == [] then 0 else (if items[0].groupId == groupId then 1 else 0) + CountGroup(items[1..], groupId)
  }

  /** A delta replaces the group it names in place, or appends it while there is room. */
  function Install(groups: seq<Decl>, d: Decl, maxGroups: nat): Option<seq<Decl>> {
    var i := FindGroup(groups, d.key.id);
    if i < |groups| then Some(groups[i := d])
    else if |groups| >= maxGroups then None
    else Some(groups + [d])
  }

  predicate HasKey(groups: seq<Decl>, key: GroupKey) {
    exists i :: 0 <= i < |groups| && groups[i].key == key
  }

  /** The list without the entry of a path. */
  function Left(items: seq<Path>, id: string): seq<Path> {
    var i := FindPath(items, id);
    if i < |items| then DropAt(items, i) else items
  }

  /** What addPath checks first: hop limit, a complete matching declaration, no duplicate in a snapshot. */
  predicate PathMayEnter(limits: Limits, st: Staged, p: Path, snapshot: bool) {
    && 0 < |p.servers| <= limits.maxPathHops && HasKey(st.groups, GroupKey(p.groupId, p.ruleVersion))
    && !(snapshot && FindPath(st.items, p.pathId) < |st.items|)
  }

  /** addPath: then both count limits; the path moves to the end of the list. */
  function AddPath(limits: Limits, st: Staged, p: Path, snapshot: bool): Option<Staged> {
    if !PathMayEnter(limits, st, p, snapshot) then None
    else
      var items := Left(st.items, p.pathId);
      if |items| >= limits.maxTotalPaths || CountGroup(items, p.groupId) >= limits.maxPathsPerGroup then None
      else Some(st.(items := items + [p]))
  }

  function RemovePath(st: Staged, id: string): Option<Staged> {
    var i := FindPath(st.items, id);
    if i < |st.items| then Some(st.(items := DropAt(st.items, i))) else None
  }

  predicate PathsReferToGroups(st: Staged) {
    forall i :: 0 <= i < |st.items| ==> HasKey(st.groups, GroupKey(st.items[i].groupId, st.items[i].ruleVersion))
  }

  // ---------------------------------------------------------------------------
  // Messages
  // ---------------------------------------------------------------------------

  predicate ValidMessage(m: Message) {
    match m
    case MsgChunk(c) => ValidChunk(c)
    case MsgPath(p) => p.pathId != "" && p.groupId != "" && p.ruleVersion != 0 && p.terminal != "" && p.servers != []
    case MsgWithdraw(_, id) => id != ""
    case _ => true
  }

  function CopyAt(raw: Bytes, offset: nat, data: Bytes): (copied: Bytes)
    requires offset + |data| <= |raw|
    ensures |copied| == |raw|
  {
    raw[..offset] + data + raw[offset + |data|..]
  }

  function OpenAssembly(a: Assembly, c: Chunk): (work: Assembly)
    ensures work.Partial?
  {
    if a.Idle? then Partial(seq(c.total, _ => 0), c.digest) else a
  }

  /** The record of a complete declaration: digest check, then the strict parser. */
  function Finish(env: Env, raw: Bytes, digest: Bytes): Option<Decl> {
    if env.sha(raw) != digest then None
    else match env.parse(raw)
         case None => None
         case Some(key) => Some(Decl(key, raw))
  }

  /** deltaApplier.apply on a chunk. */
  function ApplyChunk(env: Env, st: Staged, a: Applier, c: Chunk): Option<(Staged, Applier)> {
    if c.sequence != a.revision + 1 || c.record != 0 || c.offset != a.offset then None
    else
      var work := OpenAssembly(a.assembly, c);
      if c.total != |work.raw| || c.offset + |c.data| > |work.raw| then None
      else
        var raw := CopyAt(work.raw, c.offset, c.data);
        var offset := a.offset + |c.data|;
        if offset == |raw| then
          match Finish(env, raw, work.digest)
          case None => None
          case Some(d) =>
            match Install(st.groups, d, env.limits.maxGroups)
            case None => None
            case Some(groups) => Some((st.(groups := groups), Applier(a.revision + 1, 0, Idle)))
        else Some((st, a.(offset := offset, assembly := Partial(raw, work.digest))))
  }

  /** deltaApplier.apply. */
  function Apply(env: Env, st: Staged, a: Applier, m: Message): Option<(Staged, Applier)> {
    match m
    case MsgChunk(c) => ApplyChunk(env, st, a, c)
    case MsgPath(p) =>
      if a.assembly.Partial? || p.sequence != a.revision + 1 then None
      else (match AddPath(env.limits, st, p, false)
            case None => None
            case Some(next) => Some((next, a.(revision := a.revision + 1))))
    case MsgWithdraw(sequence, id) =>
      if a.assembly.Partial? || sequence != a.revision + 1 then None
      else (match RemovePath(st, id)
            case None => None
            case Some(next) => Some((next, a.(revision := a.revision + 1))))
    case _ => None
  }

  function TotalBytes(groups: seq<Decl>): nat {
    if groups == [] then 0 else TotalBytes(groups[..|groups| - 1]) + |groups[|groups| - 1].bytes|
  }

  /** A snapshot chunk (sequence zero) in receiveInitial. */
  function LoadChunk(env: Env, role: Role, load: Load, st: Staged, c: Chunk): Option<(Load, Staged)>
    requires ValidChunk(c)
  {
    if load.snapshotGroups == load.begin.groups || c.record != load.snapshotGroups || c.record >= load.begin.groups
    then None
    else if load.assembly.Idle? && (c.offset != 0 || c.total > load.begin.groupBytes - load.groupBytes) then None
    else
      var work := OpenAssembly(load.assembly, c);
      if c.total != |work.raw| || c.offset >= |work.raw| || c.offset != load.groupBytes - TotalBytes(st.groups)
      then None
      else
        var raw := CopyAt(work.raw, c.offset, c.data);
        var counted := load.(groupBytes := load.groupBytes + |c.data|);
        if c.offset + |c.data| == |raw| then
          match Finish(env, raw, work.digest)
          case None => None
          case Some(d) =>
            if role.ClientRole? && role.expectedGroup != "" && d.key.id != role.expectedGroup then None
            else if FindGroup(st.groups, d.key.id) < |st.groups| then None
            else Some((counted.(assembly := Idle, snapshotGroups := load.snapshotGroups + 1),
                       st.(groups := st.groups + [d])))
        else Some((counted.(assembly := Partial(raw, work.digest)), st))
  }

  predicate SnapshotComplete(load: Load) {
    load.snapshotGroups == load.begin.groups && load.pathCount == load.begin.paths && load.assembly.Idle?
  }

  function StartLoad(env: Env, role: Role, b: Begin): Receiver {
    if role.ClientRole? && (b.groups != 1 || b.paths != 0) then Failed
    else if b.groups > env.limits.maxGroups || b.paths > env.limits.maxTotalPaths
            || b.groupBytes > env.limits.maxTotalGroupBytes then Failed
    else Initial(Load(b, Idle, 0, 0, 0), Staged([], []), Applier(b.revision, 0, Idle))
  }

  function LoadDelta(env: Env, role: Role, rc: Receiver, m: Message): Receiver
    requires rc.Initial?
  {
    if role.ClientRole? || !SnapshotComplete(rc.load) then Failed
    else match Apply(env, rc.staged, rc.applier, m)
         case None => Failed
         case Some(next) => rc.(staged := next.0, applier := next.1)
  }

  function LoadPath(env: Env, role: Role, rc: Receiver, p: Path): Receiver
    requires rc.Initial?
  {
    if role.ClientRole? || rc.load.assembly.Partial? || rc.load.pathCount >= rc.load.begin.paths then Failed
    else match AddPath(env.limits, rc.staged, p, true)
         case None => Failed
         case Some(next) => rc.(staged := next, load := rc.load.(pathCount := rc.load.pathCount + 1))
  }

  function FinishLoad(rc: Receiver, m: Message): Receiver
    requires rc.Initial? && m.MsgEnd?
  {
    if || !SnapshotComplete(rc.load) || rc.applier.assembly.Partial?
       || rc.load.groupBytes != rc.load.begin.groupBytes
       || m.groups != rc.load.begin.groups || m.paths != rc.load.begin.paths
       || m.groupBytes != rc.load.groupBytes || m.finalSequence != rc.applier.revision
       || !PathsReferToGroups(rc.staged)
    then Failed
    else Live(rc.staged, Applier(rc.applier.revision, 0, Idle))
  }

  /** One message of the stream; a failed receiver stays failed. */
  function Receive(env: Env, role: Role, rc: Receiver, m: Message): Receiver {
    if !ValidMessage(m) then Failed
    else match rc
      case Waiting => if m.MsgBegin? then StartLoad(env, role, m.begin) else Failed
      case Initial(load, st, _) =>
        (match m
         case MsgChunk(c) =>
           if c.sequence != 0 then LoadDelta(env, role, rc, m)
           else (match LoadChunk(env, role, load, st, c)
                 case None => Failed
                 case Some(next) => rc.(load := next.0, staged := next.1))
         case MsgPath(p) => if p.sequence != 0 then LoadDelta(env, role, rc, m) else LoadPath(env, role, rc, p)
         case MsgWithdraw(_, _) => LoadDelta(env, role, rc, m)
         case MsgEnd(_, _, _, _) => FinishLoad(rc, m)
         case MsgBegin(_) => Failed)
      case Live(st, a) =>
        (match Apply(env, st, a, m)
         case None => Failed
         case Some(next) => Live(next.0, next.1))
      case Failed => Failed
  }

  /** The receiver after a sequence of messages. */
  function ReceiveAll(env: Env, role: Role, rc: Receiver, messages: seq<Message>): Receiver {
    if messages == [] then rc
    else Receive(env, role, ReceiveAll(env, role, rc, messages[..|messages| - 1]), messages[|messages| - 1])
  }

  lemma {:induction false} ReceiveAllCons(env: Env, role: Role, rc: Receiver, messages: seq<Message>)
    requires messages != []
    ensures ReceiveAll(env, role, rc, messages) ==
            ReceiveAll(env, role, Receive(env, role, rc, messages[0]), messages[1..])
  {
    hide Receive;
    var front := messages[..|messages| - 1];
    if front != [] {
      ReceiveAllCons(env, role, rc, front);
      assert messages[1..][..|messages| - 2] == front[1..];
    }
  }
}

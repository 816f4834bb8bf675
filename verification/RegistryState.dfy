/** The mesh registry: generations, their slots, simultaneous-dial arbitration and the cached
    availability of groups. Each critical section is one function. */
module RegistryState {
  import opened Basics
  import opened MapSum

  datatype Role = Unknown | Client | Peer
  datatype Phase = Pending | Prepared | Current | Retiring

  datatype Forwarding = Forwarding(session: bool, declared: bool, l4: bool)

  /** A live generation. `tried` records that Prepare has been called with it. */
  datatype Gen = Gen(
    role: Role, outbound: bool, phase: Phase,
    instance: string, group: string, peer: string, tried: bool,
    version: nat, forwarding: Forwarding)

  /** A clientEntry or peerEntry; a peer's entry has no group. */
  datatype Entry = Entry(group: string, prepared: Option<nat>, current: Option<nat>, retiring: set<nat>)

  datatype Arbitration = Arbitration(id: nat, inbound: nat, loser: nat, released: bool)

  datatype Rule = Rule(version: nat, applyLatest: bool)

  datatype Limits = Limits(pending: nat, clients: nat, peers: nat)

  /** `edges` counts replacements of the groupChanged channel; `faulted` a close of a closed one.
      `sweep` is what the first phase of Stop saw. */
  datatype Registry = Registry(
    limits: Limits, closed: bool, nextID: nat, nextArb: nat,
    all: map<nat, Gen>, clients: map<string, Entry>, peers: map<string, Entry>,
    arbitrations: map<string, Arbitration>,
    available: set<string>, rules: map<string, Rule>, edges: nat, faulted: bool, sweep: Option<set<nat>>)

  const NO_FORWARDING := Forwarding(false, false, false)

  function NewRegistry(limits: Limits): Registry {
    Registry(limits, false, 0, 0, map[], map[], map[], map[], {}, map[], 0, false, None)
  }

  // ---------------------------------------------------------------------------
  // Counting and slots
  // ---------------------------------------------------------------------------

  ghost function OfRole(all: map<nat, Gen>, role: Role): map<nat, int> {
    map i | i in all :: if all[i].role == role then 1 else 0
  }

  ghost function Count(all: map<nat, Gen>, role: Role): int {
    Sum(OfRole(all, role))
  }

  const NO_ENTRY := Entry("", None, None, {})

  function EntryAt(entries: map<string, Entry>, key: string): Entry {
    if key in entries then entries[key] else NO_ENTRY
  }

  predicate Empty(e: Entry) {
    e.prepared.None? && e.current.None? && e.retiring == {}
  }

  /** unlinkActiveLocked and the deletion from the retiring map. */
  function Vacate(e: Entry, i: nat): Entry {
    e.(prepared := if e.prepared == Some(i) then None else e.prepared,
       current := if e.current == Some(i) then None else e.current,
       retiring := e.retiring - {i})
  }

  function Retired(e: Entry, i: nat): Entry {
    Vacate(e, i).(retiring := e.retiring + {i})
  }

  function Without(entries: map<string, Entry>, key: string, i: nat): map<string, Entry> {
    if key !in entries then entries
    else if Empty(Vacate(entries[key], i)) then entries - {key}
    else entries[key := Vacate(entries[key], i)]
  }

  function KeyOf(g: Gen): string {
    if g.role == Client then g.instance else g.peer
  }

  // ---------------------------------------------------------------------------
  // Availability of groups
  // ---------------------------------------------------------------------------

  predicate Ready(rules: map<string, Rule>, g: Gen) {
    && g.forwarding == Forwarding(true, true, true)
    && g.group in rules && g.version != 0 && (g.version >= rules[g.group].version || rules[g.group].applyLatest)
  }

  /** The loop of refreshGroupLocked over the client entries. */
  predicate Serves(r: Registry, key: string, group: string) {
    && key in r.clients && r.clients[key].group == group && r.clients[key].current.Some?
    && r.clients[key].current.value in r.all && Ready(r.rules, r.all[r.clients[key].current.value])
  }

  predicate AvailableNow(r: Registry, group: string) {
    !r.closed && exists key :: key in r.clients && Serves(r, key, group)
  }

  function Refresh(r: Registry, group: string): Registry {
    if (group in r.available) == AvailableNow(r, group) then r
    else r.(available := if AvailableNow(r, group) then r.available + {group} else r.available - {group},
            edges := r.edges + 1, faulted := r.faulted || r.closed)
  }

  // ---------------------------------------------------------------------------
  // Removal and the end of an arbitration
  // ---------------------------------------------------------------------------

  /** The rest of removeLocked once no arbitration waits for the generation. */
  function Detach(r: Registry, i: nat): Registry {
    if i !in r.all then r
    else
      var g := r.all[i];
      r.(all := r.all - {i},
         clients := if g.role == Client then Without(r.clients, g.instance, i) else r.clients,
         peers := if g.role == Peer then Without(r.peers, g.peer, i) else r.peers)
  }

  ghost function WaitingFor(r: Registry, i: nat): Option<string> {
    if exists peer :: peer in r.arbitrations && r.arbitrations[peer].inbound == i
    then var peer :| peer in r.arbitrations && r.arbitrations[peer].inbound == i; Some(peer)
    else None
  }

  ghost function Remove(r: Registry, i: nat): (q: Registry)
    ensures q.limits == r.limits
    decreases |r.arbitrations|, 1
  {
    if i !in r.all then r
    else
      var waiting := WaitingFor(r, i);
      if waiting.Some? then
        Detach(FinishArbitration(r, waiting.value), i)
      else Detach(r, i)
  }

  /** A released loser gives up its slot only here. */
  ghost function FinishArbitration(r: Registry, peer: string): (q: Registry)
    requires peer in r.arbitrations
    ensures q.limits == r.limits
    decreases |r.arbitrations|, 0
  {
    var arb := r.arbitrations[peer];
    var ended := r.(arbitrations := r.arbitrations - {peer});
    SizeRemove(r.arbitrations, peer);
    if arb.released then Remove(ended, arb.loser) else ended
  }

  // ---------------------------------------------------------------------------
  // Beginning and preparing
  // ---------------------------------------------------------------------------

  ghost function BeginInbound(r: Registry): Registry {
    if r.closed || Count(r.all, Unknown) >= r.limits.pending then r
    else r.(nextID := r.nextID + 1,
            all := r.all[r.nextID + 1 := Gen(Unknown, false, Pending, "", "", "", false, 0, NO_FORWARDING)])
  }

  ghost function BeginOutboundPeer(r: Registry, peer: string): Registry {
    var e := EntryAt(r.peers, peer);
    if r.closed || peer in r.arbitrations || e.current.Some? || e.prepared.Some? ||
       Count(r.all, Peer) >= r.limits.peers then r
    else
      r.(nextID := r.nextID + 1,
         all := r.all[r.nextID + 1 := Gen(Peer, true, Prepared, "", "", peer, true, 0, NO_FORWARDING)],
         peers := r.peers[peer := e.(prepared := Some(r.nextID + 1))])
  }

  /** One Prepare call per pending token. */
  predicate MayPrepare(r: Registry, i: nat) {
    !r.closed && i in r.all && r.all[i].role == Unknown && r.all[i].phase == Pending && !r.all[i].tried
  }

  function Tried(r: Registry, i: nat): Registry
    requires i in r.all
  {
    r.(all := r.all[i := r.all[i].(tried := true)])
  }

  ghost function PrepareClient(r: Registry, i: nat, instance: string, group: string): Registry {
    if !MayPrepare(r, i) || group == "" then r
    else
      var e := if instance in r.clients then r.clients[instance] else NO_ENTRY.(group := group);
      if e.group != group || e.current.Some? || e.prepared.Some? || Count(r.all, Client) >= r.limits.clients
      then Tried(r, i)
      else
        var g := r.all[i].(role := Client, phase := Prepared, instance := instance, group := group, tried := true);
        r.(all := r.all[i := g], clients := r.clients[instance := e.(prepared := Some(i))])
  }

  function TransferToPeer(r: Registry, i: nat, peer: string): Registry
    requires i in r.all
  {
    r.(all := r.all[i := r.all[i].(role := Peer, phase := Prepared, peer := peer, tried := true)],
       peers := r.peers[peer := EntryAt(r.peers, peer).(prepared := Some(i))])
  }

  predicate PeerIdle(r: Registry, peer: string) {
    peer !in r.arbitrations && EntryAt(r.peers, peer).current.None?
  }

  /** Both sides dialled: the outbound generation holds the slot, but the inbound one is preferred. */
  predicate MustArbitrate(r: Registry, peer: string, preferred: bool) {
    var prepared := EntryAt(r.peers, peer).prepared;
    PeerIdle(r, peer) && prepared.Some? && preferred && prepared.value in r.all && r.all[prepared.value].outbound
  }

  function StartArbitration(r: Registry, i: nat, peer: string): Registry
    requires i in r.all && EntryAt(r.peers, peer).prepared.Some?
  {
    var loser := EntryAt(r.peers, peer).prepared.value;
    Tried(r, i).(nextArb := r.nextArb + 1,
                 arbitrations := r.arbitrations[peer := Arbitration(r.nextArb + 1, i, loser, false)])
  }

  ghost function PreparePeer(r: Registry, i: nat, peer: string, preferred: bool): Registry {
    if !MayPrepare(r, i) then r
    else if MustArbitrate(r, peer, preferred) then StartArbitration(r, i, peer)
    else if PeerIdle(r, peer) && EntryAt(r.peers, peer).prepared.None? && Count(r.all, Peer) < r.limits.peers
    then TransferToPeer(r, i, peer)
    else Tried(r, i)
  }

  // ---------------------------------------------------------------------------
  // Arbitration
  // ---------------------------------------------------------------------------

  predicate IsArbitration(r: Registry, peer: string, id: nat) {
    peer in r.arbitrations && r.arbitrations[peer].id == id
  }

  predicate Exact(r: Registry, i: nat, role: Role, phase: Phase) {
    i in r.all && r.all[i].role == role && r.all[i].phase == phase
  }

  datatype Verdict = Transferred(generation: nat) | Stopped | Stale | Occupied | Full

  ghost function CompleteArbitration(r: Registry, peer: string, id: nat): (q: (Registry, Verdict))
    ensures q.0.limits == r.limits
  {
    if !IsArbitration(r, peer, id) then (r, Stale)
    else
      var arb := r.arbitrations[peer];
      var e := EntryAt(r.peers, peer);
      var finished := FinishArbitration(r, peer);
      if r.closed then (finished, Stopped)
      else if !Exact(r, arb.inbound, Unknown, Pending) || !arb.released || !Exact(r, arb.loser, Peer, Retiring)
      then (finished, Stale)
      else if e.prepared.Some? || e.current.Some? then (finished, Occupied)
      else if Count(r.all, Peer) > r.limits.peers then (finished, Full)
      else if arb.inbound !in finished.all then (finished, Stale)
      else (TransferToPeer(finished, arb.inbound, peer), Transferred(arb.inbound))
  }

  ghost function CancelArbitration(r: Registry, peer: string, id: nat, abort: bool): Registry {
    if !IsArbitration(r, peer, id) then r
    else
      var finished := FinishArbitration(r, peer);
      if abort then Remove(finished, r.arbitrations[peer].inbound) else finished
  }

  // ---------------------------------------------------------------------------
  // Commit
  // ---------------------------------------------------------------------------

  predicate HasPrepared(entries: map<string, Entry>, key: string, i: nat) {
    key in entries && entries[key].prepared == Some(i) && entries[key].current.None?
  }

  function Promote(e: Entry, i: nat): Entry {
    e.(prepared := None, current := Some(i))
  }

  function PromotePeer(r: Registry, i: nat): Registry
    requires i in r.all && r.all[i].peer in r.peers
  {
    r.(all := r.all[i := r.all[i].(phase := Current)],
       peers := r.peers[r.all[i].peer := Promote(r.peers[r.all[i].peer], i)])
  }

  /** CommitReceiver is called for inbound peers; it commits even while stopping. */
  function CommitReceiver(r: Registry, i: nat): Registry {
    if !Exact(r, i, Peer, Prepared) || r.all[i].outbound || !HasPrepared(r.peers, r.all[i].peer, i) then r
    else PromotePeer(r, i)
  }

  function CommitOutboundPeer(r: Registry, i: nat): Registry {
    if r.closed || !Exact(r, i, Peer, Prepared) then r
    else if r.all[i].peer in r.arbitrations && r.arbitrations[r.all[i].peer].loser == i then r
    else if !HasPrepared(r.peers, r.all[i].peer, i) then r
    else PromotePeer(r, i)
  }

  /** commitClientGroup: the client becomes current with the version it declared, and a newer
      version becomes the rule of its group. */
  function CommitClient(r: Registry, i: nat, version: nat, applyLatest: bool): Registry {
    if !Exact(r, i, Client, Prepared) || !HasPrepared(r.clients, r.all[i].instance, i) then r
    else
      var g := r.all[i];
      var publish := g.group !in r.rules || version > r.rules[g.group].version;
      var now := g.(phase := Current, version := version, forwarding := Forwarding(true, true, false));
      Refresh(r.(all := r.all[i := now],
                 clients := r.clients[g.instance := Promote(r.clients[g.instance], i)],
                 rules := if publish then r.rules[g.group := Rule(version, applyLatest)] else r.rules), g.group)
  }

  // ---------------------------------------------------------------------------
  // Retirement and release
  // ---------------------------------------------------------------------------

  /** Out of its active slot and into the retiring set of the same entry. */
  function Retire(r: Registry, i: nat): Registry
    requires i in r.all
  {
    var g := r.all[i];
    r.(all := r.all[i := g.(phase := Retiring)],
       clients := if g.role == Client &&
           g.instance in r.clients then r.clients[g.instance := Retired(r.clients[g.instance], i)] else r.clients,
       peers := if g.role == Peer && g.peer in r.peers then r.peers[g.peer := Retired(r.peers[g.peer], i)] else r.peers)
  }

  function BeginRetire(r: Registry, i: nat): Registry {
    if i !in r.all || !(r.all[i].phase == Prepared || r.all[i].phase == Current) then r
    else if r.all[i].role == Client then Refresh(Retire(r, i), r.all[i].group)
    else Retire(r, i)
  }

  predicate IsLoser(r: Registry, i: nat) {
    i in r.all && r.all[i].peer in r.arbitrations && r.arbitrations[r.all[i].peer].loser == i
  }

  /** A loser that is released keeps its counted slot until the arbitration ends. */
  ghost function Release(r: Registry, i: nat): Registry {
    if i !in r.all then r
    else if IsLoser(r, i) then
      var peer := r.all[i].peer;
      if r.arbitrations[peer].released then r
      else
        var retired := if r.all[i].phase == Retiring then r else Retire(r, i);
        retired.(arbitrations := r.arbitrations[peer := r.arbitrations[peer].(released := true)])
    else
      var group := if r.all[i].role == Client then r.all[i].group else "";
      if group != "" then Refresh(Remove(r, i), group) else Remove(r, i)
  }

  // ---------------------------------------------------------------------------
  // Forwarding and shutdown
  // ---------------------------------------------------------------------------

  predicate IsCurrent(r: Registry, i: nat) {
    && !r.closed && i in r.all && r.all[i].phase == Current && r.all[i].role != Unknown
    && EntryAt(if r.all[i].role == Client then r.clients else r.peers, KeyOf(r.all[i])).current == Some(i)
  }

  function PublishForwarding(r: Registry, i: nat, forwarding: Forwarding): Registry {
    if !IsCurrent(r, i) || r.all[i].forwarding == forwarding then r
    else
      var next := r.(all := r.all[i := r.all[i].(forwarding := forwarding)]);
      if r.all[i].role == Client then Refresh(next, r.all[i].group) else next
  }

  function BeginStop(r: Registry): Registry {
    if r.closed then r
    else r.(closed := true, available := {}, arbitrations := map[], sweep := Some(r.all.Keys))
  }

  ghost function RemoveAll(r: Registry, ids: set<nat>): (q: Registry)
    ensures q.limits == r.limits
    decreases ids
  {
    if ids == {} then r
    else var i :| i in ids; RemoveAll(Remove(r, i), ids - {i})
  }

  ghost function EndStop(r: Registry): Registry {
    if r.sweep.None? then r else RemoveAll(r, r.sweep.value)
  }

  datatype Action =
    | DoBeginInbound
    | DoBeginOutboundPeer(peer: string)
    | DoPrepareClient(gen: nat, instance: string, group: string)
    | DoPreparePeer(gen: nat, peer: string, preferred: bool)
    | DoComplete(peer: string, id: nat)
    | DoCancel(peer: string, id: nat, abort: bool)
    | DoCommitReceiver(gen: nat)
    | DoCommitOutboundPeer(gen: nat)
    | DoCommitClient(gen: nat, version: nat, applyLatest: bool)
    | DoBeginRetire(gen: nat)
    | DoRelease(gen: nat)
    | DoPublish(gen: nat, forwarding: Forwarding)
    | DoBeginStop
    | DoEndStop

  ghost function Do(r: Registry, a: Action): Registry {
    match a
    case DoBeginInbound => BeginInbound(r)
    case DoBeginOutboundPeer(peer) => BeginOutboundPeer(r, peer)
    case DoPrepareClient(i, instance, group) => PrepareClient(r, i, instance, group)
    case DoPreparePeer(i, peer, preferred) => PreparePeer(r, i, peer, preferred)
    case DoComplete(peer, id) => CompleteArbitration(r, peer, id).0
    case DoCancel(peer, id, abort) => CancelArbitration(r, peer, id, abort)
    case DoCommitReceiver(i) => CommitReceiver(r, i)
    case DoCommitOutboundPeer(i) => CommitOutboundPeer(r, i)
    case DoCommitClient(i, version, applyLatest) => CommitClient(r, i, version, applyLatest)
    case DoBeginRetire(i) => BeginRetire(r, i)
    case DoRelease(i) => Release(r, i)
    case DoPublish(i, forwarding) => PublishForwarding(r, i, forwarding)
    case DoBeginStop => BeginStop(r)
    case DoEndStop => EndStop(r)
  }

  ghost function Run(limits: Limits, actions: seq<Action>): Registry {
    if actions == [] then NewRegistry(limits) else Do(Run(limits, actions[..|actions| - 1]), actions[|actions| - 1])
  }
}

/** The registry over whole runs: slots, hand-over, the cached availability, shutdown. */
module RegistryRun {
  import opened Basics
  import opened MapSum
  import opened RegistryState
  import opened RegistryProof
  import opened RegistrySteps

  // ---------------------------------------------------------------------------
  // The cached availability
  // ---------------------------------------------------------------------------

  /** The cache is what recomputation from the current generations and rules gives, and the
      change channel has not been closed twice. */
  ghost predicate CacheOk(r: Registry) {
    && (forall group: string :: group in r.available <==> AvailableNow(r, group))
    && !r.faulted
  }

  ghost predicate RegistryOk(r: Registry) {
    CoreOk(r) && CacheOk(r)
  }

  /** Outside one group, the same generations serve. */
  ghost predicate SameElsewhere(r: Registry, q: Registry, group: string) {
    forall key, g: string :: g != group ==> (Serves(r, key, g) <==> Serves(q, key, g))
  }

  lemma ElsewhereAvailable(r: Registry, q: Registry, group: string, g: string)
    requires SameElsewhere(r, q, group) && q.closed == r.closed && g != group
    ensures AvailableNow(q, g) <==> AvailableNow(r, g)
  {
    hide Serves;
    if AvailableNow(q, g) {
      var key :| key in q.clients && Serves(q, key, g);
      ServesHasKey(r, key, g);
    }
    if AvailableNow(r, g) {
      var key :| key in r.clients && Serves(r, key, g);
      ServesHasKey(q, key, g);
    }
  }

  lemma ServesHasKey(r: Registry, key: string, g: string)
    ensures Serves(r, key, g) ==> key in r.clients
  {
  }

  lemma RefreshSame(r: Registry, group: string, g: string)
    ensures AvailableNow(Refresh(r, group), g) == AvailableNow(r, g)
  {
    var q := Refresh(r, group);
    assert forall key :: Serves(q, key, g) == Serves(r, key, g);
  }

  /** Refreshing the one group that may have changed makes the cache exact again. */
  lemma RefreshCache(r: Registry, q: Registry, group: string)
    requires CacheOk(r) && q.closed == r.closed && q.available == r.available && q.faulted == r.faulted
    requires SameElsewhere(r, q, group)
    ensures CacheOk(Refresh(q, group))
  {
    hide AvailableNow;
    hide SameElsewhere;
    forall g: string
      ensures g in Refresh(q, group).available <==> AvailableNow(Refresh(q, group), g)
    {
      RefreshSame(q, group, g);
      assert g in r.available <==> AvailableNow(r, g);
      if g != group {
        ElsewhereAvailable(r, q, group, g);
      }
    }
    ClosedMeansNone(q, group);
    assert group in r.available <==> AvailableNow(r, group);
    ClosedMeansNone(r, group);
  }

  lemma ClosedMeansNone(r: Registry, group: string)
    ensures r.closed ==> !AvailableNow(r, group)
  {
  }

  lemma SameCache(r: Registry, q: Registry)
    requires CacheOk(r) && q.closed == r.closed && q.available == r.available && q.faulted == r.faulted
    requires forall key, g: string :: Serves(r, key, g) <==> Serves(q, key, g)
    ensures CacheOk(q)
  {
    hide AvailableNow;
    hide Serves;
    forall g: string
      ensures g in q.available <==> AvailableNow(q, g)
    {
      assert g in r.available <==> AvailableNow(r, g);
      assert SameElsewhere(r, q, g + "x") by { hide AvailableNow; }
      ElsewhereAvailable(r, q, g + "x", g);
    }
  }

  /** Steps that keep every current client and its entry do not move the cache. */
  ghost predicate SameCurrents(r: Registry, q: Registry) {
    && q.closed == r.closed && q.available == r.available && q.faulted == r.faulted && q.rules == r.rules
    && (forall key: string :: EntryAt(q.clients, key).current == EntryAt(r.clients, key).current)
    && (forall key: string :: EntryAt(r.clients, key).current.Some? ==>
          EntryAt(q.clients, key).group == EntryAt(r.clients, key).group)
    && (forall i :: i in r.all && r.all[i].role == Client && r.all[i].phase == Current ==>
          i in q.all && q.all[i] == r.all[i])
  }

  lemma CurrentKnown(r: Registry, key: string)
    requires CoreOk(r) && EntryAt(r.clients, key).current.Some?
    ensures var i := EntryAt(r.clients, key).current.value;
            i in r.all && r.all[i].role == Client && r.all[i].phase == Current && r.all[i].instance == key
            && r.all[i].group == EntryAt(r.clients, key).group
  {
    hide CountsOk;
    hide ArbitrationsOk;
    assert EntryOk(r.all, Client, key, r.clients[key]);
  }

  lemma CurrentsServe(r: Registry, q: Registry, key: string, g: string)
    requires CoreOk(r) && SameCurrents(r, q)
    ensures Serves(r, key, g) <==> Serves(q, key, g)
  {
    hide CoreOk;
    assert EntryAt(q.clients, key).current == EntryAt(r.clients, key).current;
    if EntryAt(r.clients, key).current.Some? {
      CurrentKnown(r, key);
    }
  }

  lemma CurrentsCache(r: Registry, q: Registry)
    requires RegistryOk(r) && SameCurrents(r, q)
    ensures CacheOk(q)
  {
    hide CoreOk;
    hide CacheOk;
    forall key, g: string
      ensures Serves(r, key, g) <==> Serves(q, key, g)
    {
      CurrentsServe(r, q, key, g);
    }
    hide Serves;
    SameCache(r, q);
  }

  /** A client's entry carries its group. */
  lemma EntryGroup(r: Registry, i: nat)
    requires CoreOk(r) && i in r.all && r.all[i].role == Client
    ensures r.all[i].instance in r.clients && r.clients[r.all[i].instance].group == r.all[i].group
    ensures Sits(r.clients[r.all[i].instance], i, r.all[i].phase)
  {
    hide CountsOk;
    hide ArbitrationsOk;
    assert Placed(r.clients, i, r.all[i]);
    assert EntryOk(r.all, Client, r.all[i].instance, r.clients[r.all[i].instance]);
  }

  /** q differs from r in one client, its entry and the rule of its group. */
  ghost predicate ClientStep(r: Registry, q: Registry, i: nat)
    requires i in r.all
  {
    var g := r.all[i];
    && (forall key: string :: key != g.instance ==> EntryAt(q.clients, key) == EntryAt(r.clients, key))
    && (EntryAt(q.clients, g.instance).current.Some? ==> EntryAt(q.clients, g.instance).group == g.group)
    && (forall j :: j != i && j in r.all ==> j in q.all && q.all[j] == r.all[j])
    && (forall group :: group != g.group && group in r.rules ==> group in q.rules && q.rules[group] == r.rules[group])
    && (forall group :: group != g.group && group in q.rules ==> group in r.rules)
    && q.closed == r.closed && q.available == r.available && q.faulted == r.faulted
  }

  lemma ClientStepServes(r: Registry, q: Registry, i: nat, key: string, g: string)
    requires CoreOk(r) && i in r.all && r.all[i].role == Client && ClientStep(r, q, i) && g != r.all[i].group
    ensures Serves(r, key, g) <==> Serves(q, key, g)
  {
    EntryGroup(r, i);
    if key != r.all[i].instance && EntryAt(r.clients, key).current.Some? {
      CurrentKnown(r, key);
    }
    hide CoreOk;
    assert key != r.all[i].instance ==> EntryAt(q.clients, key) == EntryAt(r.clients, key);
  }

  lemma ClientStepElsewhere(r: Registry, q: Registry, i: nat)
    requires CoreOk(r) && i in r.all && r.all[i].role == Client && ClientStep(r, q, i)
    ensures SameElsewhere(r, q, r.all[i].group)
  {
    hide CoreOk;
    forall key, g: string | g != r.all[i].group
      ensures Serves(r, key, g) <==> Serves(q, key, g)
    {
      ClientStepServes(r, q, i, key, g);
    }
  }

  lemma RefreshCore(r: Registry, group: string)
    requires CoreOk(r)
    ensures CoreOk(Refresh(r, group))
  {
    hide AvailableNow;
    hide RoleOk;
    hide GensOk;
    hide CountsOk;
    hide ArbitrationsOk;
  }

  lemma ClientStepOk(r: Registry, q: Registry, i: nat)
    requires RegistryOk(r) && i in r.all && r.all[i].role == Client && ClientStep(r, q, i) && CoreOk(q)
    ensures RegistryOk(Refresh(q, r.all[i].group))
  {
    hide CoreOk;
    hide CacheOk;
    ClientStepElsewhere(r, q, i);
    RefreshCore(q, r.all[i].group);
    hide ClientStep;
    assert q.closed == r.closed && q.available == r.available && q.faulted == r.faulted by { ClientStepSame(r, q, i); }
    RefreshCache(r, q, r.all[i].group);
  }

  lemma ClientStepSame(r: Registry, q: Registry, i: nat)
    requires i in r.all && ClientStep(r, q, i)
    ensures q.closed == r.closed && q.available == r.available && q.faulted == r.faulted
  {
  }

  // ---------------------------------------------------------------------------
  // The operations on clients
  // ---------------------------------------------------------------------------

  lemma CommitClientOk(r: Registry, i: nat, version: nat, applyLatest: bool)
    requires RegistryOk(r)
    ensures RegistryOk(CommitClient(r, i, version, applyLatest))
  {
    hide CoreOk;
    hide CacheOk;
    hide Refresh;
    if Exact(r, i, Client, Prepared) && HasPrepared(r.clients, r.all[i].instance, i) {
      CommittedOk(r, i, version, applyLatest);
      EntryGroup(r, i);
      ClientStepOk(r, Committed(r, i, version, applyLatest), i);
    }
  }

  lemma RetireClientStep(r: Registry, i: nat)
    requires CoreOk(r) && i in r.all && r.all[i].role == Client
    ensures ClientStep(r, Retire(r, i), i)
  {
    hide CoreOk;
    EntryGroup(r, i);
  }

  lemma RetirePeerCurrents(r: Registry, i: nat)
    requires i in r.all && r.all[i].role != Client
    ensures SameCurrents(r, Retire(r, i))
  {
  }

  lemma BeginRetireOk(r: Registry, i: nat)
    requires RegistryOk(r)
    ensures RegistryOk(BeginRetire(r, i))
  {
    hide CoreOk;
    hide CacheOk;
    hide Refresh;
    if i in r.all && (r.all[i].phase == Prepared || r.all[i].phase == Current) {
      hide Retire;
      RetireOk(r, i);
      if r.all[i].role == Client {
        RetireClientStep(r, i);
        ClientStepOk(r, Retire(r, i), i);
      } else {
        RetirePeerCurrents(r, i);
        CurrentsCache(r, Retire(r, i));
      }
    }
  }

  lemma PublishOk(r: Registry, i: nat, forwarding: Forwarding)
    requires RegistryOk(r)
    ensures RegistryOk(PublishForwarding(r, i, forwarding))
  {
    hide CoreOk;
    hide CacheOk;
    hide Refresh;
    if IsCurrent(r, i) {
      var next := r.(all := r.all[i := r.all[i].(forwarding := forwarding)]);
      ForwardingOk(r, i, forwarding);
      if r.all[i].role == Client {
        EntryGroup(r, i);
        ClientStepOk(r, next, i);
      } else {
        CurrentsCache(r, next);
      }
    }
  }

  lemma ForwardingRole(all: map<nat, Gen>, entries: map<string, Entry>, role: Role, i: nat, forwarding: Forwarding)
    requires RoleOk(all, entries, role) && i in all
    ensures RoleOk(all[i := all[i].(forwarding := forwarding)], entries, role)
  {
    var now := all[i := all[i].(forwarding := forwarding)];
    forall key | key in entries
      ensures EntryOk(now, role, key, entries[key])
    {
      assert EntryOk(all, role, key, entries[key]);
    }
    forall j | j in now && now[j].role == role
      ensures Placed(entries, j, now[j])
    {
      assert Placed(entries, j, all[j]);
    }
  }

  lemma ForwardingArbitrations(r: Registry, i: nat, forwarding: Forwarding)
    requires ArbitrationsOk(r.all, r.peers, r.arbitrations) && i in r.all
    ensures ArbitrationsOk(r.all[i := r.all[i].(forwarding := forwarding)], r.peers, r.arbitrations)
  {
    forall peer | peer in r.arbitrations
      ensures ArbitrationOk(r.all[i := r.all[i].(forwarding := forwarding)], r.peers, peer, r.arbitrations[peer])
    {
      assert ArbitrationOk(r.all, r.peers, peer, r.arbitrations[peer]);
    }
  }

  lemma ForwardingOk(r: Registry, i: nat, forwarding: Forwarding)
    requires CoreOk(r) && i in r.all
    ensures CoreOk(r.(all := r.all[i := r.all[i].(forwarding := forwarding)]))
  {
    hide RoleOk;
    hide GensOk;
    hide ArbitrationsOk;
    hide Count;
    var g := r.all[i].(forwarding := forwarding);
    ForwardingRole(r.all, r.clients, Client, i, forwarding);
    ForwardingRole(r.all, r.peers, Peer, i, forwarding);
    GenKnown(r, i);
    SetGen(r.nextID, r.all, i, g);
    SetCounts(r.all, i, g);
    ForwardingArbitrations(r, i, forwarding);
  }

  // ---------------------------------------------------------------------------
  // Removal
  // ---------------------------------------------------------------------------

  lemma DetachPeerCache(r: Registry, i: nat)
    requires RegistryOk(r) && (i in r.all ==> r.all[i].role != Client)
    ensures CacheOk(Detach(r, i))
  {
    hide CoreOk;
    hide CacheOk;
    hide Without;
    CurrentsCache(r, Detach(r, i));
  }

  lemma WithoutClient(clients: map<string, Entry>, key: string, i: nat)
    ensures forall k :: k != key ==> EntryAt(Without(clients, key, i), k) == EntryAt(clients, k)
    ensures key in Without(clients, key, i) ==>
            key in clients && Without(clients, key, i)[key].group == clients[key].group
  {
  }

  lemma DetachClientStep(r: Registry, i: nat)
    requires CoreOk(r) && i in r.all && r.all[i].role == Client
    ensures ClientStep(r, Detach(r, i), i)
  {
    EntryGroup(r, i);
    hide CoreOk;
    WithoutClient(r.clients, r.all[i].instance, i);
    hide Without;
  }

  lemma DropArbitrationCache(r: Registry, peer: string)
    requires RegistryOk(r) && peer in r.arbitrations
    ensures RegistryOk(r.(arbitrations := r.arbitrations - {peer}))
  {
    hide CoreOk;
    hide CacheOk;
    DropArbitration(r, peer);
    CurrentsCache(r, r.(arbitrations := r.arbitrations - {peer}));
  }

  lemma EndedCache(r: Registry, peer: string)
    requires RegistryOk(r) && peer in r.arbitrations
    ensures RegistryOk(Ended(r, peer)) && Unnamed(Ended(r, peer).arbitrations, r.arbitrations[peer].inbound)
  {
    hide CoreOk;
    hide CacheOk;
    hide Count;
    EndedOk(r, peer);
    DropArbitrationCache(r, peer);
    ArbitrationFacts(r, peer);
    DetachPeerCache(r.(arbitrations := r.arbitrations - {peer}), r.arbitrations[peer].loser);
  }

  /** Removing a pending or peer generation does not move the cache. */
  lemma RemoveOtherOk(r: Registry, i: nat)
    requires RegistryOk(r) && (forall peer :: peer in r.arbitrations ==> r.arbitrations[peer].loser != i)
    requires i in r.all ==> r.all[i].role != Client
    ensures RegistryOk(Remove(r, i))
  {
    RemoveOk(r, i);
    hide CoreOk;
    hide CacheOk;
    if i in r.all {
      var waiting := WaitingFor(r, i);
      if waiting.Some? {
        FinishNow(r, waiting.value);
        EndedCache(r, waiting.value);
        EndedKeepsRole(r, waiting.value, i);
        DetachPeerCache(Ended(r, waiting.value), i);
      } else {
        DetachPeerCache(r, i);
      }
    }
  }

  lemma EndedKeepsRole(r: Registry, peer: string, i: nat)
    requires peer in r.arbitrations
    ensures i in Ended(r, peer).all ==> i in r.all && Ended(r, peer).all[i] == r.all[i]
  {
    hide Without;
  }

  lemma RemoveClientIs(r: Registry, i: nat)
    requires CoreOk(r) && i in r.all && r.all[i].role == Client
    ensures Remove(r, i) == Detach(r, i)
  {
    hide SlotsOk;
    hide CountsOk;
    NotAwaited(r, i);
  }

  lemma ReleaseClientOk(r: Registry, i: nat)
    requires RegistryOk(r) && i in r.all && r.all[i].role == Client
    ensures RegistryOk(Refresh(Remove(r, i), r.all[i].group))
  {
    hide CoreOk;
    hide CacheOk;
    hide Refresh;
    hide Remove;
    hide Detach;
    ClientUnnamed(r, i);
    DetachOk(r, i);
    RemoveClientIs(r, i);
    DetachClientStep(r, i);
    ClientStepOk(r, Detach(r, i), i);
  }

  lemma LoserIs(r: Registry, i: nat)
    requires CoreOk(r) && IsLoser(r, i)
    ensures r.all[i].role == Peer && (r.all[i].phase == Prepared || r.all[i].phase == Retiring)
  {
    hide SlotsOk;
    hide CountsOk;
    assert ArbitrationOk(r.all, r.peers, r.all[i].peer, r.arbitrations[r.all[i].peer]);
  }

  lemma NotLoser(r: Registry, i: nat)
    requires CoreOk(r) && i in r.all && !IsLoser(r, i)
    ensures forall peer :: peer in r.arbitrations ==> r.arbitrations[peer].loser != i
  {
    hide SlotsOk;
    hide CountsOk;
    forall peer | peer in r.arbitrations
      ensures r.arbitrations[peer].loser != i
    {
      assert ArbitrationOk(r.all, r.peers, peer, r.arbitrations[peer]);
    }
  }

  lemma ReleaseLoserOk(r: Registry, i: nat)
    requires RegistryOk(r) && IsLoser(r, i) && !r.arbitrations[r.all[i].peer].released
    ensures RegistryOk(Release(r, i))
  {
    hide CoreOk;
    hide CacheOk;
    LoserIs(r, i);
    var retired := if r.all[i].phase == Retiring then r else Retire(r, i);
    if r.all[i].phase != Retiring {
      RetireOk(r, i);
    }
    MarkReleasedOk(retired, r.all[i].peer);
    CurrentsCache(r, Release(r, i));
  }

  lemma ReleaseOk(r: Registry, i: nat)
    requires RegistryOk(r)
    ensures RegistryOk(Release(r, i))
  {
    hide CacheOk;
    hide Refresh;
    hide Remove;
    if i in r.all {
      GenKnown(r, i);
      hide CoreOk;
      if IsLoser(r, i) {
        if !r.arbitrations[r.all[i].peer].released {
          ReleaseLoserOk(r, i);
        }
      } else if r.all[i].role == Client {
        ReleaseClientOk(r, i);
      } else {
        NotLoser(r, i);
        RemoveOtherOk(r, i);
      }
    }
  }

  // ---------------------------------------------------------------------------
  // The operations on pending generations and peers
  // ---------------------------------------------------------------------------

  lemma FreshID(r: Registry)
    requires CoreOk(r)
    ensures r.nextID + 1 !in r.all
  {
    NextIsFree(r);
  }

  lemma BeginningInboundOk(r: Registry)
    requires RegistryOk(r)
    ensures RegistryOk(BeginInbound(r))
  {
    hide CoreOk;
    hide CacheOk;
    hide Count;
    BeginInboundOk(r);
    FreshID(r);
    CurrentsCache(r, BeginInbound(r));
  }

  lemma BeginningOutboundOk(r: Registry, peer: string)
    requires RegistryOk(r)
    ensures RegistryOk(BeginOutboundPeer(r, peer))
  {
    hide CoreOk;
    hide CacheOk;
    hide Count;
    BeginOutboundPeerOk(r, peer);
    FreshID(r);
    CurrentsCache(r, BeginOutboundPeer(r, peer));
  }

  lemma PreparingClientOk(r: Registry, i: nat, instance: string, group: string)
    requires RegistryOk(r)
    ensures RegistryOk(PrepareClient(r, i, instance, group))
  {
    hide CoreOk;
    hide CacheOk;
    hide Count;
    PrepareClientOk(r, i, instance, group);
    CurrentsCache(r, PrepareClient(r, i, instance, group));
  }

  lemma PreparingPeerOk(r: Registry, i: nat, peer: string, preferred: bool)
    requires RegistryOk(r)
    ensures RegistryOk(PreparePeer(r, i, peer, preferred))
  {
    hide CoreOk;
    hide CacheOk;
    hide Count;
    PreparePeerOk(r, i, peer, preferred);
    PreparePeerCurrents(r, i, peer, preferred);
    hide PreparePeer;
    CurrentsCache(r, PreparePeer(r, i, peer, preferred));
  }

  lemma TriedCurrents(r: Registry, i: nat, peer: string)
    requires MayPrepare(r, i)
    ensures SameCurrents(r, Tried(r, i)) && SameCurrents(r, TransferToPeer(r, i, peer))
    ensures EntryAt(r.peers, peer).prepared.Some? ==> SameCurrents(r, StartArbitration(r, i, peer))
  {
  }

  lemma PreparePeerCurrents(r: Registry, i: nat, peer: string, preferred: bool)
    ensures SameCurrents(r, PreparePeer(r, i, peer, preferred))
  {
    if MayPrepare(r, i) {
      TriedCurrents(r, i, peer);
      hide SameCurrents;
      hide StartArbitration;
      hide TransferToPeer;
      hide Tried;
    }
    hide Count;
  }

  lemma CompletingOk(r: Registry, peer: string, id: nat)
    requires RegistryOk(r)
    ensures RegistryOk(CompleteArbitration(r, peer, id).0)
  {
    hide CoreOk;
    hide CacheOk;
    hide Count;
    hide Ended;
    CompleteOk(r, peer, id);
    if IsArbitration(r, peer, id) {
      EndedCache(r, peer);
      var arb := r.arbitrations[peer];
      if arb.released {
        CompleteTransfers(r, peer, id);
        ArbitrationFacts(r, peer);
        ReleasedLeavesSlot(r, peer);
        EndedFrees(r, peer);
        CurrentsCache(Ended(r, peer), TransferToPeer(Ended(r, peer), arb.inbound, peer));
      } else {
        CompleteTooEarly(r, peer, id);
      }
      hide CompleteArbitration;
    }
  }

  lemma CancellingOk(r: Registry, peer: string, id: nat, abort: bool)
    requires RegistryOk(r)
    ensures RegistryOk(CancelArbitration(r, peer, id, abort))
  {
    hide CoreOk;
    hide CacheOk;
    hide Remove;
    hide Ended;
    hide Count;
    if IsArbitration(r, peer, id) {
      var inbound := r.arbitrations[peer].inbound;
      FinishNow(r, peer);
      EndedCache(r, peer);
      ArbitrationFacts(r, peer);
      EndedKeepsRole(r, peer, inbound);
      InboundNotLoser(Ended(r, peer), inbound);
      RemoveOtherOk(Ended(r, peer), inbound);
    }
  }

  lemma CommittingPeerOk(r: Registry, i: nat)
    requires RegistryOk(r)
    ensures RegistryOk(CommitReceiver(r, i)) && RegistryOk(CommitOutboundPeer(r, i))
  {
    hide CoreOk;
    hide CacheOk;
    CommitPeerOk(r, i);
    CurrentsCache(r, CommitReceiver(r, i));
    CurrentsCache(r, CommitOutboundPeer(r, i));
  }

  // ---------------------------------------------------------------------------
  // Shutdown
  // ---------------------------------------------------------------------------

  lemma BeginStopOk(r: Registry)
    requires RegistryOk(r)
    ensures RegistryOk(BeginStop(r))
  {
    hide RoleOk;
    hide GensOk;
    hide CountsOk;
  }

  lemma {:induction false} RemoveAllOk(r: Registry, ids: set<nat>)
    requires RegistryOk(r) && r.closed
    ensures RegistryOk(RemoveAll(r, ids)) && RemoveAll(r, ids).closed
    ensures forall i :: i in RemoveAll(r, ids).all <==> i in r.all && i !in ids
    decreases ids
  {
    hide CoreOk;
    hide CacheOk;
    if ids != {} {
      var i :| i in ids && RemoveAll(r, ids) == RemoveAll(Remove(r, i), ids - {i});
      RemoveWhileStopped(r, i);
      RemoveAllOk(Remove(r, i), ids - {i});
    }
  }

  lemma NoArbitrations(r: Registry)
    requires CoreOk(r) && r.closed
    ensures r.arbitrations == map[]
  {
  }

  lemma RemoveWhileStopped(r: Registry, i: nat)
    requires RegistryOk(r) && r.closed
    ensures RegistryOk(Remove(r, i)) && Remove(r, i).closed
    ensures forall j :: j in Remove(r, i).all <==> j in r.all && j != i
  {
    NoArbitrations(r);
    RemoveOk(r, i);
    hide CoreOk;
    hide Without;
    assert Remove(r, i) == Detach(r, i);
    StoppedCache(r, Detach(r, i));
  }

  lemma StoppedCache(r: Registry, q: Registry)
    requires CacheOk(r) && r.closed && q.closed && q.available == r.available && q.faulted == r.faulted
    ensures CacheOk(q)
  {
    forall g: string
      ensures g in q.available <==> AvailableNow(q, g)
    {
      assert g in r.available <==> AvailableNow(r, g);
    }
  }

  lemma NobodyLeft(all: map<nat, Gen>, entries: map<string, Entry>, role: Role)
    requires RoleOk(all, entries, role) && all == map[]
    ensures entries == map[]
  {
    forall key: string
      ensures key !in entries
    {
      if key in entries {
        EntryInhabited(all, role, key, entries[key]);
      }
    }
  }

  lemma EntryInhabited(all: map<nat, Gen>, role: Role, key: string, e: Entry)
    requires EntryOk(all, role, key, e)
    ensures all != map[]
  {
    if e.retiring != {} {
      var i :| i in e.retiring;
      assert Is(all, i, role, key, e.group, Retiring);
    }
  }

  /** After the final sweep nothing is left, whatever ran between the two phases of Stop. */
  lemma SweptClean(r: Registry)
    requires RegistryOk(r) && r.closed
    ensures var q := EndStop(r);
            q.all == map[] && q.clients == map[] && q.peers == map[] && q.arbitrations == map[] && q.available == {} &&
                !q.faulted
  {
    SweepCovers(r);
    RemoveAllOk(r, r.sweep.value);
    var q := EndStop(r);
    hide RemoveAll;
    assert q.all == map[];
    NobodyLeft(q.all, q.clients, Client);
    NobodyLeft(q.all, q.peers, Peer);
    NoArbitrations(q);
    hide RoleOk;
    forall g: string
      ensures g !in q.available
    {
      assert g in q.available <==> AvailableNow(q, g);
    }
  }

  lemma SweepCovers(r: Registry)
    requires RegistryOk(r) && r.closed
    ensures r.sweep.Some? && r.all.Keys <= r.sweep.value
  {
  }

  lemma EndStopOk(r: Registry)
    requires RegistryOk(r)
    ensures RegistryOk(EndStop(r))
  {
    hide CacheOk;
    hide RemoveAll;
    if r.sweep.Some? {
      assert r.closed;
      RemoveAllOk(r, r.sweep.value);
    }
  }

  // ---------------------------------------------------------------------------
  // Whole runs
  // ---------------------------------------------------------------------------

  lemma NewOk(limits: Limits)
    ensures RegistryOk(NewRegistry(limits))
  {
    SumZero(OfRole(map[], Unknown));
    SumZero(OfRole(map[], Client));
    SumZero(OfRole(map[], Peer));
  }

  lemma DoOk(r: Registry, a: Action)
    requires RegistryOk(r)
    ensures RegistryOk(Do(r, a))
  {
    hide RegistryOk;
    hide BeginInbound;
    hide BeginOutboundPeer;
    hide PrepareClient;
    hide PreparePeer;
    hide CompleteArbitration;
    hide CancelArbitration;
    hide CommitReceiver;
    hide CommitOutboundPeer;
    hide CommitClient;
    hide BeginRetire;
    hide Release;
    hide PublishForwarding;
    hide BeginStop;
    hide EndStop;
    match a {
      case DoBeginInbound => BeginningInboundOk(r);
      case DoBeginOutboundPeer(peer) => BeginningOutboundOk(r, peer);
      case DoPrepareClient(i, instance, group) => PreparingClientOk(r, i, instance, group);
      case DoPreparePeer(i, peer, preferred) => PreparingPeerOk(r, i, peer, preferred);
      case DoComplete(peer, id) => CompletingOk(r, peer, id);
      case DoCancel(peer, id, abort) => CancellingOk(r, peer, id, abort);
      case DoCommitReceiver(i) => CommittingPeerOk(r, i);
      case DoCommitOutboundPeer(i) => CommittingPeerOk(r, i);
      case DoCommitClient(i, version, applyLatest) => CommitClientOk(r, i, version, applyLatest);
      case DoBeginRetire(i) => BeginRetireOk(r, i);
      case DoRelease(i) => ReleaseOk(r, i);
      case DoPublish(i, forwarding) => PublishOk(r, i, forwarding);
      case DoBeginStop => BeginStopOk(r);
      case DoEndStop => EndStopOk(r);
    }
  }

  predicate IsAdmission(a: Action) {
    || a.DoBeginInbound? || a.DoBeginOutboundPeer? || a.DoPrepareClient? || a.DoPreparePeer? || a.DoCommitReceiver?
    || a.DoCommitOutboundPeer? || a.DoCommitClient?
  }

  lemma AdmissionKeepsLimits(r: Registry, a: Action)
    requires IsAdmission(a)
    ensures Do(r, a).limits == r.limits
  {
    hide Count;
  }

  lemma EndingKeepsLimits(r: Registry, a: Action)
    requires !IsAdmission(a)
    ensures Do(r, a).limits == r.limits
  {
    hide Remove;
    hide FinishArbitration;
    hide RemoveAll;
    hide CompleteArbitration;
  }

  lemma KeepsLimits(r: Registry, a: Action)
    ensures Do(r, a).limits == r.limits
  {
    hide Do;
    if IsAdmission(a) {
      AdmissionKeepsLimits(r, a);
    } else {
      EndingKeepsLimits(r, a);
    }
  }

  lemma {:induction false} RunOk(limits: Limits, actions: seq<Action>)
    ensures RegistryOk(Run(limits, actions)) && Run(limits, actions).limits == limits
  {
    hide Do;
    if actions == [] {
      NewOk(limits);
    } else {
      hide RegistryOk;
      RunOk(limits, actions[..|actions| - 1]);
      DoOk(Run(limits, actions[..|actions| - 1]), actions[|actions| - 1]);
      KeepsLimits(Run(limits, actions[..|actions| - 1]), actions[|actions| - 1]);
    }
  }
}

/** Every critical section of the registry keeps its slots, counts and arbitrations. */
module RegistrySteps {
  import opened Basics
  import opened MapSum
  import opened RegistryState
  import opened RegistryProof

  // ---------------------------------------------------------------------------
  // Steps that put one generation into all
  // ---------------------------------------------------------------------------

  /** Changing a generation no arbitration names leaves the arbitrations alone. */
  lemma UnnamedStep(all: map<nat, Gen>, peers: map<string, Entry>, arbs: map<string, Arbitration>, i: nat, g: Gen)
    requires ArbitrationsOk(all, peers, arbs) && Unnamed(arbs, i)
    ensures ArbitrationsOk(all[i := g], peers, arbs)
  {
    forall peer | peer in arbs
      ensures ArbitrationOk(all[i := g], peers, peer, arbs[peer])
    {
      assert ArbitrationOk(all, peers, peer, arbs[peer]);
    }
  }

  lemma OtherPeerEntry(all: map<nat, Gen>, peers: map<string, Entry>, arbs: map<string, Arbitration>, key: string,
      e: Entry)
    requires ArbitrationsOk(all, peers, arbs)
    requires key in arbs ==> e.current.None? && (e.prepared.None? || e.prepared == EntryAt(peers, key).prepared)
    ensures ArbitrationsOk(all, peers[key := e], arbs)
  {
    forall peer | peer in arbs
      ensures ArbitrationOk(all, peers[key := e], peer, arbs[peer])
    {
      assert ArbitrationOk(all, peers, peer, arbs[peer]);
    }
  }

  lemma AbsentUnnamed(r: Registry, i: nat)
    requires CoreOk(r) && i !in r.all
    ensures Unnamed(r.arbitrations, i)
  {
    hide SlotsOk;
    hide CountsOk;
    forall peer | peer in r.arbitrations
      ensures r.arbitrations[peer].inbound != i && r.arbitrations[peer].loser != i
    {
      assert ArbitrationOk(r.all, r.peers, peer, r.arbitrations[peer]);
    }
  }

  lemma UntriedUnnamed(r: Registry, i: nat)
    requires CoreOk(r) && i in r.all && r.all[i].role == Unknown && !r.all[i].tried
    ensures Unnamed(r.arbitrations, i)
  {
    hide SlotsOk;
    hide CountsOk;
    forall peer | peer in r.arbitrations
      ensures r.arbitrations[peer].inbound != i && r.arbitrations[peer].loser != i
    {
      assert ArbitrationOk(r.all, r.peers, peer, r.arbitrations[peer]);
    }
  }

  lemma ClientUnnamed(r: Registry, i: nat)
    requires CoreOk(r) && i in r.all && r.all[i].role == Client
    ensures Unnamed(r.arbitrations, i)
  {
    hide SlotsOk;
    hide CountsOk;
    forall peer | peer in r.arbitrations
      ensures r.arbitrations[peer].inbound != i && r.arbitrations[peer].loser != i
    {
      assert ArbitrationOk(r.all, r.peers, peer, r.arbitrations[peer]);
    }
  }

  lemma NextIsFree(r: Registry)
    requires SlotsOk(r)
    ensures r.nextID + 1 !in r.all
  {
    hide RoleOk;
  }

  lemma AddGen(nextID: nat, all: map<nat, Gen>, g: Gen)
    requires GensOk(nextID, all) && GenOk(nextID + 1, nextID + 1, g)
    ensures GensOk(nextID + 1, all[nextID + 1 := g])
  {
  }

  lemma SetGen(nextID: nat, all: map<nat, Gen>, i: nat, g: Gen)
    requires GensOk(nextID, all) && GenOk(nextID, i, g)
    ensures GensOk(nextID, all[i := g])
  {
  }

  lemma SetCounts(all: map<nat, Gen>, i: nat, g: Gen)
    ensures forall role :: Count(all[i := g], role) == Count(all, role) + (if g.role == role then 1 else 0)
              - (if i in all && all[i].role == role then 1 else 0)
  {
    hide Count;
    forall role: Role
      ensures Count(all[i := g], role) == Count(all, role) + (if g.role == role then 1 else 0)
                - (if i in all && all[i].role == role then 1 else 0)
    {
      SetCount(all, i, g, role);
    }
  }

  lemma BeginInboundOk(r: Registry)
    requires CoreOk(r)
    ensures CoreOk(BeginInbound(r))
  {
    hide RoleOk;
    hide GensOk;
    hide ArbitrationsOk;
    hide Count;
    if !(r.closed || Count(r.all, Unknown) >= r.limits.pending) {
      var g := Gen(Unknown, false, Pending, "", "", "", false, 0, NO_FORWARDING);
      NextIsFree(r);
      AbsentUnnamed(r, r.nextID + 1);
      AddGen(r.nextID, r.all, g);
      OtherRole(r.all, r.clients, Client, r.nextID + 1, g);
      OtherRole(r.all, r.peers, Peer, r.nextID + 1, g);
      SetCounts(r.all, r.nextID + 1, g);
      UnnamedStep(r.all, r.peers, r.arbitrations, r.nextID + 1, g);
    }
  }

  // ---------------------------------------------------------------------------
  // Taking a prepared slot
  // ---------------------------------------------------------------------------

  lemma SeatPrepared(all: map<nat, Gen>, entries: map<string, Entry>, role: Role, i: nat, g: Gen, e: Entry)
    requires RoleOk(all, entries, role) && role != Unknown && g.role == role && g.phase == Prepared
    requires i in all ==> all[i].role != role
    requires e == (if KeyOf(g) in entries then entries[KeyOf(g)] else e) && e.prepared.None?
    requires KeyOf(g) !in entries ==> e.current.None? && e.retiring == {}
    requires role == Client ==> g.group == e.group
    ensures RoleOk(all[i := g], entries[KeyOf(g) := e.(prepared := Some(i))], role)
  {
    SeatPreparedEntry(all, entries, role, i, g, e);
    hide EntryOk;
    hide RoleOk;
    Reseat(all, entries, role, i, g, e.(prepared := Some(i)));
  }

  lemma SeatPreparedEntry(all: map<nat, Gen>, entries: map<string, Entry>, role: Role, i: nat, g: Gen, e: Entry)
    requires RoleOk(all, entries, role) && g.role == role && g.phase == Prepared && (i in all ==> all[i].role != role)
    requires e == (if KeyOf(g) in entries then entries[KeyOf(g)] else e) && e.prepared.None?
    requires KeyOf(g) !in entries ==> e.current.None? && e.retiring == {}
    requires role == Client ==> g.group == e.group
    ensures EntryOk(all[i := g], role, KeyOf(g), e.(prepared := Some(i)))
  {
    if KeyOf(g) in entries {
      assert EntryOk(all, role, KeyOf(g), entries[KeyOf(g)]);
    }
  }

  lemma BeginOutboundPeerOk(r: Registry, peer: string)
    requires CoreOk(r)
    ensures CoreOk(BeginOutboundPeer(r, peer))
  {
    hide RoleOk;
    hide GensOk;
    hide ArbitrationsOk;
    hide Count;
    var e := EntryAt(r.peers, peer);
    if !(r.closed || peer in r.arbitrations || e.current.Some? || e.prepared.Some? ||
         Count(r.all, Peer) >= r.limits.peers) {
      var i := r.nextID + 1;
      var g := Gen(Peer, true, Prepared, "", "", peer, true, 0, NO_FORWARDING);
      NextIsFree(r);
      AbsentUnnamed(r, i);
      AddGen(r.nextID, r.all, g);
      OtherRole(r.all, r.clients, Client, i, g);
      SeatPrepared(r.all, r.peers, Peer, i, g, e);
      SetCounts(r.all, i, g);
      UnnamedStep(r.all, r.peers, r.arbitrations, i, g);
      OtherPeerEntry(r.all[i := g], r.peers, r.arbitrations, peer, e.(prepared := Some(i)));
    }
  }

  lemma TriedOk(r: Registry, i: nat)
    requires CoreOk(r) && MayPrepare(r, i)
    ensures CoreOk(Tried(r, i))
  {
    hide RoleOk;
    hide GensOk;
    hide ArbitrationsOk;
    hide Count;
    var g := r.all[i].(tried := true);
    GenKnown(r, i);
    UntriedUnnamed(r, i);
    SetGen(r.nextID, r.all, i, g);
    OtherRole(r.all, r.clients, Client, i, g);
    OtherRole(r.all, r.peers, Peer, i, g);
    SetCounts(r.all, i, g);
    UnnamedStep(r.all, r.peers, r.arbitrations, i, g);
  }

  lemma GenKnown(r: Registry, i: nat)
    requires CoreOk(r) && i in r.all
    ensures GenOk(r.nextID, i, r.all[i])
  {
    hide RoleOk;
    hide ArbitrationsOk;
    hide CountsOk;
  }

  lemma PrepareClientOk(r: Registry, i: nat, instance: string, group: string)
    requires CoreOk(r)
    ensures CoreOk(PrepareClient(r, i, instance, group))
  {
    hide RoleOk;
    hide GensOk;
    hide ArbitrationsOk;
    hide Count;
    if MayPrepare(r, i) && group != "" {
      var e := if instance in r.clients then r.clients[instance] else NO_ENTRY.(group := group);
      if e.group != group || e.current.Some? || e.prepared.Some? || Count(r.all, Client) >= r.limits.clients {
        TriedOk(r, i);
      } else {
        var g := r.all[i].(role := Client, phase := Prepared, instance := instance, group := group, tried := true);
        GenKnown(r, i);
        UntriedUnnamed(r, i);
        SetGen(r.nextID, r.all, i, g);
        SeatPrepared(r.all, r.clients, Client, i, g, e);
        OtherRole(r.all, r.peers, Peer, i, g);
        SetCounts(r.all, i, g);
        UnnamedStep(r.all, r.peers, r.arbitrations, i, g);
      }
    }
  }

  /** A pending token takes the prepared slot of a peer nobody is arbitrating about. */
  lemma TransferOk(r: Registry, i: nat, peer: string)
    requires CoreOk(r) && i in r.all && r.all[i].role == Unknown && Unnamed(r.arbitrations, i)
    requires peer !in r.arbitrations && EntryAt(r.peers, peer).prepared.None? && Count(r.all, Peer) < r.limits.peers
    ensures CoreOk(TransferToPeer(r, i, peer))
  {
    hide RoleOk;
    hide GensOk;
    hide ArbitrationsOk;
    hide Count;
    var e := EntryAt(r.peers, peer);
    var g := r.all[i].(role := Peer, phase := Prepared, peer := peer, tried := true);
    GenKnown(r, i);
    SetGen(r.nextID, r.all, i, g);
    OtherRole(r.all, r.clients, Client, i, g);
    SeatPrepared(r.all, r.peers, Peer, i, g, e);
    SetCounts(r.all, i, g);
    UnnamedStep(r.all, r.peers, r.arbitrations, i, g);
    OtherPeerEntry(r.all[i := g], r.peers, r.arbitrations, peer, e.(prepared := Some(i)));
  }

  /** What an entry's prepared generation is. */
  lemma PreparedIs(r: Registry, peer: string)
    requires CoreOk(r) && EntryAt(r.peers, peer).prepared.Some?
    ensures Is(r.all, EntryAt(r.peers, peer).prepared.value, Peer, peer, r.peers[peer].group, Prepared)
  {
    hide ArbitrationsOk;
    hide CountsOk;
    assert EntryOk(r.all, Peer, peer, r.peers[peer]);
  }

  lemma AddArbitration(all: map<nat, Gen>, peers: map<string, Entry>, arbs: map<string, Arbitration>, peer: string,
      arb: Arbitration)
    requires ArbitrationsOk(all, peers, arbs) && ArbitrationOk(all, peers, peer, arb) && Unnamed(arbs, arb.inbound)
    ensures ArbitrationsOk(all, peers, arbs[peer := arb])
  {
    hide ArbitrationOk;
  }

  lemma PreparePeerOk(r: Registry, i: nat, peer: string, preferred: bool)
    requires CoreOk(r)
    ensures CoreOk(PreparePeer(r, i, peer, preferred))
  {
    hide SlotsOk;
    hide ArbitrationsOk;
    hide CountsOk;
    hide Count;
    if MayPrepare(r, i) {
      TriedOk(r, i);
      UntriedUnnamed(r, i);
      if MustArbitrate(r, peer, preferred) {
        PreparedIs(r, peer);
        var t, arb := Tried(r, i), Arbitration(r.nextArb + 1, i, EntryAt(r.peers, peer).prepared.value, false);
        AddArbitration(t.all, t.peers, t.arbitrations, peer, arb);
        ArbitrationStep(t, r.nextArb + 1, t.arbitrations[peer := arb]);
      } else if PeerIdle(r, peer) && EntryAt(r.peers, peer).prepared.None? && Count(r.all, Peer) < r.limits.peers {
        TransferOk(r, i, peer);
      }
    }
  }

  lemma ArbitrationStep(r: Registry, nextArb: nat, arbs: map<string, Arbitration>)
    requires CoreOk(r) && !r.closed && ArbitrationsOk(r.all, r.peers, arbs)
    ensures CoreOk(r.(nextArb := nextArb, arbitrations := arbs))
  {
    hide RoleOk;
    hide GensOk;
    hide ArbitrationsOk;
    hide CountsOk;
  }

  // ---------------------------------------------------------------------------
  // The end of an arbitration
  // ---------------------------------------------------------------------------

  /** What CoreOk knows about one arbitration. */
  lemma ArbitrationFacts(r: Registry, peer: string)
    requires CoreOk(r) && peer in r.arbitrations
    ensures ArbitrationOk(r.all, r.peers, peer, r.arbitrations[peer]) && Count(r.all, Peer) <= r.limits.peers &&
            !r.closed
    ensures Exact(r, r.arbitrations[peer].inbound, Unknown, Pending)
  {
    hide RoleOk;
    hide Count;
    assert ArbitrationOk(r.all, r.peers, peer, r.arbitrations[peer]);
    assert GenOk(r.nextID, r.arbitrations[peer].inbound, r.all[r.arbitrations[peer].inbound]);
  }

  /** Once a released loser is gone its place is free for the inbound side. */
  lemma EndedFrees(r: Registry, peer: string)
    requires CoreOk(r) && peer in r.arbitrations && r.arbitrations[peer].released
    requires EntryAt(r.peers, peer).prepared.None?
    ensures var q, arb := Ended(r, peer), r.arbitrations[peer];
            && arb.inbound in q.all && q.all[arb.inbound] == r.all[arb.inbound] && arb.loser !in q.all
            && peer !in q.arbitrations && EntryAt(q.peers, peer).prepared.None?
            && Count(q.all, Peer) == Count(r.all, Peer) - 1 && q.limits == r.limits && q.closed == r.closed
  {
    hide Count;
    hide Without;
    ArbitrationFacts(r, peer);
    var left := r.(arbitrations := r.arbitrations - {peer});
    RemoveCount(left.all, r.arbitrations[peer].loser, Peer);
    WithoutOthers(left.peers, left.all[r.arbitrations[peer].loser].peer, r.arbitrations[peer].loser, peer);
    hide CoreOk;
  }

  /** A released loser is in the retiring set, so the peer's active slots are empty. */
  lemma ReleasedLeavesSlot(r: Registry, peer: string)
    requires CoreOk(r) && peer in r.arbitrations && r.arbitrations[peer].released
    ensures EntryAt(r.peers, peer).prepared.None? && EntryAt(r.peers, peer).current.None?
  {
    ArbitrationFacts(r, peer);
    hide CountsOk;
    hide ArbitrationsOk;
    if peer in r.peers {
      assert EntryOk(r.all, Peer, peer, r.peers[peer]);
    }
  }

  /** Hand-over: with the loser released, completing always succeeds, and the peer count after it
      is the count before it. */
  lemma CompleteTransfers(r: Registry, peer: string, id: nat)
    requires CoreOk(r) && IsArbitration(r, peer, id) && r.arbitrations[peer].released
    ensures var arb := r.arbitrations[peer];
            && CompleteArbitration(r, peer, id) ==
               (TransferToPeer(Ended(r, peer), arb.inbound, peer), Transferred(arb.inbound))
            && CoreOk(CompleteArbitration(r, peer, id).0)
            && Count(CompleteArbitration(r, peer, id).0.all, Peer) == Count(r.all, Peer)
            && arb.loser !in CompleteArbitration(r, peer, id).0.all
  {
    var arb := r.arbitrations[peer];
    hide Count;
    ReleasedLeavesSlot(r, peer);
    EndedFrees(r, peer);
    EndedOk(r, peer);
    ArbitrationFacts(r, peer);
    FinishNow(r, peer);
    hide CoreOk;
    hide Ended;
    TransferOk(Ended(r, peer), arb.inbound, peer);
    SetCounts(Ended(r, peer).all, arb.inbound, TransferToPeer(Ended(r, peer), arb.inbound, peer).all[arb.inbound]);
  }

  lemma FinishNow(r: Registry, peer: string)
    requires CoreOk(r) && peer in r.arbitrations
    ensures FinishArbitration(r, peer) == Ended(r, peer)
  {
    hide SlotsOk;
    hide CountsOk;
    hide ArbitrationsOk;
    FinishIs(r, peer);
  }

  /** Otherwise completing ends the arbitration and the loser keeps its slot. */
  lemma CompleteTooEarly(r: Registry, peer: string, id: nat)
    requires CoreOk(r) && IsArbitration(r, peer, id) && !r.arbitrations[peer].released
    ensures CompleteArbitration(r, peer, id) == (Ended(r, peer), Stale)
    ensures Ended(r, peer).all == r.all && CoreOk(Ended(r, peer))
  {
    ArbitrationFacts(r, peer);
    FinishNow(r, peer);
    EndedOk(r, peer);
    hide CoreOk;
    hide Count;
  }

  lemma CompleteOk(r: Registry, peer: string, id: nat)
    requires CoreOk(r)
    ensures CoreOk(CompleteArbitration(r, peer, id).0)
  {
    hide CoreOk;
    if IsArbitration(r, peer, id) {
      if r.arbitrations[peer].released {
        CompleteTransfers(r, peer, id);
      } else {
        CompleteTooEarly(r, peer, id);
      }
      hide CompleteArbitration;
    }
  }

  lemma InboundNotLoser(r: Registry, i: nat)
    requires Unnamed(r.arbitrations, i)
    ensures forall peer :: peer in r.arbitrations ==> r.arbitrations[peer].loser != i
  {
  }

  // ---------------------------------------------------------------------------
  // Commit
  // ---------------------------------------------------------------------------

  lemma SeatCurrent(all: map<nat, Gen>, entries: map<string, Entry>, role: Role, i: nat, g: Gen)
    requires RoleOk(all, entries, role) && i in all && all[i].role == role && g.role == role && g.phase == Current
    requires KeyOf(g) == KeyOf(all[i]) && g.group == all[i].group && HasPrepared(entries, KeyOf(g), i)
    ensures RoleOk(all[i := g], entries[KeyOf(g) := Promote(entries[KeyOf(g)], i)], role)
  {
    SeatCurrentEntry(all, entries, role, i, g);
    hide EntryOk;
    hide RoleOk;
    Reseat(all, entries, role, i, g, Promote(entries[KeyOf(g)], i));
  }

  lemma SeatCurrentEntry(all: map<nat, Gen>, entries: map<string, Entry>, role: Role, i: nat, g: Gen)
    requires RoleOk(all, entries, role) && i in all && all[i].role == role && g.role == role && g.phase == Current
    requires KeyOf(g) == KeyOf(all[i]) && g.group == all[i].group && HasPrepared(entries, KeyOf(g), i)
    ensures EntryOk(all[i := g], role, KeyOf(g), Promote(entries[KeyOf(g)], i))
  {
    assert EntryOk(all, role, KeyOf(g), entries[KeyOf(g)]);
  }

  /** Only a peer that no arbitration names as its loser is promoted. */
  lemma PromotePeerOk(r: Registry, i: nat)
    requires CoreOk(r) && Exact(r, i, Peer, Prepared) && HasPrepared(r.peers, r.all[i].peer, i) && !IsLoser(r, i)
    ensures CoreOk(PromotePeer(r, i))
  {
    hide RoleOk;
    hide GensOk;
    hide ArbitrationsOk;
    hide Count;
    var g, peer := r.all[i].(phase := Current), r.all[i].peer;
    GenKnown(r, i);
    PreparedUnnamed(r, i);
    SetGen(r.nextID, r.all, i, g);
    OtherRole(r.all, r.clients, Client, i, g);
    SeatCurrent(r.all, r.peers, Peer, i, g);
    SetCounts(r.all, i, g);
    UnnamedStep(r.all, r.peers, r.arbitrations, i, g);
    OtherPeerEntry(r.all[i := g], r.peers, r.arbitrations, peer, Promote(r.peers[peer], i));
  }

  lemma PreparedUnnamed(r: Registry, i: nat)
    requires CoreOk(r) && Exact(r, i, Peer, Prepared) && HasPrepared(r.peers, r.all[i].peer, i) && !IsLoser(r, i)
    ensures Unnamed(r.arbitrations, i) && r.all[i].peer !in r.arbitrations
  {
    hide SlotsOk;
    hide CountsOk;
    forall peer | peer in r.arbitrations
      ensures r.arbitrations[peer].inbound != i && r.arbitrations[peer].loser != i && peer != r.all[i].peer
    {
      assert ArbitrationOk(r.all, r.peers, peer, r.arbitrations[peer]);
    }
  }

  lemma InboundIsNoLoser(r: Registry, i: nat)
    requires CoreOk(r) && i in r.all && !r.all[i].outbound
    ensures !IsLoser(r, i)
  {
    hide SlotsOk;
    hide CountsOk;
    forall peer | peer in r.arbitrations
      ensures r.arbitrations[peer].loser != i
    {
      assert ArbitrationOk(r.all, r.peers, peer, r.arbitrations[peer]);
    }
  }

  lemma CommitPeerOk(r: Registry, i: nat)
    requires CoreOk(r)
    ensures CoreOk(CommitReceiver(r, i)) && CoreOk(CommitOutboundPeer(r, i))
  {
    hide CoreOk;
    hide PromotePeer;
    if Exact(r, i, Peer, Prepared) && HasPrepared(r.peers, r.all[i].peer, i) {
      if !r.all[i].outbound {
        InboundIsNoLoser(r, i);
      }
      if !IsLoser(r, i) {
        PromotePeerOk(r, i);
      }
    }
  }

  /** What commitClientGroup does before the refresh. */
  function Committed(r: Registry, i: nat, version: nat, applyLatest: bool): Registry
    requires i in r.all && r.all[i].instance in r.clients
  {
    var g := r.all[i];
    var publish := g.group !in r.rules || version > r.rules[g.group].version;
    r.(all := r.all[i := g.(phase := Current, version := version, forwarding := Forwarding(true, true, false))],
       clients := r.clients[g.instance := Promote(r.clients[g.instance], i)],
       rules := if publish then r.rules[g.group := Rule(version, applyLatest)] else r.rules)
  }

  lemma CommittedOk(r: Registry, i: nat, version: nat, applyLatest: bool)
    requires CoreOk(r) && Exact(r, i, Client, Prepared) && HasPrepared(r.clients, r.all[i].instance, i)
    ensures CoreOk(Committed(r, i, version, applyLatest))
  {
    hide RoleOk;
    hide GensOk;
    hide ArbitrationsOk;
    hide Count;
    var g := r.all[i].(phase := Current, version := version, forwarding := Forwarding(true, true, false));
    GenKnown(r, i);
    ClientUnnamed(r, i);
    SetGen(r.nextID, r.all, i, g);
    SeatCurrent(r.all, r.clients, Client, i, g);
    OtherRole(r.all, r.peers, Peer, i, g);
    SetCounts(r.all, i, g);
    UnnamedStep(r.all, r.peers, r.arbitrations, i, g);
  }

  // ---------------------------------------------------------------------------
  // Retirement
  // ---------------------------------------------------------------------------

  lemma SeatRetiring(all: map<nat, Gen>, entries: map<string, Entry>, role: Role, i: nat, g: Gen)
    requires RoleOk(all, entries, role) && i in all && all[i].role == role && g == all[i].(phase := Retiring)
    requires all[i].phase == Prepared || all[i].phase == Current
    ensures KeyOf(g) in entries && RoleOk(all[i := g], entries[KeyOf(g) := Retired(entries[KeyOf(g)], i)], role)
  {
    assert Placed(entries, i, all[i]);
    SeatRetiringEntry(all, entries, role, i, g);
    hide EntryOk;
    hide RoleOk;
    Reseat(all, entries, role, i, g, Retired(entries[KeyOf(g)], i));
  }

  lemma SeatRetiringEntry(all: map<nat, Gen>, entries: map<string, Entry>, role: Role, i: nat, g: Gen)
    requires RoleOk(all, entries, role) && i in all && all[i].role == role && g == all[i].(phase := Retiring)
    requires KeyOf(g) in entries
    ensures EntryOk(all[i := g], role, KeyOf(g), Retired(entries[KeyOf(g)], i))
  {
    assert EntryOk(all, role, KeyOf(g), entries[KeyOf(g)]);
  }

  lemma RetireSlots(r: Registry, i: nat)
    requires SlotsOk(r) && i in r.all && (r.all[i].phase == Prepared || r.all[i].phase == Current)
    ensures SlotsOk(Retire(r, i))
  {
    hide RoleOk;
    hide Retired;
    var g := r.all[i].(phase := Retiring);
    assert GenOk(r.nextID, i, r.all[i]);
    SetGen(r.nextID, r.all, i, g);
    hide GensOk;
    if g.role == Client {
      SeatRetiring(r.all, r.clients, Client, i, g);
      OtherRole(r.all, r.peers, Peer, i, g);
    } else {
      SeatRetiring(r.all, r.peers, Peer, i, g);
      OtherRole(r.all, r.clients, Client, i, g);
    }
  }

  lemma RetireArbitrations(r: Registry, i: nat)
    requires ArbitrationsOk(r.all, r.peers, r.arbitrations) && i in r.all
    requires r.all[i].phase == Prepared || r.all[i].phase == Current
    requires r.all[i].role != Unknown
    ensures ArbitrationsOk(Retire(r, i).all, Retire(r, i).peers, r.arbitrations)
  {
    var q := Retire(r, i);
    forall peer | peer in r.arbitrations
      ensures ArbitrationOk(q.all, q.peers, peer, r.arbitrations[peer])
    {
      assert ArbitrationOk(r.all, r.peers, peer, r.arbitrations[peer]);
    }
  }

  lemma RetireOk(r: Registry, i: nat)
    requires CoreOk(r) && i in r.all && (r.all[i].phase == Prepared || r.all[i].phase == Current)
    ensures CoreOk(Retire(r, i))
  {
    GenKnown(r, i);
    hide SlotsOk;
    hide ArbitrationsOk;
    hide Count;
    RetireSlots(r, i);
    RetireArbitrations(r, i);
    SetCounts(r.all, i, r.all[i].(phase := Retiring));
  }

  /** Marking the loser released changes nothing else. */
  lemma MarkReleasedOk(r: Registry, peer: string)
    requires CoreOk(r) && peer in r.arbitrations && Exact(r, r.arbitrations[peer].loser, Peer, Retiring)
    ensures CoreOk(r.(arbitrations := r.arbitrations[peer := r.arbitrations[peer].(released := true)]))
  {
    ArbitrationFacts(r, peer);
    var arbs := r.arbitrations[peer := r.arbitrations[peer].(released := true)];
    assert ArbitrationsOk(r.all, r.peers, arbs) by {
      hide SlotsOk;
      hide CountsOk;
      forall q | q in arbs
        ensures ArbitrationOk(r.all, r.peers, q, arbs[q])
      {
        assert ArbitrationOk(r.all, r.peers, q, r.arbitrations[q]);
      }
    }
    hide Count;
    ArbitrationStep(r, r.nextArb, arbs);
  }
}

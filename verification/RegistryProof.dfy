/** The slot, count and arbitration invariants of the registry, and what removal keeps. */
module RegistryProof {
  import opened Basics
  import opened MapSum
  import opened RegistryState

  // ---------------------------------------------------------------------------
  // The invariant
  // ---------------------------------------------------------------------------

  predicate Is(all: map<nat, Gen>, i: nat, role: Role, key: string, group: string, phase: Phase) {
    && i in all && all[i].role == role && KeyOf(all[i]) == key && all[i].phase == phase
    && (role == Client ==> all[i].group == group)
  }

  /** An entry is not empty and everything in it belongs there. */
  predicate EntryOk(all: map<nat, Gen>, role: Role, key: string, e: Entry) {
    && !Empty(e)
    && (e.prepared.Some? ==> Is(all, e.prepared.value, role, key, e.group, Prepared))
    && (e.current.Some? ==> Is(all, e.current.value, role, key, e.group, Current))
    && (forall i :: i in e.retiring ==> Is(all, i, role, key, e.group, Retiring))
  }

  predicate Sits(e: Entry, i: nat, phase: Phase) {
    match phase
    case Pending => false
    case Prepared => e.prepared == Some(i)
    case Current => e.current == Some(i)
    case Retiring => i in e.retiring
  }

  predicate Placed(entries: map<string, Entry>, i: nat, g: Gen) {
    KeyOf(g) in entries && Sits(entries[KeyOf(g)], i, g.phase)
  }

  /** Every generation of a role sits in exactly the slot its identity and phase name, and the
      entries hold nothing else. */
  predicate RoleOk(all: map<nat, Gen>, entries: map<string, Entry>, role: Role) {
    && (forall key :: key in entries ==> EntryOk(all, role, key, entries[key]))
    && (forall i :: i in all && all[i].role == role ==> Placed(entries, i, all[i]))
  }

  predicate GenOk(nextID: nat, i: nat, g: Gen) {
    && i <= nextID && (g.role == Unknown <==> g.phase == Pending) && (g.role == Client ==> g.group != "")
  }

  predicate GensOk(nextID: nat, all: map<nat, Gen>) {
    forall i :: i in all ==> GenOk(nextID, i, all[i])
  }

  predicate SlotsOk(r: Registry) {
    GensOk(r.nextID, r.all) && RoleOk(r.all, r.clients, Client) && RoleOk(r.all, r.peers, Peer)
  }

  ghost predicate CountsOk(limits: Limits, all: map<nat, Gen>) {
    Count(all, Unknown) <= limits.pending && Count(all, Client) <= limits.clients && Count(all, Peer) <= limits.peers
  }

  /** The inbound side still waits, the loser still has its counted slot, and nobody else has
      taken the active slots of the peer. */
  predicate ArbitrationOk(all: map<nat, Gen>, peers: map<string, Entry>, peer: string, arb: Arbitration) {
    && arb.inbound in all && all[arb.inbound].role == Unknown && all[arb.inbound].tried
    && arb.loser in all && all[arb.loser].role == Peer && all[arb.loser].outbound && all[arb.loser].peer == peer
    && (all[arb.loser].phase == Prepared || all[arb.loser].phase == Retiring)
    && (arb.released ==> all[arb.loser].phase == Retiring)
    && EntryAt(peers, peer).current.None?
    && (EntryAt(peers, peer).prepared.Some? ==> EntryAt(peers, peer).prepared == Some(arb.loser))
  }

  predicate ArbitrationsOk(all: map<nat, Gen>, peers: map<string, Entry>, arbs: map<string, Arbitration>) {
    && (forall peer :: peer in arbs ==> ArbitrationOk(all, peers, peer, arbs[peer]))
    && (forall p, q :: p in arbs && q in arbs && p != q ==> arbs[p].inbound != arbs[q].inbound)
  }

  /** Once stopping, nothing is begun: what is left was seen by the first phase of Stop. */
  predicate StopOk(r: Registry) {
    && (r.closed <==> r.sweep.Some?)
    && (r.closed ==> r.arbitrations == map[] && r.all.Keys <= r.sweep.value)
  }

  ghost predicate CoreOk(r: Registry) {
    SlotsOk(r) && CountsOk(r.limits, r.all) && ArbitrationsOk(r.all, r.peers, r.arbitrations) && StopOk(r)
  }

  // ---------------------------------------------------------------------------
  // Counting
  // ---------------------------------------------------------------------------

  lemma SetCount(all: map<nat, Gen>, i: nat, g: Gen, role: Role)
    ensures Count(all[i := g], role) == Count(all, role) + (if g.role == role then 1 else 0)
              - (if i in all && all[i].role == role then 1 else 0)
  {
    var now := if g.role == role then 1 else 0;
    assert OfRole(all[i := g], role) == OfRole(all, role)[i := now];
    SumUpdate(OfRole(all, role), i, now);
  }

  lemma RemoveCount(all: map<nat, Gen>, i: nat, role: Role)
    requires i in all
    ensures Count(all - {i}, role) == Count(all, role) - (if all[i].role == role then 1 else 0)
  {
    assert OfRole(all - {i}, role) == OfRole(all, role) - {i};
    SumRemove(OfRole(all, role), i);
  }

  // ---------------------------------------------------------------------------
  // One generation changes
  // ---------------------------------------------------------------------------

  /** Changing a generation of another role does not concern the entries of this one. */
  lemma OtherRole(all: map<nat, Gen>, entries: map<string, Entry>, role: Role, i: nat, g: Gen)
    requires RoleOk(all, entries, role) && g.role != role && (i in all ==> all[i].role != role)
    ensures RoleOk(all[i := g], entries, role)
  {
    forall key | key in entries
      ensures EntryOk(all[i := g], role, key, entries[key])
    {
      assert EntryOk(all, role, key, entries[key]);
    }
  }

  lemma OtherRoleRemoved(all: map<nat, Gen>, entries: map<string, Entry>, role: Role, i: nat)
    requires RoleOk(all, entries, role) && i in all && all[i].role != role
    ensures RoleOk(all - {i}, entries, role)
  {
    forall key | key in entries
      ensures EntryOk(all - {i}, role, key, entries[key])
    {
      assert EntryOk(all, role, key, entries[key]);
    }
  }

  /** Moving one generation within or into the entry of its key. */
  lemma Reseat(all: map<nat, Gen>, entries: map<string, Entry>, role: Role, i: nat, g: Gen, e: Entry)
    requires RoleOk(all, entries, role) && g.role == role &&
             (i in all && all[i].role == role ==> KeyOf(all[i]) == KeyOf(g))
    requires EntryOk(all[i := g], role, KeyOf(g), e) && Sits(e, i, g.phase)
    requires KeyOf(g) in entries ==>
             forall j, phase :: j != i && Sits(entries[KeyOf(g)], j, phase) ==> Sits(e, j, phase)
    ensures RoleOk(all[i := g], entries[KeyOf(g) := e], role)
  {
    var key := KeyOf(g);
    var now, then_ := all[i := g], entries[key := e];
    forall k | k in then_
      ensures EntryOk(now, role, k, then_[k])
    {
      if k != key {
        OtherKey(all, role, k, entries[k], i, g);
      }
    }
    forall j | j in now && now[j].role == role
      ensures Placed(then_, j, now[j])
    {
      if j != i {
        assert Placed(entries, j, all[j]);
      }
    }
  }

  lemma OtherKey(all: map<nat, Gen>, role: Role, k: string, e: Entry, i: nat, g: Gen)
    requires EntryOk(all, role, k, e) && g.role == role && KeyOf(g) != k &&
             (i in all && all[i].role == role ==> KeyOf(all[i]) != k)
    ensures EntryOk(all[i := g], role, k, e)
  {
  }

  // ---------------------------------------------------------------------------
  // Removing one generation
  // ---------------------------------------------------------------------------

  lemma VacatedEntry(all: map<nat, Gen>, role: Role, key: string, e: Entry, i: nat)
    requires EntryOk(all, role, key, e) && !Empty(Vacate(e, i))
    ensures EntryOk(all - {i}, role, key, Vacate(e, i))
  {
  }

  lemma WithoutEntry(all: map<nat, Gen>, entries: map<string, Entry>, role: Role, i: nat, k: string)
    requires RoleOk(all, entries, role) && i in all && all[i].role == role && k in Without(entries, KeyOf(all[i]), i)
    ensures k in entries && EntryOk(all - {i}, role, k, Without(entries, KeyOf(all[i]), i)[k])
  {
    hide EntryOk;
    assert EntryOk(all, role, k, entries[k]);
    if k == KeyOf(all[i]) {
      VacatedEntry(all, role, k, entries[k], i);
    } else {
      OtherKeyRemoved(all, role, k, entries[k], i);
    }
  }

  lemma OtherKeyRemoved(all: map<nat, Gen>, role: Role, k: string, e: Entry, i: nat)
    requires EntryOk(all, role, k, e) && i in all && KeyOf(all[i]) != k
    ensures EntryOk(all - {i}, role, k, e)
  {
  }

  lemma VacatedSeat(e: Entry, i: nat, j: nat, phase: Phase)
    requires Sits(e, j, phase) && j != i
    ensures Sits(Vacate(e, i), j, phase) && !Empty(Vacate(e, i))
  {
  }

  lemma WithoutPlaced(all: map<nat, Gen>, entries: map<string, Entry>, role: Role, i: nat, j: nat)
    requires RoleOk(all, entries, role) && i in all && all[i].role == role && j in all && j != i && all[j].role == role
    ensures Placed(Without(entries, KeyOf(all[i]), i), j, all[j])
  {
    hide EntryOk;
    hide Vacate;
    hide Empty;
    hide Sits;
    assert Placed(entries, j, all[j]);
    VacatedSeat(entries[KeyOf(all[j])], i, j, all[j].phase);
  }

  lemma WithoutRole(all: map<nat, Gen>, entries: map<string, Entry>, role: Role, i: nat)
    requires RoleOk(all, entries, role) && i in all && all[i].role == role
    ensures RoleOk(all - {i}, Without(entries, KeyOf(all[i]), i), role)
  {
    hide Without;
    hide EntryOk;
    var left := Without(entries, KeyOf(all[i]), i);
    forall k | k in left
      ensures EntryOk(all - {i}, role, k, left[k])
    {
      WithoutEntry(all, entries, role, i, k);
    }
    forall j | j in all - {i} && (all - {i})[j].role == role
      ensures Placed(left, j, (all - {i})[j])
    {
      WithoutPlaced(all, entries, role, i, j);
    }
  }

  lemma DetachSlots(r: Registry, i: nat)
    requires SlotsOk(r)
    ensures SlotsOk(Detach(r, i))
  {
    hide RoleOk;
    if i in r.all {
      var g := r.all[i];
      if g.role == Client {
        WithoutRole(r.all, r.clients, Client, i);
        OtherRoleRemoved(r.all, r.peers, Peer, i);
      } else if g.role == Peer {
        WithoutRole(r.all, r.peers, Peer, i);
        OtherRoleRemoved(r.all, r.clients, Client, i);
      } else {
        OtherRoleRemoved(r.all, r.clients, Client, i);
        OtherRoleRemoved(r.all, r.peers, Peer, i);
      }
    }
    hide Without;
    hide GenOk;
  }

  lemma DetachCounts(r: Registry, i: nat)
    requires CountsOk(r.limits, r.all)
    ensures CountsOk(r.limits, Detach(r, i).all)
  {
    hide Without;
    hide Count;
    if i in r.all {
      RemoveCount(r.all, i, Unknown);
      RemoveCount(r.all, i, Client);
      RemoveCount(r.all, i, Peer);
    }
  }

  /** A generation that no arbitration names can go. */
  predicate Unnamed(arbs: map<string, Arbitration>, i: nat) {
    forall peer :: peer in arbs ==> arbs[peer].inbound != i && arbs[peer].loser != i
  }

  lemma WithoutOthers(peers: map<string, Entry>, key: string, i: nat, peer: string)
    ensures EntryAt(Without(peers, key, i), peer).current.None? ||
            EntryAt(Without(peers, key, i), peer).current == EntryAt(peers, peer).current
    ensures EntryAt(Without(peers, key, i), peer).prepared.None? ||
            EntryAt(Without(peers, key, i), peer).prepared == EntryAt(peers, peer).prepared
  {
  }

  lemma DetachArbitrations(r: Registry, i: nat)
    requires ArbitrationsOk(r.all, r.peers, r.arbitrations) && Unnamed(r.arbitrations, i)
    ensures ArbitrationsOk(Detach(r, i).all, Detach(r, i).peers, r.arbitrations)
  {
    hide Without;
    if i in r.all {
      var q := Detach(r, i);
      forall peer | peer in r.arbitrations
        ensures ArbitrationOk(q.all, q.peers, peer, r.arbitrations[peer])
      {
        assert ArbitrationOk(r.all, r.peers, peer, r.arbitrations[peer]);
        WithoutOthers(r.peers, r.all[i].peer, i, peer);
      }
    }
  }

  lemma DetachOk(r: Registry, i: nat)
    requires CoreOk(r) && Unnamed(r.arbitrations, i)
    ensures CoreOk(Detach(r, i))
  {
    hide SlotsOk;
    hide CountsOk;
    hide ArbitrationsOk;
    hide Without;
    DetachSlots(r, i);
    DetachCounts(r, i);
    DetachArbitrations(r, i);
  }

  // ---------------------------------------------------------------------------
  // The recursion of removal, closed form
  // ---------------------------------------------------------------------------

  /** finishArbitrationLocked without the recursion: a released loser is detached. */
  function Ended(r: Registry, peer: string): Registry
    requires peer in r.arbitrations
  {
    var left := r.(arbitrations := r.arbitrations - {peer});
    if r.arbitrations[peer].released then Detach(left, r.arbitrations[peer].loser) else left
  }

  lemma NotAwaited(r: Registry, i: nat)
    requires ArbitrationsOk(r.all, r.peers, r.arbitrations) && i in r.all && r.all[i].role != Unknown
    ensures WaitingFor(r, i) == None
  {
  }

  /** Removing a loser never ends another arbitration, so the recursion goes one step deep. */
  lemma FinishIs(r: Registry, peer: string)
    requires ArbitrationsOk(r.all, r.peers, r.arbitrations) && peer in r.arbitrations
    ensures FinishArbitration(r, peer) == Ended(r, peer)
  {
    var left := r.(arbitrations := r.arbitrations - {peer});
    var loser := r.arbitrations[peer].loser;
    assert ArbitrationOk(r.all, r.peers, peer, r.arbitrations[peer]);
    NotAwaited(left, loser);
  }

  lemma LoserUnnamed(r: Registry, peer: string)
    requires ArbitrationsOk(r.all, r.peers, r.arbitrations) && peer in r.arbitrations
    ensures Unnamed(r.arbitrations - {peer}, r.arbitrations[peer].loser)
    ensures Unnamed(r.arbitrations - {peer}, r.arbitrations[peer].inbound)
  {
    var arb := r.arbitrations[peer];
    assert ArbitrationOk(r.all, r.peers, peer, arb);
    forall q | q in r.arbitrations && q != peer
      ensures r.arbitrations[q].inbound != arb.loser && r.arbitrations[q].loser != arb.loser
      ensures r.arbitrations[q].inbound != arb.inbound && r.arbitrations[q].loser != arb.inbound
    {
      assert ArbitrationOk(r.all, r.peers, q, r.arbitrations[q]);
    }
  }

  lemma DropArbitration(r: Registry, peer: string)
    requires CoreOk(r) && peer in r.arbitrations
    ensures CoreOk(r.(arbitrations := r.arbitrations - {peer}))
  {
    hide RoleOk;
    hide CountsOk;
    hide ArbitrationOk;
  }

  lemma EndedOk(r: Registry, peer: string)
    requires CoreOk(r) && peer in r.arbitrations
    ensures CoreOk(Ended(r, peer)) && Unnamed(Ended(r, peer).arbitrations, r.arbitrations[peer].inbound)
  {
    DropArbitration(r, peer);
    LoserUnnamed(r, peer);
    hide SlotsOk;
    hide CountsOk;
    hide ArbitrationsOk;
    hide Detach;
    var left := r.(arbitrations := r.arbitrations - {peer});
    DetachOk(left, r.arbitrations[peer].loser);
    DetachKeepsArbitrations(left, r.arbitrations[peer].loser);
  }

  lemma DetachKeepsArbitrations(r: Registry, i: nat)
    ensures Detach(r, i).arbitrations == r.arbitrations
  {
  }

  /** Removal of anything but a loser keeps the invariant; an awaited inbound ends its arbitration. */
  lemma RemoveOk(r: Registry, i: nat)
    requires CoreOk(r) && (forall peer :: peer in r.arbitrations ==> r.arbitrations[peer].loser != i)
    ensures CoreOk(Remove(r, i)) && i !in Remove(r, i).all
  {
    hide SlotsOk;
    hide CountsOk;
    hide ArbitrationsOk;
    if i in r.all {
      var waiting := WaitingFor(r, i);
      if waiting.Some? {
        FinishIs(r, waiting.value);
        EndedOk(r, waiting.value);
        DetachOk(Ended(r, waiting.value), i);
      } else {
        DetachOk(r, i);
      }
    }
  }
}

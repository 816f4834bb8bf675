/** The registry object: its maps, loops and mutually recursive removal, proved against the
    functions of RegistryState. */
module RegistryStore {
  import opened Basics
  import opened MapSum
  import opened RegistryState
  import opened RegistryProof
  import Spec = RegistryState

  class RegistryObject {
    const limits: Limits
    var closed: bool
    var nextID: nat
    var nextArb: nat
    var all: map<nat, Gen>
    var clients: map<string, Entry>
    var peers: map<string, Entry>
    var arbitrations: map<string, Arbitration>
    var available: set<string>
    var rules: map<string, Rule>
    var edges: nat
    var faulted: bool
    var sweep: Option<set<nat>>

    constructor (limits: Limits)
      ensures View() == NewRegistry(limits)
    {
      this.limits := limits;
      closed, nextID, nextArb := false, 0, 0;
      all, clients, peers, arbitrations := map[], map[], map[], map[];
      available, rules, edges, faulted, sweep := {}, map[], 0, false, None;
    }

    function View(): Registry
      reads this
    {
      Registry(limits, closed, nextID, nextArb, all, clients, peers, arbitrations, available, rules, edges, faulted,
               sweep)
    }

    /** countRoleLocked. */
    method CountRole(role: Role) returns (count: int)
      ensures count == Count(all, role)
    {
      count := 0;
      var left := all;
      while left != map[]
        invariant forall i :: i in left ==> i in all && left[i] == all[i]
        invariant count + Count(left, role) == Count(all, role)
        decreases |left|
      {
        var i :| i in left;
        RemoveCount(left, i, role);
        SizeRemove(left, i);
        if left[i].role == role {
          count := count + 1;
        }
        left := left - {i};
      }
      SumZero(OfRole(map[], role));
    }

    /** refreshGroupLocked. */
    method RefreshGroup(group: string)
      modifies this
      ensures View() == Refresh(old(View()), group)
    {
      var now := false;
      var keys := clients.Keys;
      while keys != {}
        invariant View() == old(View()) && keys <= clients.Keys
        invariant now <==> !closed && exists key :: key in clients && key !in keys && Serves(View(), key, group)
        decreases keys
      {
        var key :| key in keys;
        if Serves(View(), key, group) && !closed {
          now := true;
        }
        keys := keys - {key};
      }
      if (group in available) != now {
        available := if now then available + {group} else available - {group};
        edges, faulted := edges + 1, faulted || closed;
      }
    }

    /** arbitrationForInboundLocked. */
    method ArbitrationFor(i: nat) returns (found: Option<string>)
      requires ArbitrationsOk(all, peers, arbitrations)
      ensures found == WaitingFor(View(), i)
    {
      var left := arbitrations.Keys;
      while left != {}
        invariant left <= arbitrations.Keys
        invariant forall peer :: peer in arbitrations && peer !in left ==> arbitrations[peer].inbound != i
        decreases left
      {
        var peer :| peer in left;
        if arbitrations[peer].inbound == i {
          return Some(peer);
        }
        left := left - {peer};
      }
      return None;
    }

    method DetachLocked(i: nat)
      modifies this
      ensures View() == Detach(old(View()), i)
    {
      if i !in all {
        return;
      }
      var g := all[i];
      all := all - {i};
      match g.role {
        case Unknown =>
        case Client => clients := Leave(clients, g.instance, i);
        case Peer => peers := Leave(peers, g.peer, i);
      }
    }

    /** unlinkActiveLocked, the deletion from the retiring map and the deletion of an empty entry. */
    method Leave(entries: map<string, Entry>, key: string, i: nat) returns (left: map<string, Entry>)
      ensures left == Without(entries, key, i)
    {
      left := entries;
      if key in entries {
        var e := entries[key];
        if e.prepared == Some(i) {
          e := e.(prepared := None);
        }
        if e.current == Some(i) {
          e := e.(current := None);
        }
        e := e.(retiring := e.retiring - {i});
        if e.prepared.None? && e.current.None? && e.retiring == {} {
          left := entries - {key};
        } else {
          left := entries[key := e];
        }
      }
    }

    method RemoveLocked(i: nat) returns (removed: bool)
      requires ArbitrationsOk(all, peers, arbitrations)
      modifies this
      ensures View() == Remove(old(View()), i) && removed == (i in old(all))
      decreases |arbitrations|, 1
    {
      hide ArbitrationsOk;
      hide WaitingFor;
      if i !in all {
        return false;
      }
      var waiting := ArbitrationFor(i);
      if waiting.Some? {
        AwaitedKnown(View(), i);
        FinishArbitrationLocked(waiting.value);
      }
      DetachLocked(i);
      return true;
    }

    method FinishArbitrationLocked(peer: string)
      requires ArbitrationsOk(all, peers, arbitrations) && peer in arbitrations
      modifies this
      ensures View() == FinishArbitration(old(View()), peer)
      decreases |arbitrations|, 0
    {
      var arb := arbitrations[peer];
      SizeRemove(arbitrations, peer);
      FewerOk(all, peers, arbitrations, peer);
      hide ArbitrationsOk;
      arbitrations := arbitrations - {peer};
      if arb.released {
        var _ := RemoveLocked(arb.loser);
      }
    }

    method TransferLocked(i: nat, peer: string)
      requires i in all
      modifies this
      ensures View() == TransferToPeer(old(View()), i, peer)
    {
      var e := if peer in peers then peers[peer] else NO_ENTRY;
      all := all[i := all[i].(role := Peer, phase := Prepared, peer := peer, tried := true)];
      peers := peers[peer := e.(prepared := Some(i))];
    }

    method PreparePeer(i: nat, peer: string, preferred: bool)
      requires MayPrepare(View(), i)
      modifies this
      ensures View() == Spec.PreparePeer(old(View()), i, peer, preferred)
    {
      hide Count;
      var e := EntryAt(peers, peer);
      if peer in arbitrations || e.current.Some? {
        all := all[i := all[i].(tried := true)];
        return;
      }
      if e.prepared.Some? {
        if preferred && e.prepared.value in all && all[e.prepared.value].outbound {
          nextArb := nextArb + 1;
          arbitrations := arbitrations[peer := Arbitration(nextArb, i, e.prepared.value, false)];
        }
        all := all[i := all[i].(tried := true)];
        return;
      }
      var count := CountRole(Peer);
      if count >= limits.peers {
        all := all[i := all[i].(tried := true)];
        return;
      }
      TransferLocked(i, peer);
    }

    method CompleteArbitration(peer: string, id: nat) returns (verdict: Verdict)
      requires CoreOk(View())
      modifies this
      ensures (View(), verdict) == Spec.CompleteArbitration(old(View()), peer, id)
    {
      hide Count;
      hide FinishArbitration;
      CorePart(View());
      hide CoreOk;
      hide ArbitrationsOk;
      if !(peer in arbitrations && arbitrations[peer].id == id) {
        return Stale;
      }
      var arb := arbitrations[peer];
      var stale := !Exact(View(), arb.inbound, Unknown, Pending) || !arb.released ||
          !Exact(View(), arb.loser, Peer, Retiring);
      var e := EntryAt(peers, peer);
      var stopped := closed;
      var count := CountRole(Peer);
      FinishArbitrationLocked(peer);
      if stopped {
        return Stopped;
      }
      if stale {
        return Stale;
      }
      if e.prepared.Some? || e.current.Some? {
        return Occupied;
      }
      if count > limits.peers {
        return Full;
      }
      if arb.inbound !in all {
        return Stale;
      }
      TransferLocked(arb.inbound, peer);
      return Transferred(arb.inbound);
    }

    method RetireLocked(i: nat)
      requires i in all
      modifies this
      ensures View() == Retire(old(View()), i)
    {
      var g := all[i];
      all := all[i := g.(phase := Retiring)];
      if g.role == Client && g.instance in clients {
        clients := clients[g.instance := Retired(clients[g.instance], i)];
      }
      if g.role == Peer && g.peer in peers {
        peers := peers[g.peer := Retired(peers[g.peer], i)];
      }
    }

    method BeginRetire(i: nat) returns (ok: bool)
      modifies this
      ensures View() == Spec.BeginRetire(old(View()), i)
      ensures ok == (i in old(all) && old(all)[i].phase != Pending)
    {
      hide Refresh;
      hide Retire;
      if i !in all {
        return false;
      }
      var g := all[i];
      if g.phase == Prepared || g.phase == Current {
        RetireLocked(i);
        if g.role == Client {
          RefreshGroup(g.group);
        }
        return true;
      }
      return g.phase == Retiring;
    }

    method Release(i: nat) returns (ok: bool)
      requires CoreOk(View())
      modifies this
      ensures View() == Spec.Release(old(View()), i)
    {
      CorePart(View());
      hide CoreOk;
      hide ArbitrationsOk;
      hide Refresh;
      hide Retire;
      hide Remove;
      if i in all && all[i].peer in arbitrations && arbitrations[all[i].peer].loser == i {
        var peer := all[i].peer;
        if arbitrations[peer].released {
          return false;
        }
        if all[i].phase != Retiring {
          RetireLocked(i);
        }
        arbitrations := arbitrations[peer := arbitrations[peer].(released := true)];
        return true;
      }
      var group := if i in all && all[i].role == Client then all[i].group else "";
      ok := RemoveLocked(i);
      if ok && group != "" {
        RefreshGroup(group);
      }
    }

    /** The first phase of Stop. */
    method BeginStop()
      modifies this
      ensures View() == Spec.BeginStop(old(View()))
    {
      if !closed {
        closed, available, arbitrations, sweep := true, {}, map[], Some(all.Keys);
      }
    }
  }

  lemma CorePart(r: Registry)
    requires CoreOk(r)
    ensures ArbitrationsOk(r.all, r.peers, r.arbitrations)
  {
  }

  lemma AwaitedKnown(r: Registry, i: nat)
    requires WaitingFor(r, i).Some?
    ensures WaitingFor(r, i).value in r.arbitrations
  {
  }

  lemma FewerOk(all: map<nat, Gen>, peers: map<string, Entry>, arbs: map<string, Arbitration>, peer: string)
    requires ArbitrationsOk(all, peers, arbs)
    ensures ArbitrationsOk(all, peers, arbs - {peer})
  {
    hide ArbitrationOk;
  }
}

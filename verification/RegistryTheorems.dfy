/** What the registry promises its callers, over every run. */
module RegistryTheorems {
  import opened Basics
  import opened MapSum
  import opened RegistryState
  import opened RegistryProof
  import opened RegistrySteps
  import opened RegistryRun

  /** Slots and limits: every live generation sits in exactly the slot its role, identity and
      phase name, no entry is empty, generations of an instance share its group, and the three
      limits hold. */
  lemma SlotsExact(limits: Limits, actions: seq<Action>)
    ensures var r := Run(limits, actions);
            && (forall i :: i in r.all && r.all[i].role == Client ==> Placed(r.clients, i, r.all[i]))
            && (forall i :: i in r.all && r.all[i].role == Peer ==> Placed(r.peers, i, r.all[i]))
            && (forall key :: key in r.clients ==> EntryOk(r.all, Client, key, r.clients[key]))
            && (forall key :: key in r.peers ==> EntryOk(r.all, Peer, key, r.peers[key]))
            && (forall i :: i in r.all ==> (r.all[i].role == Unknown <==> r.all[i].phase == Pending))
            && Count(r.all, Unknown) <= limits.pending && Count(r.all, Client) <= limits.clients
            && Count(r.all, Peer) <= limits.peers
  {
    RunOk(limits, actions);
    hide Run;
    hide EntryOk;
    hide Placed;
    hide Count;
    hide ArbitrationsOk;
    hide CacheOk;
    var r := Run(limits, actions);
    forall i | i in r.all
      ensures r.all[i].role == Unknown <==> r.all[i].phase == Pending
    {
      assert GenOk(r.nextID, i, r.all[i]);
    }
  }

  /** The cache is exact in every reachable state, and its channel is never closed twice. */
  lemma AvailabilityExact(limits: Limits, actions: seq<Action>, group: string)
    ensures var r := Run(limits, actions);
            (group in r.available <==> AvailableNow(r, group)) && !r.faulted
  {
    RunOk(limits, actions);
    hide Run;
    hide CoreOk;
    hide AvailableNow;
  }

  // ---------------------------------------------------------------------------
  // Edges
  // ---------------------------------------------------------------------------

  predicate SameChannel(r: Registry, q: Registry) {
    q.available == r.available && q.edges == r.edges
  }

  /** The channel is replaced once, together with a change, or not at all. */
  predicate OneEdge(r: Registry, q: Registry) {
    SameChannel(r, q) || (q.available != r.available && q.edges == r.edges + 1)
  }

  lemma RefreshEdge(r: Registry, q: Registry, group: string)
    requires SameChannel(r, q)
    ensures OneEdge(r, Refresh(q, group))
  {
    hide AvailableNow;
    var now := Refresh(q, group);
    assert now != q ==> (group in now.available) != (group in q.available);
  }

  lemma EndedChannel(r: Registry, peer: string)
    requires peer in r.arbitrations
    ensures SameChannel(r, Ended(r, peer))
  {
    hide Without;
  }

  lemma RemoveChannel(r: Registry, i: nat)
    requires CoreOk(r)
    ensures SameChannel(r, Remove(r, i))
  {
    hide CoreOk;
    hide Without;
    hide Ended;
    if i in r.all {
      var waiting := WaitingFor(r, i);
      if waiting.Some? {
        FinishNow(r, waiting.value);
        EndedChannel(r, waiting.value);
      }
    }
  }

  lemma CompleteChannel(r: Registry, peer: string, id: nat)
    requires CoreOk(r)
    ensures SameChannel(r, CompleteArbitration(r, peer, id).0)
  {
    hide CoreOk;
    hide Count;
    hide Ended;
    hide Exact;
    if IsArbitration(r, peer, id) {
      FinishNow(r, peer);
      EndedChannel(r, peer);
      hide FinishArbitration;
    }
  }

  lemma CancelChannel(r: Registry, peer: string, id: nat, abort: bool)
    requires CoreOk(r)
    ensures SameChannel(r, CancelArbitration(r, peer, id, abort))
  {
    hide CoreOk;
    hide Ended;
    hide Remove;
    if IsArbitration(r, peer, id) {
      FinishNow(r, peer);
      EndedOk(r, peer);
      EndedChannel(r, peer);
      RemoveChannel(Ended(r, peer), r.arbitrations[peer].inbound);
      hide FinishArbitration;
    }
  }

  lemma ReleaseEdge(r: Registry, i: nat)
    requires CoreOk(r)
    ensures OneEdge(r, Release(r, i))
  {
    hide CoreOk;
    hide Remove;
    hide Refresh;
    hide Retired;
    RemoveChannel(r, i);
    if i in r.all && r.all[i].role == Client {
      RefreshEdge(r, Remove(r, i), r.all[i].group);
    }
  }

  lemma ClientEdges(r: Registry, i: nat, version: nat, applyLatest: bool, forwarding: Forwarding)
    ensures OneEdge(r, CommitClient(r, i, version, applyLatest))
    ensures OneEdge(r, BeginRetire(r, i)) && OneEdge(r, PublishForwarding(r, i, forwarding))
  {
    hide Refresh;
    hide Promote;
    hide Retired;
    if i in r.all {
      var group := r.all[i].group;
      if r.all[i].instance in r.clients {
        RefreshEdge(r, Committed(r, i, version, applyLatest), group);
      }
      RefreshEdge(r, Retire(r, i), group);
      RefreshEdge(r, r.(all := r.all[i := r.all[i].(forwarding := forwarding)]), group);
    }
  }

  lemma {:induction false} SweepChannel(r: Registry, ids: set<nat>)
    requires RegistryOk(r) && r.closed
    ensures SameChannel(r, RemoveAll(r, ids))
    decreases ids
  {
    hide CoreOk;
    hide CacheOk;
    if ids != {} {
      var i :| i in ids && RemoveAll(r, ids) == RemoveAll(Remove(r, i), ids - {i});
      RemoveChannel(r, i);
      RemoveWhileStopped(r, i);
      SweepChannel(Remove(r, i), ids - {i});
    }
  }

  lemma EndStopChannel(r: Registry)
    requires RegistryOk(r)
    ensures SameChannel(r, EndStop(r))
  {
    hide CacheOk;
    if r.sweep.Some? {
      SweepChannel(r, r.sweep.value);
    }
    hide RemoveAll;
  }

  lemma PrepareClientChannel(r: Registry, i: nat, instance: string, group: string)
    ensures SameChannel(r, PrepareClient(r, i, instance, group))
  {
    hide Count;
  }

  lemma PreparePeerChannel(r: Registry, i: nat, peer: string, preferred: bool)
    ensures SameChannel(r, PreparePeer(r, i, peer, preferred))
  {
    hide Count;
    hide EntryAt;
    hide MustArbitrate;
    hide PeerIdle;
  }

  lemma PlainChannel(r: Registry, a: Action)
    requires a.DoBeginInbound? || a.DoBeginOutboundPeer? || a.DoCommitReceiver? || a.DoCommitOutboundPeer?
    ensures SameChannel(r, Do(r, a))
  {
    hide Count;
    hide EntryAt;
    hide Promote;
  }

  /** Before shutdown, each step replaces the change channel exactly if the availability of some
      group changes. */
  lemma EdgesExact(limits: Limits, actions: seq<Action>, a: Action)
    requires !a.DoBeginStop?
    ensures OneEdge(Run(limits, actions), Do(Run(limits, actions), a))
  {
    RunOk(limits, actions);
    var r := Run(limits, actions);
    hide Run;
    hide CoreOk;
    hide CacheOk;
    hide CommitClient;
    hide BeginRetire;
    hide Release;
    hide PublishForwarding;
    hide EndStop;
    hide CompleteArbitration;
    hide CancelArbitration;
    hide PrepareClient;
    hide PreparePeer;
    match a {
      case DoComplete(peer, id) => CompleteChannel(r, peer, id);
      case DoCancel(peer, id, abort) => CancelChannel(r, peer, id, abort);
      case DoCommitClient(i, version, applyLatest) => ClientEdges(r, i, version, applyLatest, NO_FORWARDING);
      case DoBeginRetire(i) => ClientEdges(r, i, 0, false, NO_FORWARDING);
      case DoRelease(i) => ReleaseEdge(r, i);
      case DoPublish(i, forwarding) => ClientEdges(r, i, 0, false, forwarding);
      case DoEndStop => EndStopChannel(r);
      case DoPrepareClient(i, instance, group) => PrepareClientChannel(r, i, instance, group);
      case DoPreparePeer(i, peer, preferred) => PreparePeerChannel(r, i, peer, preferred);
      case _ => PlainChannel(r, a); hide Do;
    }
  }

  // ---------------------------------------------------------------------------
  // Nothing comes back
  // ---------------------------------------------------------------------------

  /** From r to q no identity is reused and no retiring generation becomes active again. */
  predicate Onward(r: Registry, q: Registry) {
    && r.nextID <= q.nextID
    && (forall i :: i in q.all ==> i in r.all || r.nextID < i)
    && (forall i :: i in q.all && i in r.all && r.all[i].phase == Retiring ==> q.all[i].phase == Retiring)
  }

  lemma OnwardTrans(a: Registry, b: Registry, c: Registry)
    requires CoreOk(a) && Onward(a, b) && Onward(b, c)
    ensures Onward(a, c)
  {
    forall i | i in a.all
      ensures i <= a.nextID
    {
      GenKnown(a, i);
    }
    hide CoreOk;
  }

  lemma EndedOnward(r: Registry, peer: string)
    requires peer in r.arbitrations
    ensures Onward(r, Ended(r, peer)) && Ended(r, peer).nextID == r.nextID
  {
    hide Without;
  }

  lemma RemoveOnward(r: Registry, i: nat)
    requires CoreOk(r)
    ensures Onward(r, Remove(r, i)) && Remove(r, i).nextID == r.nextID
  {
    hide CoreOk;
    hide Without;
    hide Ended;
    if i in r.all {
      var waiting := WaitingFor(r, i);
      if waiting.Some? {
        FinishNow(r, waiting.value);
        EndedOnward(r, waiting.value);
      }
    }
  }

  lemma CompleteOnward(r: Registry, peer: string, id: nat)
    requires CoreOk(r)
    ensures Onward(r, CompleteArbitration(r, peer, id).0)
  {
    hide CoreOk;
    hide Count;
    hide Ended;
    if IsArbitration(r, peer, id) {
      ArbitrationFacts(r, peer);
      EndedOnward(r, peer);
      if r.arbitrations[peer].released {
        CompleteTransfers(r, peer, id);
        ReleasedLeavesSlot(r, peer);
        EndedFrees(r, peer);
      } else {
        CompleteTooEarly(r, peer, id);
      }
      hide CompleteArbitration;
    }
  }

  lemma CancelOnward(r: Registry, peer: string, id: nat, abort: bool)
    requires CoreOk(r)
    ensures Onward(r, CancelArbitration(r, peer, id, abort))
  {
    hide CoreOk;
    hide Ended;
    hide Remove;
    if IsArbitration(r, peer, id) {
      FinishNow(r, peer);
      EndedOk(r, peer);
      EndedOnward(r, peer);
      RemoveOnward(Ended(r, peer), r.arbitrations[peer].inbound);
      OnwardTrans(r, Ended(r, peer), Remove(Ended(r, peer), r.arbitrations[peer].inbound));
      hide FinishArbitration;
    }
  }

  lemma RefreshOnward(r: Registry, q: Registry, group: string)
    requires Onward(r, q)
    ensures Onward(r, Refresh(q, group))
  {
    hide AvailableNow;
  }

  lemma ReleaseOnward(r: Registry, i: nat)
    requires CoreOk(r)
    ensures Onward(r, Release(r, i))
  {
    hide CoreOk;
    hide Remove;
    hide Refresh;
    hide Retired;
    RemoveOnward(r, i);
    if i in r.all && r.all[i].role == Client {
      RefreshOnward(r, Remove(r, i), r.all[i].group);
    }
  }

  lemma CommitOnward(r: Registry, i: nat, version: nat, applyLatest: bool)
    ensures Onward(r, CommitClient(r, i, version, applyLatest))
  {
    hide Refresh;
    hide Promote;
    if Exact(r, i, Client, Prepared) && HasPrepared(r.clients, r.all[i].instance, i) {
      RefreshOnward(r, Committed(r, i, version, applyLatest), r.all[i].group);
    }
  }

  lemma RetireOnward(r: Registry, i: nat)
    ensures Onward(r, BeginRetire(r, i))
  {
    hide Refresh;
    hide Retired;
    if i in r.all {
      RefreshOnward(r, Retire(r, i), r.all[i].group);
    }
  }

  lemma PublishOnward(r: Registry, i: nat, forwarding: Forwarding)
    ensures Onward(r, PublishForwarding(r, i, forwarding))
  {
    hide Refresh;
    hide IsCurrent;
    if i in r.all {
      RefreshOnward(r, r.(all := r.all[i := r.all[i].(forwarding := forwarding)]), r.all[i].group);
    }
    assert IsCurrent(r, i) ==> i in r.all by { CurrentIsLive(r, i); }
  }

  lemma CurrentIsLive(r: Registry, i: nat)
    ensures IsCurrent(r, i) ==> i in r.all
  {
  }

  lemma {:induction false} SweepOnward(r: Registry, ids: set<nat>)
    requires RegistryOk(r) && r.closed
    ensures Onward(r, RemoveAll(r, ids))
    decreases ids
  {
    hide CoreOk;
    hide CacheOk;
    if ids != {} {
      var i :| i in ids && RemoveAll(r, ids) == RemoveAll(Remove(r, i), ids - {i});
      RemoveOnward(r, i);
      RemoveWhileStopped(r, i);
      SweepOnward(Remove(r, i), ids - {i});
      OnwardTrans(r, Remove(r, i), RemoveAll(r, ids));
    }
  }

  lemma BeginOnward(r: Registry, a: Action)
    requires a.DoBeginInbound? || a.DoBeginOutboundPeer? || a.DoBeginStop? || a.DoCommitReceiver? ||
             a.DoCommitOutboundPeer?
    requires RegistryOk(r)
    ensures Onward(r, Do(r, a))
  {
    hide CacheOk;
    hide CoreOk;
    hide Count;
    hide EntryAt;
    hide Promote;
    FreshID(r);
  }

  lemma PrepareClientOnward(r: Registry, i: nat, instance: string, group: string)
    ensures Onward(r, PrepareClient(r, i, instance, group))
  {
    hide Count;
  }

  lemma PreparePeerOnward(r: Registry, i: nat, peer: string, preferred: bool)
    ensures Onward(r, PreparePeer(r, i, peer, preferred))
  {
    hide Count;
    hide EntryAt;
    hide MustArbitrate;
    hide PeerIdle;
  }

  lemma StepOnward(r: Registry, a: Action)
    requires RegistryOk(r)
    ensures Onward(r, Do(r, a))
  {
    hide CoreOk;
    hide CacheOk;
    hide CommitClient;
    hide BeginRetire;
    hide Release;
    hide PublishForwarding;
    hide RemoveAll;
    hide CompleteArbitration;
    hide CancelArbitration;
    hide Onward;
    hide PrepareClient;
    hide PreparePeer;
    match a {
      case DoComplete(peer, id) => CompleteOnward(r, peer, id);
      case DoCancel(peer, id, abort) => CancelOnward(r, peer, id, abort);
      case DoCommitClient(i, version, applyLatest) => CommitOnward(r, i, version, applyLatest);
      case DoBeginRetire(i) => RetireOnward(r, i);
      case DoRelease(i) => ReleaseOnward(r, i);
      case DoPublish(i, forwarding) => PublishOnward(r, i, forwarding);
      case DoEndStop => EndStopOnward(r);
      case DoPrepareClient(i, instance, group) => PrepareClientOnward(r, i, instance, group);
      case DoPreparePeer(i, peer, preferred) => PreparePeerOnward(r, i, peer, preferred);
      case _ => BeginOnward(r, a); hide Do;
    }
  }

  lemma EndStopOnward(r: Registry)
    requires RegistryOk(r)
    ensures Onward(r, EndStop(r))
  {
    hide CacheOk;
    if r.sweep.Some? {
      SweepOnward(r, r.sweep.value);
    }
    hide RemoveAll;
  }

  /** A generation that is retiring never becomes current, and one that was removed never returns. */
  predicate Final(r: Registry, i: nat) {
    i <= r.nextID && (i in r.all ==> r.all[i].phase == Retiring)
  }

  predicate Gone(r: Registry, i: nat) {
    i <= r.nextID && i !in r.all
  }

  lemma {:induction false} FinalForGood(limits: Limits, actions: seq<Action>, k: nat, i: nat)
    requires k <= |actions|
    ensures Final(Run(limits, actions[..k]), i) ==> Final(Run(limits, actions), i)
    ensures Gone(Run(limits, actions[..k]), i) ==> Gone(Run(limits, actions), i)
  {
    hide Do;
    hide RegistryOk;
    if k == |actions| {
      assert actions[..k] == actions;
    } else {
      var before := actions[..|actions| - 1];
      assert before[..k] == actions[..k];
      FinalForGood(limits, before, k, i);
      RunOk(limits, before);
      StepOnward(Run(limits, before), actions[|actions| - 1]);
    }
  }

  /** The token an operation is called with. */
  function TokenOf(a: Action): Option<nat> {
    match a
    case DoPrepareClient(i, _, _) => Some(i)
    case DoPreparePeer(i, _, _) => Some(i)
    case DoCommitReceiver(i) => Some(i)
    case DoCommitOutboundPeer(i) => Some(i)
    case DoCommitClient(i, _, _) => Some(i)
    case DoBeginRetire(i) => Some(i)
    case DoRelease(i) => Some(i)
    case DoPublish(i, _) => Some(i)
    case _ => None
  }

  /** Operations on a token that has been released change nothing, for the rest of the run. */
  lemma ReleasedTokensAreInert(limits: Limits, actions: seq<Action>, k: nat, a: Action)
    requires k <= |actions| && TokenOf(a).Some? && Gone(Run(limits, actions[..k]), TokenOf(a).value)
    ensures Do(Run(limits, actions), a) == Run(limits, actions)
  {
    FinalForGood(limits, actions, k, TokenOf(a).value);
    hide Run;
    hide Count;
  }

  // ---------------------------------------------------------------------------
  // Arbitration
  // ---------------------------------------------------------------------------

  /** While it lasts, the inbound side waits and the loser holds its counted slot and is not current. */
  lemma LoserHoldsItsSlot(limits: Limits, actions: seq<Action>, peer: string)
    requires peer in Run(limits, actions).arbitrations
    ensures var r := Run(limits, actions);
            var arb := r.arbitrations[peer];
            && Exact(r, arb.inbound, Unknown, Pending)
            && arb.loser in r.all && r.all[arb.loser].role == Peer && r.all[arb.loser].phase != Current
            && (arb.released ==> Exact(r, arb.loser, Peer, Retiring))
            && !HasCurrent(r, peer)
  {
    RunOk(limits, actions);
    hide Run;
    hide Count;
    ArbitrationFacts(Run(limits, actions), peer);
    hide CoreOk;
  }

  predicate HasCurrent(r: Registry, peer: string) {
    peer in r.peers && r.peers[peer].current.Some?
  }

  /** However the arbitration ends, the loser goes with it exactly if it had been released. */
  lemma LoserLeavesOnce(r: Registry, peer: string)
    requires CoreOk(r) && peer in r.arbitrations
    ensures FinishArbitration(r, peer) == Ended(r, peer)
    ensures r.arbitrations[peer].loser in Ended(r, peer).all <==> !r.arbitrations[peer].released
    ensures Ended(r, peer).arbitrations == r.arbitrations - {peer}
  {
    hide Count;
    hide Without;
    ArbitrationFacts(r, peer);
    FinishNow(r, peer);
    hide CoreOk;
    hide FinishArbitration;
  }

  /** Losing the inbound side ends its arbitration too. */
  lemma InboundLossEnds(r: Registry, peer: string)
    requires CoreOk(r) && peer in r.arbitrations
    ensures Release(r, r.arbitrations[peer].inbound) == Detach(Ended(r, peer), r.arbitrations[peer].inbound)
  {
    hide Count;
    var i := r.arbitrations[peer].inbound;
    ArbitrationFacts(r, peer);
    FinishNow(r, peer);
    OnlyWaiting(r, peer);
    NotALoser(r, i);
    hide CoreOk;
    hide FinishArbitration;
    hide Ended;
    hide Detach;
  }

  lemma NotALoser(r: Registry, i: nat)
    requires CoreOk(r) && i in r.all && r.all[i].role == Unknown
    ensures !IsLoser(r, i)
  {
    hide SlotsOk;
    hide CountsOk;
    forall peer | peer in r.arbitrations
      ensures r.arbitrations[peer].loser != i
    {
      assert ArbitrationOk(r.all, r.peers, peer, r.arbitrations[peer]);
    }
  }

  lemma OnlyWaiting(r: Registry, peer: string)
    requires CoreOk(r) && peer in r.arbitrations
    ensures WaitingFor(r, r.arbitrations[peer].inbound) == Some(peer)
  {
    hide SlotsOk;
    hide CountsOk;
    hide ArbitrationOk;
  }

  /** Shutdown: after the final sweep the registry is empty, whatever ran between its two phases. */
  lemma StopEmpties(limits: Limits, actions: seq<Action>)
    requires Run(limits, actions).closed
    ensures var q := EndStop(Run(limits, actions));
            q.all == map[] && q.clients == map[] && q.peers == map[] && q.arbitrations == map[] && q.available == {} &&
                !q.faulted
  {
    RunOk(limits, actions);
    hide Run;
    hide RegistryOk;
    hide EndStop;
    SweptClean(Run(limits, actions));
  }
}

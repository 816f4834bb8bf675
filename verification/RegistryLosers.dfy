/** The loser of a simultaneous dial. The caller that opened an arbitration stops and joins the
    loser's owner before it completes or cancels, and the owner releases before it can be joined:
    so an arbitration ends with its loser released, and the loser never becomes current. */
module RegistryLosers {
  import opened Basics
  import opened MapSum
  import opened RegistryState
  import opened RegistryProof
  import opened RegistrySteps
  import opened RegistryRun
  import opened RegistryTheorems

  /** The order the caller keeps: an arbitration is ended once its loser is released, and the
      inbound side is released once it is not awaited any more. */
  predicate Joined(r: Registry, a: Action) {
    match a
    case DoComplete(peer, id) => IsArbitration(r, peer, id) ==> r.arbitrations[peer].released
    case DoCancel(peer, id, _) => IsArbitration(r, peer, id) ==> r.arbitrations[peer].released
    case DoRelease(i) => forall peer :: peer in r.arbitrations ==> r.arbitrations[peer].inbound != i
    case _ => true
  }

  ghost predicate AllJoined(limits: Limits, actions: seq<Action>) {
    actions == [] || (AllJoined(limits, actions[..|actions| - 1])
                      && Joined(Run(limits, actions[..|actions| - 1]), actions[|actions| - 1]))
  }

  /** Prepared, but kept from committing: by its arbitration, or because the registry has stopped. */
  predicate Held(r: Registry, i: nat) {
    Exact(r, i, Peer, Prepared) && r.all[i].outbound && (r.closed || IsLoser(r, i))
  }

  /** A generation that has lost: gone, retiring or held back. */
  predicate Beaten(r: Registry, i: nat) {
    Final(r, i) || (i <= r.nextID && Held(r, i))
  }

  lemma LoserIsBeaten(r: Registry, peer: string)
    requires CoreOk(r) && peer in r.arbitrations
    ensures Beaten(r, r.arbitrations[peer].loser)
  {
    ArbitrationFacts(r, peer);
    GenKnown(r, r.arbitrations[peer].loser);
    hide CoreOk;
  }

  /** Nothing of i and of its arbitration has changed. */
  predicate Untouched(r: Registry, q: Registry, i: nat) {
    && i in r.all && (i in q.all ==> q.all[i] == r.all[i]) && (r.closed ==> q.closed)
    && (IsLoser(r, i) ==> var peer := r.all[i].peer;
                          q.closed || (peer in q.arbitrations && q.arbitrations[peer].loser == i))
  }

  lemma UntouchedStays(r: Registry, q: Registry, i: nat)
    requires i <= r.nextID <= q.nextID && Held(r, i) && Untouched(r, q, i)
    ensures Beaten(q, i)
  {
  }

  // ---------------------------------------------------------------------------
  // The endings
  // ---------------------------------------------------------------------------

  /** A held generation is not the loser of an arbitration that may end, nor its inbound side. */
  lemma HeldIsNeither(r: Registry, i: nat, peer: string)
    requires CoreOk(r) && Held(r, i) && peer in r.arbitrations && r.arbitrations[peer].released
    ensures i != r.arbitrations[peer].loser && i != r.arbitrations[peer].inbound
    ensures IsLoser(r, i) ==> r.all[i].peer != peer
  {
    ArbitrationFacts(r, peer);
    hide CoreOk;
  }

  lemma EndedLeaves(r: Registry, i: nat, peer: string)
    requires CoreOk(r) && Held(r, i) && peer in r.arbitrations && r.arbitrations[peer].released
    ensures Untouched(r, Ended(r, peer), i) && Ended(r, peer).nextID == r.nextID && i in Ended(r, peer).all
  {
    HeldIsNeither(r, i, peer);
    hide CoreOk;
    hide Without;
  }

  lemma CompleteLeaves(r: Registry, i: nat, peer: string, id: nat)
    requires CoreOk(r) && Held(r, i) && Joined(r, DoComplete(peer, id))
    ensures Untouched(r, Do(r, DoComplete(peer, id)), i)
  {
    hide Count;
    hide CoreOk;
    hide Ended;
    if IsArbitration(r, peer, id) {
      EndedLeaves(r, i, peer);
      HeldIsNeither(r, i, peer);
      ArbitrationFacts(r, peer);
      ReleasedLeavesSlot(r, peer);
      EndedFrees(r, peer);
      CompleteTransfers(r, peer, id);
      hide CompleteArbitration;
    }
  }

  lemma UntouchedTrans(r: Registry, m: Registry, q: Registry, i: nat)
    requires Untouched(r, m, i) && Untouched(m, q, i) && i in m.all
    ensures Untouched(r, q, i)
  {
  }

  lemma CancelLeaves(r: Registry, i: nat, peer: string, id: nat, abort: bool)
    requires CoreOk(r) && Held(r, i) && Joined(r, DoCancel(peer, id, abort))
    ensures Untouched(r, Do(r, DoCancel(peer, id, abort)), i)
  {
    if IsArbitration(r, peer, id) {
      var (m, j) := (Ended(r, peer), r.arbitrations[peer].inbound);
      EndedLeaves(r, i, peer);
      HeldIsNeither(r, i, peer);
      CancelIs(r, peer, abort);
      DetachLeaves(m, i, j);
      UntouchedTrans(r, m, Detach(m, j), i);
      hide CancelArbitration;
    }
    hide CoreOk;
    hide Ended;
    hide Detach;
  }

  lemma UnnamedRemoves(r: Registry, j: nat)
    requires forall peer :: peer in r.arbitrations ==> r.arbitrations[peer].inbound != j
    ensures Remove(r, j) == Detach(r, j)
  {
  }

  lemma CancelIs(r: Registry, peer: string, abort: bool)
    requires CoreOk(r) && peer in r.arbitrations
    ensures CancelArbitration(r, peer, r.arbitrations[peer].id, abort) ==
            if abort then Detach(Ended(r, peer), r.arbitrations[peer].inbound) else Ended(r, peer)
  {
    hide CoreOk;
    hide FinishArbitration;
    hide Remove;
    hide Ended;
    hide Detach;
    FinishNow(r, peer);
    EndedOk(r, peer);
    UnnamedRemoves(Ended(r, peer), r.arbitrations[peer].inbound);
  }

  lemma DetachLeaves(r: Registry, i: nat, j: nat)
    requires i in r.all && i != j
    ensures Untouched(r, Detach(r, j), i)
  {
    hide Without;
  }

  lemma RefreshLeaves(r: Registry, q: Registry, group: string, i: nat)
    requires Untouched(r, q, i)
    ensures Untouched(r, Refresh(q, group), i)
  {
    hide AvailableNow;
  }

  /** Releasing another generation. */
  lemma ReleaseLeaves(r: Registry, i: nat, j: nat)
    requires Held(r, i) && i != j && Joined(r, DoRelease(j))
    ensures Untouched(r, Do(r, DoRelease(j)), i)
  {
    hide Refresh;
    hide Retired;
    if j in r.all {
      UnnamedRemoves(r, j);
      DetachLeaves(r, i, j);
      RefreshLeaves(r, Remove(r, j), r.all[j].group, i);
    }
    hide Remove;
    hide Detach;
  }

  /** Releasing the generation itself: it retires, or it goes. */
  lemma ReleaseEnds(r: Registry, i: nat)
    requires CoreOk(r) && i <= r.nextID && Held(r, i) && Joined(r, DoRelease(i))
    ensures Final(Do(r, DoRelease(i)), i)
  {
    if IsLoser(r, i) {
      ArbitrationFacts(r, r.all[i].peer);
    }
    hide CoreOk;
    hide Without;
    hide Retired;
    UnnamedRemoves(r, i);
    hide Remove;
  }

  // ---------------------------------------------------------------------------
  // The other steps
  // ---------------------------------------------------------------------------

  lemma PrepareLeaves(r: Registry, i: nat, a: Action)
    requires Held(r, i) && (a.DoPrepareClient? || a.DoPreparePeer?)
    ensures Untouched(r, Do(r, a), i) && Do(r, a).nextID == r.nextID
  {
    hide Count;
    hide EntryAt;
  }

  lemma BeginLeaves(r: Registry, i: nat, a: Action)
    requires CoreOk(r) && i <= r.nextID && Held(r, i) && (a.DoBeginInbound? || a.DoBeginOutboundPeer? || a.DoBeginStop?)
    ensures Untouched(r, Do(r, a), i) && r.nextID <= Do(r, a).nextID
  {
    hide CoreOk;
    hide Count;
    hide EntryAt;
  }

  /** Held back, a generation cannot commit, and the commits of others do not concern it. */
  lemma CommitLeaves(r: Registry, i: nat, a: Action)
    requires Held(r, i) && (a.DoCommitReceiver? || a.DoCommitOutboundPeer?)
    ensures Untouched(r, Do(r, a), i) && Do(r, a).nextID == r.nextID
  {
    hide Promote;
    hide HasPrepared;
    assert forall j, key :: HasPrepared(r.peers, key, j) ==> key in r.peers by { HasPreparedKnown(r.peers); }
  }

  lemma HasPreparedKnown(entries: map<string, Entry>)
    ensures forall j, key :: HasPrepared(entries, key, j) ==> key in entries
  {
  }

  lemma ClientLeaves(r: Registry, i: nat, a: Action)
    requires Held(r, i) && (a.DoCommitClient? || a.DoPublish?)
    ensures Untouched(r, Do(r, a), i) && Do(r, a).nextID == r.nextID
  {
    hide AvailableNow;
    hide Promote;
  }

  lemma RetireLeaves(r: Registry, i: nat, j: nat)
    requires i <= r.nextID && Held(r, i)
    ensures Beaten(Do(r, DoBeginRetire(j)), i)
  {
    hide AvailableNow;
    hide Retired;
    if j != i {
      assert Untouched(r, BeginRetire(r, j), i);
      UntouchedStays(r, BeginRetire(r, j), i);
    }
  }

  lemma {:induction false} SweepLeaves(r: Registry, i: nat, ids: set<nat>)
    requires RegistryOk(r) && r.closed && Beaten(r, i)
    ensures Beaten(RemoveAll(r, ids), i)
    decreases ids
  {
    hide CoreOk;
    hide CacheOk;
    if ids != {} {
      var j :| j in ids && RemoveAll(r, ids) == RemoveAll(Remove(r, j), ids - {j});
      NoArbitrations(r);
      UnnamedRemoves(r, j);
      RemoveWhileStopped(r, j);
      hide Remove;
      DetachBeaten(r, i, j);
      SweepLeaves(Remove(r, j), i, ids - {j});
    }
  }

  lemma DetachBeaten(r: Registry, i: nat, j: nat)
    requires Beaten(r, i) && r.closed
    ensures Beaten(Detach(r, j), i)
  {
    hide Without;
  }

  // ---------------------------------------------------------------------------
  // Over runs
  // ---------------------------------------------------------------------------

  lemma EndStopLeaves(r: Registry, i: nat)
    requires RegistryOk(r) && Beaten(r, i)
    ensures Beaten(Do(r, DoEndStop), i)
  {
    hide CacheOk;
    if r.sweep.Some? {
      StoppedBySweep(r);
      SweepLeaves(r, i, r.sweep.value);
    }
    hide CoreOk;
    hide RemoveAll;
    hide Beaten;
  }

  lemma StepLeaves(r: Registry, i: nat, a: Action)
    requires CoreOk(r) && i <= r.nextID && Held(r, i) && Joined(r, a)
    requires !a.DoBeginRetire? && !a.DoEndStop? && a != DoRelease(i)
    ensures Untouched(r, Do(r, a), i)
  {
    hide CoreOk;
    hide Held;
    hide Untouched;
    hide Joined;
    hide Do;
    match a {
      case DoComplete(peer, id) => CompleteLeaves(r, i, peer, id);
      case DoCancel(peer, id, abort) => CancelLeaves(r, i, peer, id, abort);
      case DoPrepareClient(_, _, _) => PrepareLeaves(r, i, a);
      case DoPreparePeer(_, _, _) => PrepareLeaves(r, i, a);
      case DoBeginInbound => BeginLeaves(r, i, a);
      case DoBeginOutboundPeer(_) => BeginLeaves(r, i, a);
      case DoBeginStop => BeginLeaves(r, i, a);
      case DoCommitReceiver(_) => CommitLeaves(r, i, a);
      case DoCommitOutboundPeer(_) => CommitLeaves(r, i, a);
      case DoCommitClient(_, _, _) => ClientLeaves(r, i, a);
      case DoPublish(_, _) => ClientLeaves(r, i, a);
      case DoRelease(j) => ReleaseLeaves(r, i, j);
    }
  }

  lemma StepKeepsHeld(r: Registry, i: nat, a: Action)
    requires RegistryOk(r) && i <= r.nextID && Held(r, i) && Joined(r, a)
    ensures Beaten(Do(r, a), i)
  {
    hide CoreOk;
    hide CacheOk;
    hide Held;
    hide Untouched;
    hide Joined;
    hide Do;
    if a.DoBeginRetire? {
      RetireLeaves(r, i, a.gen);
    } else if a.DoEndStop? {
      EndStopLeaves(r, i);
    } else if a == DoRelease(i) {
      ReleaseEnds(r, i);
    } else {
      StepLeaves(r, i, a);
      StepOnward(r, a);
      UntouchedStays(r, Do(r, a), i);
    }
  }

  lemma StoppedBySweep(r: Registry)
    requires CoreOk(r) && r.sweep.Some?
    ensures r.closed
  {
  }

  lemma StepKeepsBeaten(r: Registry, i: nat, a: Action)
    requires RegistryOk(r) && Beaten(r, i) && Joined(r, a)
    ensures Beaten(Do(r, a), i)
  {
    StepOnward(r, a);
    if !Final(r, i) {
      StepKeepsHeld(r, i, a);
    }
    hide Do;
    hide RegistryOk;
    hide Held;
  }

  lemma {:induction false} BeatenForGood(limits: Limits, actions: seq<Action>, k: nat, i: nat)
    requires k <= |actions| && AllJoined(limits, actions) && Beaten(Run(limits, actions[..k]), i)
    ensures Beaten(Run(limits, actions), i)
  {
    hide Do;
    hide RegistryOk;
    hide Beaten;
    hide Joined;
    if k == |actions| {
      assert actions[..k] == actions;
    } else {
      var before := actions[..|actions| - 1];
      assert before[..k] == actions[..k];
      BeatenForGood(limits, before, k, i);
      RunOk(limits, before);
      StepKeepsBeaten(Run(limits, before), i, actions[|actions| - 1]);
    }
  }

  /** Once a generation has been the loser of an arbitration it is not current at any later point
      of the run, through every ending, retirement, release and both phases of Stop. */
  lemma LoserNeverCurrent(limits: Limits, actions: seq<Action>, k: nat, peer: string)
    requires k <= |actions| && AllJoined(limits, actions) && peer in Run(limits, actions[..k]).arbitrations
    ensures var loser := Run(limits, actions[..k]).arbitrations[peer].loser;
            var r := Run(limits, actions);
            !(loser in r.all && r.all[loser].phase == Current) && !IsCurrent(r, loser)
  {
    var early := Run(limits, actions[..k]);
    RunOk(limits, actions[..k]);
    LoserIsBeaten(early, peer);
    BeatenForGood(limits, actions, k, early.arbitrations[peer].loser);
    hide Run;
    hide RegistryOk;
    hide AllJoined;
  }

  // ---------------------------------------------------------------------------
  // A joined ending removes the loser
  // ---------------------------------------------------------------------------

  predicate Ends(r: Registry, peer: string, a: Action) {
    && peer in r.arbitrations
    && (a == DoComplete(peer, r.arbitrations[peer].id) ||
        (a.DoCancel? && a == DoCancel(peer, r.arbitrations[peer].id, a.abort)))
  }

  /** The loser goes with its arbitration; as it is gone for good (FinalForGood), only once. */
  lemma EndingRemovesLoser(r: Registry, peer: string, a: Action)
    requires CoreOk(r) && Ends(r, peer, a) && Joined(r, a)
    ensures r.arbitrations[peer].loser !in Do(r, a).all && peer !in Do(r, a).arbitrations
  {
    hide Count;
    hide Without;
    hide CompleteArbitration;
    hide CancelArbitration;
    hide CoreOk;
    hide Ended;
    var arb := r.arbitrations[peer];
    LoserLeavesOnce(r, peer);
    if a.DoComplete? {
      CompleteTransfers(r, peer, arb.id);
    } else {
      CancelIs(r, peer, a.abort);
    }
  }

  // ---------------------------------------------------------------------------
  // Without the join
  // ---------------------------------------------------------------------------

  lemma PreparedSits(r: Registry, i: nat)
    requires CoreOk(r) && Exact(r, i, Peer, Prepared)
    ensures r.all[i].peer in r.peers && r.peers[r.all[i].peer].prepared == Some(i)
  {
    hide ArbitrationsOk;
    hide CountsOk;
    assert Placed(r.peers, i, r.all[i]);
  }

  lemma CoreOfRegistry(r: Registry)
    requires RegistryOk(r)
    ensures CoreOk(r)
  {
  }

  lemma RunStep(limits: Limits, steps: seq<Action>, k: nat)
    requires k < |steps|
    ensures Run(limits, steps[..k + 1]) == Do(Run(limits, steps[..k]), steps[k])
    ensures k == 0 ==> Run(limits, steps[..k]) == NewRegistry(limits)
  {
    hide Do;
    assert steps[..k + 1][..k] == steps[..k];
  }

  /** What a commit of i does is decided by its own generation and entry. */
  lemma CommitIff(r: Registry, i: nat)
    requires i in r.all ==> r.all[i].phase != Current
    ensures Exact(CommitOutboundPeer(r, i), i, Peer, Current) <==>
            && !r.closed && Exact(r, i, Peer, Prepared) && !IsLoser(r, i) && HasPrepared(r.peers, r.all[i].peer, i)
  {
  }

  /** Whether a step ends the arbitration of a peer: complete, cancel, or the loss of the inbound side. */
  predicate EndsAnyhow(r: Registry, peer: string, a: Action) {
    Ends(r, peer, a) || (peer in r.arbitrations && a == DoRelease(r.arbitrations[peer].inbound))
  }

  lemma TooEarlyIs(r: Registry, peer: string, a: Action)
    requires CoreOk(r) && EndsAnyhow(r, peer, a) && !r.arbitrations[peer].released
    ensures Do(r, a) == Ended(r, peer) || Do(r, a) == Detach(Ended(r, peer), r.arbitrations[peer].inbound)
  {
    hide CoreOk;
    hide CompleteArbitration;
    hide CancelArbitration;
    hide Release;
    hide Ended;
    hide Detach;
    if a.DoComplete? {
      CompleteTooEarly(r, peer, r.arbitrations[peer].id);
    } else if a.DoCancel? {
      CancelIs(r, peer, a.abort);
    } else {
      InboundLossEnds(r, peer);
    }
  }

  lemma TooEarlyShape(r: Registry, peer: string, a: Action)
    requires CoreOk(r) && EndsAnyhow(r, peer, a) && !r.arbitrations[peer].released
    ensures var (q, loser) := (Do(r, a), r.arbitrations[peer].loser);
            && loser in r.all && loser in q.all && q.all[loser] == r.all[loser] && q.peers == r.peers
            && q.arbitrations == r.arbitrations - {peer} && q.closed == r.closed
  {
    hide Do;
    hide CoreOk;
    hide Without;
    ArbitrationFacts(r, peer);
    TooEarlyIs(r, peer, a);
  }

  lemma ReleasedShape(r: Registry, peer: string, a: Action)
    requires CoreOk(r) && EndsAnyhow(r, peer, a) && r.arbitrations[peer].released
    ensures r.arbitrations[peer].loser !in Do(r, a).all
  {
    hide Do;
    hide CoreOk;
    if a.DoRelease? {
      LossRemovesLoser(r, peer);
    } else {
      EndingRemovesLoser(r, peer, a);
    }
  }

  lemma LossRemovesLoser(r: Registry, peer: string)
    requires CoreOk(r) && peer in r.arbitrations && r.arbitrations[peer].released
    ensures r.arbitrations[peer].loser !in Do(r, DoRelease(r.arbitrations[peer].inbound)).all
  {
    hide Release;
    hide CoreOk;
    hide Without;
    hide Ended;
    hide FinishArbitration;
    InboundLossEnds(r, peer);
    LoserLeavesOnce(r, peer);
  }

  /** What the registry alone promises, whoever calls it: however an arbitration ends, its loser
      can commit afterwards exactly if it had not begun to retire. */
  lemma LoserCommitsIff(r: Registry, peer: string, a: Action)
    requires CoreOk(r) && EndsAnyhow(r, peer, a)
    ensures var loser := r.arbitrations[peer].loser;
            Exact(CommitOutboundPeer(Do(r, a), loser), loser, Peer, Current) <==> r.all[loser].phase == Prepared
  {
    var loser := r.arbitrations[peer].loser;
    ArbitrationFacts(r, peer);
    OpenWhileArbitrating(r, peer);
    if r.arbitrations[peer].released {
      ReleasedShape(r, peer, a);
    } else {
      TooEarlyShape(r, peer, a);
      if r.all[loser].phase == Prepared {
        PreparedSits(r, loser);
      }
    }
    hide CoreOk;
    hide Do;
    CommitIff(Do(r, a), loser);
    hide CommitOutboundPeer;
  }

  lemma OpenWhileArbitrating(r: Registry, peer: string)
    requires CoreOk(r) && peer in r.arbitrations
    ensures !r.closed
  {
  }

  const OUT := Gen(Peer, true, Prepared, "", "", "p", true, 0, NO_FORWARDING)
  const IN := Gen(Unknown, false, Pending, "", "", "", false, 0, NO_FORWARDING)
  const DIALLED :=
    NewRegistry(Limits(1, 1, 1)).(nextID := 1, all := map[1 := OUT], peers := map["p" := Entry("", Some(1), None, {})])
  const BOTH := DIALLED.(nextID := 2, all := map[1 := OUT, 2 := IN])
  const CONTESTED :=
    BOTH.(all := map[1 := OUT, 2 := IN.(tried := true)], nextArb := 1,
          arbitrations := map["p" := Arbitration(1, 2, 1, false)])

  lemma Dialled()
    ensures BeginOutboundPeer(NewRegistry(Limits(1, 1, 1)), "p") == DIALLED
  {
    SumZero(OfRole(map[], Peer));
  }

  lemma Both()
    ensures BeginInbound(DIALLED) == BOTH
  {
    SumZero(OfRole(map[], Unknown));
    SetCount(map[], 1, OUT, Unknown);
    hide Count;
    assert map[][1 := OUT] == map[1 := OUT];
  }

  lemma Contested()
    ensures PreparePeer(BOTH, 2, "p", true) == CONTESTED
  {
    hide Count;
  }

  const CONTEST := [DoBeginOutboundPeer("p"), DoBeginInbound, DoPreparePeer(2, "p", true)]

  lemma ContestRuns()
    ensures Run(Limits(1, 1, 1), CONTEST) == CONTESTED
  {
    var limits := Limits(1, 1, 1);
    RunStep(limits, CONTEST, 0);
    RunStep(limits, CONTEST, 1);
    RunStep(limits, CONTEST, 2);
    assert CONTEST[..3] == CONTEST;
    hide Run;
    Dialled();
    Both();
    Contested();
    hide BeginOutboundPeer;
    hide BeginInbound;
    hide PreparePeer;
  }

  /** The join is needed: generation 1 dials the peer "p", generation 2 comes in from it and is
      preferred; the arbitration is cancelled before generation 1 is released, and it commits. */
  lemma UnjoinedLoserWins()
    ensures var r := Run(Limits(1, 1, 1), CONTEST);
            && r.arbitrations == map["p" := Arbitration(1, 2, 1, false)] && !Joined(r, DoCancel("p", 1, false))
            && Exact(CommitOutboundPeer(Do(r, DoCancel("p", 1, false)), 1), 1, Peer, Current)
  {
    hide Run;
    hide RegistryOk;
    hide CoreOk;
    hide CommitOutboundPeer;
    hide Do;
    ContestRuns();
    RunOk(Limits(1, 1, 1), CONTEST);
    CoreOfRegistry(CONTESTED);
    LoserCommitsIff(CONTESTED, "p", DoCancel("p", 1, false));
  }

  const RESOLVED := CONTEST + [DoRelease(1), DoComplete("p", 1)]

  lemma LoserReleases()
    ensures var r := Release(CONTESTED, 1);
            r.arbitrations == map["p" := Arbitration(1, 2, 1, true)] && Exact(r, 1, Peer, Retiring)
  {
  }

  lemma JoinedSnoc(limits: Limits, actions: seq<Action>, a: Action)
    requires AllJoined(limits, actions) && Joined(Run(limits, actions), a)
    ensures AllJoined(limits, actions + [a]) && Run(limits, actions + [a]) == Do(Run(limits, actions), a)
  {
    hide Do;
    hide Joined;
    assert (actions + [a])[..|actions|] == actions;
  }

  lemma ContestJoined()
    ensures AllJoined(Limits(1, 1, 1), CONTEST)
  {
    hide Run;
    hide Do;
    var limits := Limits(1, 1, 1);
    assert AllJoined(limits, []);
    JoinedSnoc(limits, [], CONTEST[0]);
    JoinedSnoc(limits, [] + [CONTEST[0]], CONTEST[1]);
    JoinedSnoc(limits, [] + [CONTEST[0]] + [CONTEST[1]], CONTEST[2]);
    assert [] + [CONTEST[0]] + [CONTEST[1]] + [CONTEST[2]] == CONTEST;
  }

  /** With the join the same contest ends as it should: the loser is released, the arbitration
      completes, the inbound side has the peer's slot and the loser is gone. */
  lemma JoinedContest()
    ensures AllJoined(Limits(1, 1, 1), RESOLVED)
    ensures var r := Run(Limits(1, 1, 1), RESOLVED); Exact(r, 2, Peer,
                                                           Prepared) && 1 !in r.all && "p" !in r.arbitrations
  {
    hide Run;
    hide AllJoined;
    hide RegistryOk;
    hide CoreOk;
    hide Count;
    hide Ended;
    var limits := Limits(1, 1, 1);
    var released := CONTEST + [DoRelease(1)];
    ContestRuns();
    ContestJoined();
    JoinedSnoc(limits, CONTEST, DoRelease(1));
    LoserReleases();
    hide Release;
    RunOk(limits, released);
    CoreOfRegistry(Run(limits, released));
    JoinedSnoc(limits, released, DoComplete("p", 1));
    assert released + [DoComplete("p", 1)] == RESOLVED;
    EndingRemovesLoser(Run(limits, released), "p", DoComplete("p", 1));
    CompleteTransfers(Run(limits, released), "p", 1);
    hide CompleteArbitration;
  }
}

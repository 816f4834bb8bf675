/** Every step of a link keeps its invariant. */
module MeshLinkProof {
  import opened Basics
  import opened MeshWire
  import opened MeshLog
  import opened MeshReceiver
  import opened MeshStream
  import opened MeshLink

  lemma NewLinkOk(env: Env, log: seq<Delta>, cut: Cut)
    requires LogOk(env, log) && CutOk(env, log, cut) && cut.base == |log|
    ensures LinkOk(env, log, NewLink(cut))
  {
  }

  lemma SendSnapshotOk(env: Env, log: seq<Delta>, l: Link)
    requires LinkOk(env, log, l)
    ensures LinkOk(env, log, SendSnapshot(env, log, l))
  {
    hide ListsGroups;
    hide ListsPaths;
    hide Knows;
    hide Holds;
    if SendSnapshot(env, log, l) != l {
      EmitsSnoc(env, log, l.cut, l.fence, l.read, l.wire, l.spot);
      NextSpotValid(env, log, l.cut, l.fence, l.spot);
    }
  }

  lemma ReadFenceOk(env: Env, log: seq<Delta>, l: Link)
    requires LinkOk(env, log, l)
    ensures LinkOk(env, log, ReadFence(|log|, l))
  {
    hide ListsGroups;
    hide ListsPaths;
    hide Holds;
    if ReadFence(|log|, l) != l {
      assert l.spot == AfterPaths(l.cut);
      EmitsFence(env, log, l.cut, |log|, l.read, l.wire);
    }
  }

  /** The catch-up never sees a gap: the frame it takes belongs to the revision after the
      last one sent, and not beyond the fence. */
  lemma TakeNeverGaps(env: Env, log: seq<Delta>, l: Link)
    requires LinkOk(env, log, l) && !l.stopped && l.hand == Free
    requires l.subscribed && !l.queue.failed && l.queue.frames != []
    ensures !Gap(l, l.queue.frames[0])
  {
    NextPosValid(env, log, l.at);
  }

  lemma TakeFrameOk(env: Env, log: seq<Delta>, l: Link)
    requires LinkOk(env, log, l)
    ensures LinkOk(env, log, TakeFrame(l))
  {
    hide ListsGroups;
    hide ListsPaths;
    hide Knows;
    hide Emits;
  }

  lemma WriteFrameOk(env: Env, log: seq<Delta>, l: Link)
    requires LinkOk(env, log, l)
    ensures LinkOk(env, log, WriteFrame(log, l))
  {
    hide ListsGroups;
    hide ListsPaths;
    hide Knows;
    hide Holds;
    if WriteFrame(log, l) != l {
      EmitsSnoc(env, log, l.cut, l.fence, l.read, l.wire, l.spot);
      NextSpotValid(env, log, l.cut, l.fence, l.spot);
    }
  }

  lemma PopOk(env: Env, q: Queue, f: Frame)
    requires QueueOk(env, q)
    ensures QueueOk(env, Pop(env, q, f))
  {
  }

  lemma DoneFrameOk(env: Env, log: seq<Delta>, l: Link)
    requires LinkOk(env, log, l)
    ensures LinkOk(env, log, DoneFrame(env, log, l))
  {
    hide ListsGroups;
    hide ListsPaths;
    hide Knows;
    hide Emits;
    if l.hand.Finished? {
      PopOk(env, l.queue, l.hand.frame);
      NextPosValid(env, log, l.at);
    }
  }

  lemma SendEndOk(env: Env, log: seq<Delta>, l: Link)
    requires LinkOk(env, log, l)
    ensures LinkOk(env, log, SendEnd(env, log, l))
  {
    hide ListsGroups;
    hide ListsPaths;
    hide Knows;
    hide Holds;
    if SendEnd(env, log, l) != l {
      assert AtEnd(l.fence, l.spot);
      EmitsSnoc(env, log, l.cut, l.fence, l.read, l.wire, l.spot);
      NextSpotValid(env, log, l.cut, l.fence, l.spot);
    }
  }

  lemma StopOk(env: Env, log: seq<Delta>, l: Link)
    requires LinkOk(env, log, l)
    ensures LinkOk(env, log, ClearQueue(l))
    ensures LinkOk(env, log, StopSender(l))
    ensures LinkOk(env, log, Unsubscribe(l))
  {
    hide ListsGroups;
    hide ListsPaths;
    hide Knows;
    hide Emits;
    hide Holds;
  }

  lemma StopReceiverOk(env: Env, log: seq<Delta>, l: Link)
    requires LinkOk(env, log, l)
    ensures LinkOk(env, log, StopReceiver(l))
  {
    hide ListsGroups;
    hide ListsPaths;
    hide Knows;
    hide Emits;
    hide Holds;
  }

  lemma ReadInitialOk(env: Env, log: seq<Delta>, l: Link, ok: bool)
    requires LinkOk(env, log, l)
    ensures LinkOk(env, log, ReadInitial(env, log, l, ok))
  {
    hide ListsGroups;
    hide ListsPaths;
    hide Holds;
    hide Receive;
    if ReadInitial(env, log, l, ok) != l {
      ReceiveNext(env, log, l.cut, l.fence, l.read, l.rc);
    }
  }

  lemma ReadSessionUnapplied(env: Env, log: seq<Delta>, l: Link)
    requires LinkOk(env, log, l) && l.wire != [] && l.rc.Live? && !l.apply.failed
    ensures var next := ReadSession(env, log, l);
            !next.apply.failed ==> Emits(env, log, l.cut, l.fence, l.applied, Messages(Unapplied(next)), next.read)
  {
    hide ListsGroups;
    hide ListsPaths;
    hide Knows;
    hide Holds;
    var f := Frame(0, false, l.wire[0]);
    EmitsSnoc(env, log, l.cut, l.fence, l.applied, Messages(Unapplied(l)), l.read);
    var next := ReadSession(env, log, l);
    if !next.apply.failed {
      assert Unapplied(next) == Unapplied(l) + [f];
      assert Messages(Unapplied(next)) == Messages(Unapplied(l)) + [f.message];
    }
  }

  lemma ReadSessionOk(env: Env, log: seq<Delta>, l: Link)
    requires LinkOk(env, log, l)
    ensures LinkOk(env, log, ReadSession(env, log, l))
  {
    hide ListsGroups;
    hide ListsPaths;
    hide Holds;
    var next := ReadSession(env, log, l);
    if next != l {
      assert SenderOk(env, log, next);
      PushOk(env, l.apply, [Frame(0, false, l.wire[0])]);
      ReadSessionUnapplied(env, log, l);
    }
  }

  lemma TakeApplyOk(env: Env, log: seq<Delta>, l: Link)
    requires LinkOk(env, log, l)
    ensures LinkOk(env, log, TakeApply(l))
  {
    hide ListsGroups;
    hide ListsPaths;
    hide Holds;
  }

  lemma ApplyTakenOk(env: Env, log: seq<Delta>, l: Link, ok: bool)
    requires LinkOk(env, log, l)
    ensures LinkOk(env, log, ApplyTaken(env, log, l, ok))
  {
    hide ListsGroups;
    hide ListsPaths;
    hide Holds;
    hide Receive;
    hide StandsAt;
    if ApplyTaken(env, log, l, ok) != l {
      ReceiveNext(env, log, l.cut, l.fence, l.applied, l.rc);
      if !l.apply.failed {
        assert Messages(l.apply.frames)[1..] == Messages(l.apply.frames[1..]);
      }
    }
  }

  lemma DoneApplyOk(env: Env, log: seq<Delta>, l: Link)
    requires LinkOk(env, log, l)
    ensures LinkOk(env, log, DoneApply(env, l))
  {
    if l.applyHand.Finished? {
      PopOk(env, l.apply, l.applyHand.frame);
    }
  }

  // ---------------------------------------------------------------------------
  // Publication
  // ---------------------------------------------------------------------------

  lemma StandsStable(log: seq<Delta>, d: Delta, n: nat, st: Staged)
    requires StandsAt(log, n, st)
    ensures StandsAt(log + [d], n, st)
  {
    StateAtStable(log, [d], n);
  }

  lemma KnowsStable(env: Env, log: seq<Delta>, d: Delta, cut: Cut, fence: Option<nat>, spot: Spot, rc: Receiver)
    requires LogOk(env, log) && LogOk(env, log + [d])
    requires ValidSpot(log, cut, fence, spot) && Knows(env, log, cut, fence, spot, rc)
    ensures ValidSpot(log + [d], cut, fence, spot) && Knows(env, log + [d], cut, fence, spot, rc)
  {
    hide ListsGroups;
    hide ListsPaths;
    SpotStable(env, log, d, cut, fence, spot);
    if rc != Failed && spot.AtDelta? {
      StandsStable(log, d, spot.pos.revision - 1, rc.staged);
    }
  }

  lemma CutStable(env: Env, log: seq<Delta>, d: Delta, cut: Cut)
    requires CutOk(env, log, cut)
    ensures CutOk(env, log + [d], cut)
  {
    StateAtStable(log, [d], cut.base);
  }

  lemma SenderStable(env: Env, log: seq<Delta>, d: Delta, l: Link)
    requires LogOk(env, log) && LogOk(env, log + [d]) && DeltaOk(env, d)
    requires SenderOk(env, log, l)
    ensures SenderOk(env, log + [d], Broadcast(env, l, FramesOf(env, |log| + 1, d)))
  {
    hide ListsGroups;
    hide ListsPaths;
    var frames := FramesOf(env, |log| + 1, d);
    SpotStable(env, log, d, l.cut, l.fence, l.spot);
    PushOk(env, l.queue, frames);
    if l.at.revision == |log| + 1 {
      FirstPosValid(env, log + [d], |log|);
    }
    if l.subscribed && !l.queue.failed {
      HoldsExtends(env, log, d, l.at, l.queue.frames);
    }
  }

  lemma ReceiverStable(env: Env, log: seq<Delta>, d: Delta, l: Link)
    requires LogOk(env, log) && LogOk(env, log + [d])
    requires ReceiverOk(env, log, l)
    ensures ReceiverOk(env, log + [d], l)
  {
    hide ListsGroups;
    hide ListsPaths;
    hide Knows;
    KnowsStable(env, log, d, l.cut, l.fence, l.applied, l.rc);
    SpotStable(env, log, d, l.cut, l.fence, l.applied);
    EmitsStable(env, log, d, l.cut, l.fence, l.read, l.wire, l.spot);
    if l.rc.Live? && !l.apply.failed {
      EmitsStable(env, log, d, l.cut, l.fence, l.applied, Messages(Unapplied(l)), l.read);
    }
  }

  /** A publication reaches every subscribed queue whole, or fails that queue. */
  lemma BroadcastOk(env: Env, log: seq<Delta>, d: Delta, l: Link)
    requires LinkOk(env, log, l) && DeltaOk(env, d)
    ensures LinkOk(env, log + [d], Broadcast(env, l, FramesOf(env, |log| + 1, d)))
  {
    hide ListsGroups;
    hide ListsPaths;
    hide Knows;
    hide Emits;
    hide Holds;
    hide StandsAt;
    var next := Broadcast(env, l, FramesOf(env, |log| + 1, d));
    assert LogOk(env, log + [d]);
    CutStable(env, log, d, l.cut);
    SenderStable(env, log, d, l);
    ReceiverStable(env, log, d, l);
    assert ReceiverOk(env, log + [d], next);
  }
}

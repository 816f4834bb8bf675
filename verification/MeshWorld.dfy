/** A publishing server with any number of peer links, under every interleaving of
    publications, subscriptions, sending, reading and applying. */
module MeshWorld {
  import opened Basics
  import opened MeshWire
  import opened MeshLog
  import opened MeshReceiver
  import opened MeshStream
  import opened MeshLink
  import opened MeshLinkProof

  /** `log` is the history of what was published; the server itself keeps only the indexes. */
  datatype World = World(
    closed: bool, revision: nat, groups: map<string, Decl>, paths: map<string, Path>,
    log: seq<Delta>, links: map<nat, Link>)

  const START := World(false, 0, map[], map[], [], map[])

  datatype LinkAction =
    | DoSendSnapshot | DoReadFence | DoTake | DoWrite | DoDone | DoSendEnd
    | DoClearQueue | DoStopSender | DoUnsubscribe
    | DoReadInitial(ok: bool) | DoReadSession | DoTakeApply | DoApply(ok: bool) | DoDoneApply | DoStopReceiver

  datatype Action =
    | PublishGroup(decl: Decl)
    | PublishPath(path: Path, fits: bool)
    | WithdrawPath(pathId: string)
    | Subscribe(link: nat, order: Cut)
    | OnLink(link: nat, step: LinkAction)
    | Close

  function Publish(env: Env, w: World, d: Delta): World
    requires DeltaOk(env, d)
  {
    var frames := FramesOf(env, w.revision + 1, d);
    var after := ApplyDelta(Published(w.groups, w.paths), d);
    World(w.closed, w.revision + 1, after.groups, after.paths, w.log + [d],
          map id | id in w.links :: Broadcast(env, w.links[id], frames))
  }

  /** commitClientGroup publishes a record the ledger holds, and only a newer version. */
  predicate MayPublishGroup(env: Env, w: World, decl: Decl) {
    && !w.closed
    && DeltaOk(env, GroupDelta(decl))
    && (decl.key.id in w.groups ==> decl.key.version > w.groups[decl.key.id].key.version)
  }

  function OtherPathsOfGroup(w: World, p: Path): set<string> {
    set id | id in w.paths && w.paths[id].groupId == p.groupId && id != p.pathId
  }

  /** publishPath; `fits` is the capacity check on retained path records. */
  predicate MayPublishPath(env: Env, w: World, p: Path, fits: bool) {
    && !w.closed && fits
    && p.groupId in w.groups && w.groups[p.groupId].key.version == p.ruleVersion
    && |p.servers| <= env.limits.maxPathHops
    && |OtherPathsOfGroup(w, p)| < env.limits.maxPathsPerGroup
    && ValidMessage(MsgPath(p))
  }

  function StepLink(env: Env, w: World, l: Link, a: LinkAction): Link {
    match a
    case DoSendSnapshot => SendSnapshot(env, w.log, l)
    case DoReadFence => ReadFence(w.revision, l)
    case DoTake => TakeFrame(l)
    case DoWrite => WriteFrame(w.log, l)
    case DoDone => DoneFrame(env, w.log, l)
    case DoSendEnd => SendEnd(env, w.log, l)
    case DoClearQueue => ClearQueue(l)
    case DoStopSender => StopSender(l)
    case DoUnsubscribe => Unsubscribe(l)
    case DoReadInitial(ok) => ReadInitial(env, w.log, l, ok)
    case DoReadSession => ReadSession(env, w.log, l)
    case DoTakeApply => TakeApply(l)
    case DoApply(ok) => ApplyTaken(env, w.log, l, ok)
    case DoDoneApply => DoneApply(env, l)
    case DoStopReceiver => StopReceiver(l)
  }

  /** subscribe takes every published record once, in whatever order it sorts them. */
  predicate MaySubscribe(env: Env, w: World, link: nat, order: Cut) {
    && !w.closed && link !in w.links
    && order.base == w.revision
    && ListsGroups(order.groups, w.groups)
    && ListsPaths(order.paths, w.paths)
    && (forall i :: 0 <= i < |order.paths| ==> order.paths[i].sequence == 0)
  }

  /** One atomic step; an action that is not enabled changes nothing. */
  function Do(env: Env, w: World, a: Action): World {
    match a
    case PublishGroup(decl) => if MayPublishGroup(env, w, decl) then Publish(env, w, GroupDelta(decl)) else w
    case PublishPath(p, fits) => if MayPublishPath(env, w, p, fits) then Publish(env, w, PathDelta(p)) else w
    case WithdrawPath(id) => if !w.closed && id in w.paths && id != "" then Publish(env, w, WithdrawDelta(id)) else w
    case Subscribe(link, order) =>
      if MaySubscribe(env, w, link, order) then w.(links := w.links[link := NewLink(order)]) else w
    case OnLink(link, step) =>
      if link in w.links then w.(links := w.links[link := StepLink(env, w, w.links[link], step)]) else w
    case Close => w.(closed := true, groups := map[], paths := map[])
  }

  function Run(env: Env, actions: seq<Action>): World {
    if actions == [] then START else Do(env, Run(env, actions[..|actions| - 1]), actions[|actions| - 1])
  }

  // ---------------------------------------------------------------------------
  // The invariant of every run
  // ---------------------------------------------------------------------------

  predicate ServerOk(env: Env, w: World) {
    && LogOk(env, w.log)
    && w.revision == |w.log|
    && (!w.closed ==> Published(w.groups, w.paths) == StateAt(w.log, |w.log|))
  }

  predicate WorldOk(env: Env, w: World) {
    && ServerOk(env, w)
    && (forall id :: id in w.links ==> LinkOk(env, w.log, w.links[id]))
  }

  lemma StepLinkOk(env: Env, w: World, l: Link, a: LinkAction)
    requires ServerOk(env, w) && LinkOk(env, w.log, l)
    ensures LinkOk(env, w.log, StepLink(env, w, l, a))
  {
    hide LinkOk;
    match a
    case DoSendSnapshot => SendSnapshotOk(env, w.log, l);
    case DoReadFence => ReadFenceOk(env, w.log, l);
    case DoTake => TakeFrameOk(env, w.log, l);
    case DoWrite => WriteFrameOk(env, w.log, l);
    case DoDone => DoneFrameOk(env, w.log, l);
    case DoSendEnd => SendEndOk(env, w.log, l);
    case DoClearQueue => StopOk(env, w.log, l);
    case DoStopSender => StopOk(env, w.log, l);
    case DoUnsubscribe => StopOk(env, w.log, l);
    case DoReadInitial(ok) => ReadInitialOk(env, w.log, l, ok);
    case DoReadSession => ReadSessionOk(env, w.log, l);
    case DoTakeApply => TakeApplyOk(env, w.log, l);
    case DoApply(ok) => ApplyTakenOk(env, w.log, l, ok);
    case DoDoneApply => DoneApplyOk(env, w.log, l);
    case DoStopReceiver => StopReceiverOk(env, w.log, l);
  }

  lemma PublishOk(env: Env, w: World, d: Delta)
    requires WorldOk(env, w) && !w.closed && DeltaOk(env, d)
    ensures WorldOk(env, Publish(env, w, d))
  {
    hide LinkOk;
    hide Broadcast;
    var next := Publish(env, w, d);
    StateAtStable(w.log, [d], |w.log|);
    assert LogOk(env, next.log);
    assert StateAt(next.log, |next.log|) == ApplyDelta(StateAt(next.log, |w.log|), d);
    forall id | id in next.links
      ensures LinkOk(env, next.log, next.links[id])
    {
      BroadcastOk(env, w.log, d, w.links[id]);
    }
  }

  lemma SubscribeOk(env: Env, w: World, link: nat, order: Cut)
    requires WorldOk(env, w) && MaySubscribe(env, w, link, order)
    ensures WorldOk(env, w.(links := w.links[link := NewLink(order)]))
  {
    forall i | 0 <= i < |order.groups|
      ensures 0 < |order.groups[i].bytes| < U32_LIMIT && env.parse(order.groups[i].bytes) == Some(order.groups[i].key)
    {
      StateAtOk(env, w.log, |w.log|, order.groups[i].key.id);
    }
    assert CutOk(env, w.log, order);
    NewLinkOk(env, w.log, order);
  }

  lemma DoOk(env: Env, w: World, a: Action)
    requires WorldOk(env, w)
    ensures WorldOk(env, Do(env, w, a))
  {
    hide LinkOk;
    hide Publish;
    hide StepLink;
    hide ListsGroups;
    hide ListsPaths;
    match a
    case PublishGroup(decl) => if MayPublishGroup(env, w, decl) { PublishOk(env, w, GroupDelta(decl)); }
    case PublishPath(p, fits) => if MayPublishPath(env, w, p, fits) { PublishOk(env, w, PathDelta(p)); }
    case WithdrawPath(id) => if !w.closed && id in w.paths && id != "" { PublishOk(env, w, WithdrawDelta(id)); }
    case Subscribe(link, order) => if MaySubscribe(env, w, link, order) { SubscribeOk(env, w, link, order); }
    case OnLink(link, step) => if link in w.links { StepLinkOk(env, w, w.links[link], step); }
    case Close =>
  }

  lemma {:induction false} RunOk(env: Env, actions: seq<Action>)
    ensures WorldOk(env, Run(env, actions))
  {
    if actions != [] {
      RunOk(env, actions[..|actions| - 1]);
      DoOk(env, Run(env, actions[..|actions| - 1]), actions[|actions| - 1]);
    }
  }

  // ---------------------------------------------------------------------------
  // Main results
  // ---------------------------------------------------------------------------

  lemma LiveStands(env: Env, log: seq<Delta>, l: Link)
    requires LinkOk(env, log, l) && l.rc.Live?
    ensures StandsAt(log, l.rc.applier.revision, l.rc.staged)
  {
    hide ListsGroups;
    hide ListsPaths;
    hide Emits;
    hide Holds;
  }

  /** Replication: in every run, a receiver that has accepted the initial state and stands
      at revision n holds exactly the groups and paths the sender had published at n. */
  lemma Replicates(env: Env, actions: seq<Action>, id: nat)
    requires id in Run(env, actions).links
    requires Run(env, actions).links[id].rc.Live?
    ensures var w := Run(env, actions);
            var rc := w.links[id].rc;
            var n := rc.applier.revision;
            && n <= w.revision == |w.log|
            && GroupView(rc.staged.groups) == StateAt(w.log, n).groups
            && PathView(rc.staged.items) == StateAt(w.log, n).paths
            && UniqueGroups(rc.staged.groups) && UniquePaths(rc.staged.items)
  {
    hide ListsGroups;
    hide ListsPaths;
    hide Do;
    hide LinkOk;
    hide GroupView;
    hide PathView;
    hide StateAt;
    RunOk(env, actions);
    var w := Run(env, actions);
    var l := w.links[id];
    assert LinkOk(env, w.log, l);
    var n := l.rc.applier.revision;
    LiveStands(env, w.log, l);
    GroupViewOf(l.rc.staged.groups, StateAt(w.log, n).groups);
    PathViewOf(l.rc.staged.items, StateAt(w.log, n).paths);
  }

  /** No gap: in every run, a queue that has not failed holds exactly the frames of the
      revisions after the last one sent, in order and within both limits. */
  lemma QueueIsContiguous(env: Env, actions: seq<Action>, id: nat)
    requires id in Run(env, actions).links
    requires var l := Run(env, actions).links[id]; l.subscribed && !l.queue.failed
    ensures var w := Run(env, actions);
            var l := w.links[id];
            && LogOk(env, w.log)
            && l.at.revision == l.sent + 1
            && Holds(env, w.log, l.at, l.queue.frames)
            && |l.queue.frames| <= env.limits.maxQueueMessages
            && l.queue.bytes == FrameBytes(env, l.queue.frames) <= env.limits.maxQueueBytes
  {
    RunOk(env, actions);
    assert LinkOk(env, Run(env, actions).log, Run(env, actions).links[id]);
  }

  /** The gap check of the catch-up never fires: a sender stops only because its queue
      failed or because it was told to. */
  lemma CatchUpNeverGaps(env: Env, actions: seq<Action>, id: nat)
    requires id in Run(env, actions).links
    requires var l := Run(env, actions).links[id];
             !l.stopped && l.hand == Free && !l.queue.failed && l.queue.frames != []
    ensures !Gap(Run(env, actions).links[id], Run(env, actions).links[id].queue.frames[0])
  {
    RunOk(env, actions);
    var w := Run(env, actions);
    assert LinkOk(env, w.log, w.links[id]);
    TakeNeverGaps(env, w.log, w.links[id]);
  }

  lemma FailedStep(env: Env, w: World, a: Action, id: nat)
    requires id in w.links && w.links[id].queue.failed
    ensures id in Do(env, w, a).links
    ensures Do(env, w, a).links[id].queue.failed
    ensures Do(env, w, a).links[id].hand.Holding? ==> w.links[id].hand == Do(env, w, a).links[id].hand
  {
    if a.OnLink? && a.link == id {
      FailedLinkForGood(env, w, w.links[id], a.step);
    }
  }

  /** A queue that failed at some point of a run has failed for good, and hands out no further
      frame: whatever its sender still holds it held then. */
  lemma {:induction false} FailedForGood(env: Env, actions: seq<Action>, k: nat, id: nat)
    requires k <= |actions|
    requires id in Run(env, actions[..k]).links && Run(env, actions[..k]).links[id].queue.failed
    ensures var (early, late) := (Run(env, actions[..k]), Run(env, actions));
            && id in late.links && late.links[id].queue.failed
            && (late.links[id].hand.Holding? ==> late.links[id].hand == early.links[id].hand)
  {
    hide Do;
    if k == |actions| {
      assert actions[..k] == actions;
    } else {
      var before := actions[..|actions| - 1];
      assert before[..k] == actions[..k];
      FailedForGood(env, before, k, id);
      FailedStep(env, Run(env, before), actions[|actions| - 1], id);
    }
  }

  lemma FailedLinkForGood(env: Env, w: World, l: Link, a: LinkAction)
    requires l.queue.failed
    ensures StepLink(env, w, l, a).queue.failed
    ensures StepLink(env, w, l, a).hand.Holding? ==> l.hand == StepLink(env, w, l, a).hand
  {
  }

  lemma LogMatches(env: Env, w: World)
    requires WorldOk(env, w)
    ensures |w.log| == w.revision
  {
  }

  lemma DoExtends(env: Env, w: World, a: Action)
    ensures Do(env, w, a).log == w.log || exists d :: Do(env, w, a).log == w.log + [d]
  {
  }

  /** Revisions only grow, by one per publication, and what was published stays history. */
  lemma HistoryGrows(env: Env, actions: seq<Action>, a: Action)
    ensures var before := Run(env, actions);
            var after := Run(env, actions + [a]);
            && (after.log == before.log || exists d :: after.log == before.log + [d])
            && |after.log| == after.revision
            && (after.log != before.log ==> after.revision == before.revision + 1)
  {
    hide WorldOk;
    hide Do;
    RunOk(env, actions);
    RunOk(env, actions + [a]);
    assert (actions + [a])[..|actions|] == actions;
    LogMatches(env, Run(env, actions));
    LogMatches(env, Run(env, actions + [a]));
    DoExtends(env, Run(env, actions), a);
  }

  lemma VersionStep(env: Env, w: World, a: Action, id: string)
    requires id in w.groups
    ensures !Do(env, w, a).closed ==> id in Do(env, w, a).groups
    ensures id in Do(env, w, a).groups ==> w.groups[id].key.version <= Do(env, w, a).groups[id].key.version
  {
  }

  lemma ClosedStep(env: Env, w: World, a: Action)
    requires w.closed && w.groups == map[]
    ensures Do(env, w, a).closed && Do(env, w, a).groups == map[]
  {
  }

  lemma CloseClears(env: Env, w: World, a: Action)
    requires w.closed ==> w.groups == map[]
    ensures Do(env, w, a).closed ==> Do(env, w, a).groups == map[]
  {
  }

  lemma {:induction false} ClosedIsClear(env: Env, actions: seq<Action>)
    ensures Run(env, actions).closed ==> Run(env, actions).groups == map[]
  {
    hide Do;
    if actions != [] {
      ClosedIsClear(env, actions[..|actions| - 1]);
      CloseClears(env, Run(env, actions[..|actions| - 1]), actions[|actions| - 1]);
    }
  }

  /** Until the server closes, a published group stays published and its version never decreases. */
  lemma {:induction false} VersionsNeverDecrease(env: Env, actions: seq<Action>, k: nat, id: string)
    requires k <= |actions| && id in Run(env, actions[..k]).groups
    ensures var (early, late) := (Run(env, actions[..k]), Run(env, actions));
            && (!late.closed ==> id in late.groups)
            && (id in late.groups ==> early.groups[id].key.version <= late.groups[id].key.version)
  {
    hide Do;
    if k == |actions| {
      assert actions[..k] == actions;
    } else {
      var before, a := actions[..|actions| - 1], actions[|actions| - 1];
      assert before[..k] == actions[..k];
      VersionsNeverDecrease(env, before, k, id);
      ClosedIsClear(env, before);
      if Run(env, before).closed {
        ClosedStep(env, Run(env, before), a);
      } else {
        VersionStep(env, Run(env, before), a, id);
      }
    }
  }
}

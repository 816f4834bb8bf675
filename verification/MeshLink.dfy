/** One peer link between a publishing server and a receiving one: the bounded outbound
    queue, the sending goroutine, the wire, and the bounded apply queue of the receiver. */
module MeshLink {
  import opened Basics
  import opened MeshWire
  import opened MeshLog
  import opened MeshReceiver
  import opened MeshStream

  // ---------------------------------------------------------------------------
  // The bounded queue
  // ---------------------------------------------------------------------------

  datatype Queue = Queue(frames: seq<Frame>, bytes: int, failed: bool)

  const EMPTY_QUEUE := Queue([], 0, false)

  function FrameBytes(env: Env, frames: seq<Frame>): nat {
    if frames == [] then 0 else env.size(frames[0].message) + FrameBytes(env, frames[1..])
  }

  /** All frames of a revision enter together, or the queue fails for good. */
  function Push(env: Env, q: Queue, frames: seq<Frame>): Queue {
    if q.failed then q
    else if |q.frames| + |frames| > env.limits.maxQueueMessages
            || q.bytes + FrameBytes(env, frames) > env.limits.maxQueueBytes then q.(failed := true)
    else Queue(q.frames + frames, q.bytes + FrameBytes(env, frames), false)
  }

  function Pop(env: Env, q: Queue, f: Frame): Queue {
    if q.frames != [] && q.frames[0] == f
    then Queue(q.frames[1..], q.bytes - env.size(f.message), q.failed)
    else q
  }

  const CLEARED := Queue([], 0, true)

  predicate QueueOk(env: Env, q: Queue) {
    && q.bytes == FrameBytes(env, q.frames)
    && |q.frames| <= env.limits.maxQueueMessages
    && q.bytes <= env.limits.maxQueueBytes
  }

  lemma {:induction false} FrameBytesAppend(env: Env, a: seq<Frame>, b: seq<Frame>)
    ensures FrameBytes(env, a + b) == FrameBytes(env, a) + FrameBytes(env, b)
  {
    if a == [] {
      assert a + b == b;
    } else {
      FrameBytesAppend(env, a[1..], b);
      assert (a + b)[1..] == a[1..] + b;
    }
  }

  lemma PushOk(env: Env, q: Queue, frames: seq<Frame>)
    requires QueueOk(env, q)
    ensures QueueOk(env, Push(env, q, frames))
    ensures !Push(env, q, frames).failed ==> Push(env, q, frames).frames == q.frames + frames
  {
    FrameBytesAppend(env, q.frames, frames);
  }

  // ---------------------------------------------------------------------------
  // The link
  // ---------------------------------------------------------------------------

  /** The consumer of a queue: it takes the head, works on it, and then removes it. */
  datatype Hand = Free | Holding(frame: Frame) | Finished(frame: Frame)

  /** `spot` and `at` are where the sender and the head of its queue are in the stream,
      `read` and `applied` where the receiver's reader and its state are. */
  datatype Link = Link(
    cut: Cut, fence: Option<nat>, sent: nat, spot: Spot,
    queue: Queue, at: Pos, hand: Hand, subscribed: bool, stopped: bool,
    wire: seq<Message>,
    rc: Receiver, read: Spot, applied: Spot, apply: Queue, applyHand: Hand)

  function NewLink(cut: Cut): Link {
    Link(cut, None, cut.base, AtBegin, EMPTY_QUEUE, Pos(cut.base + 1, 0), Free, true, false,
         [], Waiting, AtBegin, AtBegin, EMPTY_QUEUE, Free)
  }

  function Advance(log: seq<Delta>, l: Link, spot: Spot): Spot {
    if HasMessage(log, l.cut, l.fence, spot) then NextSpot(log, l.cut, l.fence, spot) else spot
  }

  function AdvancePos(log: seq<Delta>, pos: Pos): Pos {
    if ValidPos(log, pos) && pos.revision <= |log| then NextPos(log, pos) else pos
  }

  /** sendPeerSnapshot, before the fence: Begin, then every chunk, then every path. */
  function SendSnapshot(env: Env, log: seq<Delta>, l: Link): Link {
    if l.stopped || l.spot.AtDelta? || !HasMessage(log, l.cut, l.fence, l.spot) then l
    else l.(wire := l.wire + [MessageAt(env, log, l.cut, l.fence, l.spot)], spot := Advance(log, l, l.spot))
  }

  function ReadFence(revision: nat, l: Link): Link {
    if l.stopped || !l.spot.AtDelta? || l.fence.Some? then l
    else l.(fence := Some(revision))
  }

  predicate CatchingUp(l: Link) {
    l.spot.AtDelta? && !l.spot.ended && l.fence.Some? && l.sent < l.fence.value
  }

  predicate InSession(l: Link) {
    l.spot.AtDelta? && l.spot.ended
  }

  /** The check sendPeerSnapshot makes on every frame it takes before the fence. */
  predicate Gap(l: Link, f: Frame) {
    CatchingUp(l) && ((f.sequence != l.sent + 1 && f.sequence != l.sent) || f.sequence > l.fence.value)
  }

  /** take and peek: a failed queue hands out nothing, even if frames are left in it. */
  function TakeFrame(l: Link): Link {
    if l.stopped || l.hand != Free || !(CatchingUp(l) || InSession(l)) then l
    else if l.queue.failed then l.(stopped := true)
    else if l.queue.frames == [] then l
    else if Gap(l, l.queue.frames[0]) then l.(stopped := true)
    else l.(hand := Holding(l.queue.frames[0]))
  }

  function WriteFrame(log: seq<Delta>, l: Link): Link {
    if l.stopped || !l.hand.Holding? then l
    else l.(wire := l.wire + [l.hand.frame.message], hand := Finished(l.hand.frame), spot := Advance(log, l, l.spot))
  }

  function DoneFrame(env: Env, log: seq<Delta>, l: Link): Link {
    if l.stopped || !l.hand.Finished? then l
    else l.(queue := Pop(env, l.queue, l.hand.frame), hand := Free, at := AdvancePos(log, l.at),
            sent := if l.hand.frame.last then l.hand.frame.sequence else l.sent)
  }

  function SendEnd(env: Env, log: seq<Delta>, l: Link): Link {
    if l.stopped || l.hand != Free || !l.spot.AtDelta? || l.spot.ended || l.fence.None? || l.sent < l.fence.value then l
    else l.(wire := l.wire + [MsgEnd(|l.cut.groups|, |l.cut.paths|, TotalBytes(l.cut.groups), l.fence.value)],
            spot := Advance(log, l, l.spot))
  }

  /** Session.Close empties and fails the queue; a frame already taken may still be written. */
  function ClearQueue(l: Link): Link {
    l.(queue := CLEARED)
  }

  /** A write error, a cancelled context or the end of the session: no more is sent. */
  function StopSender(l: Link): Link {
    l.(stopped := true)
  }

  function Unsubscribe(l: Link): Link {
    if l.stopped then l.(subscribed := false) else l
  }

  /** receiveInitial reads one message; `ok` is false where a shared budget, the ledger or
      the context makes it give up. */
  function ReadInitial(env: Env, log: seq<Delta>, l: Link, ok: bool): Link {
    if l.wire == [] || !(l.rc.Waiting? || l.rc.Initial?) then l
    else l.(wire := l.wire[1..], rc := if ok then Receive(env, PeerRole, l.rc, l.wire[0]) else Failed,
            read := Advance(log, l, l.read), applied := Advance(log, l, l.read))
  }

  /** The reader of the session moves one message from the wire into the apply queue. */
  function ReadSession(env: Env, log: seq<Delta>, l: Link): Link {
    if l.wire == [] || !l.rc.Live? || l.apply.failed then l
    else l.(wire := l.wire[1..], read := Advance(log, l, l.read),
            apply := Push(env, l.apply, [Frame(0, false, l.wire[0])]))
  }

  function TakeApply(l: Link): Link {
    if l.applyHand != Free || l.apply.failed || l.apply.frames == [] || !l.rc.Live? then l
    else l.(applyHand := Holding(l.apply.frames[0]))
  }

  function ApplyTaken(env: Env, log: seq<Delta>, l: Link, ok: bool): Link {
    if !l.applyHand.Holding? || !l.rc.Live? then l
    else l.(applyHand := Finished(l.applyHand.frame), applied := Advance(log, l, l.applied),
            rc := if ok then Receive(env, PeerRole, l.rc, l.applyHand.frame.message) else Failed)
  }

  function DoneApply(env: Env, l: Link): Link {
    if !l.applyHand.Finished? then l
    else l.(apply := Pop(env, l.apply, l.applyHand.frame), applyHand := Free)
  }

  function StopReceiver(l: Link): Link {
    l.(apply := CLEARED)
  }

  function Broadcast(env: Env, l: Link, frames: seq<Frame>): Link {
    if l.subscribed then l.(queue := Push(env, l.queue, frames)) else l
  }

  // ---------------------------------------------------------------------------
  // What is on its way
  // ---------------------------------------------------------------------------

  /** These messages are exactly the ones of the stream between two spots. */
  predicate Emits(env: Env, log: seq<Delta>, cut: Cut, fence: Option<nat>, from: Spot, messages: seq<Message>, to: Spot)
    decreases |messages|
  {
    && ValidSpot(log, cut, fence, from)
    && if messages == [] then from == to
       else
         && HasMessage(log, cut, fence, from)
         && messages[0] == MessageAt(env, log, cut, fence, from)
         && Emits(env, log, cut, fence, NextSpot(log, cut, fence, from), messages[1..], to)
  }

  lemma {:induction false} EmitsSnoc(env: Env, log: seq<Delta>, cut: Cut, fence: Option<nat>,
                                     from: Spot, messages: seq<Message>, to: Spot)
    requires LogOk(env, log) && CutOk(env, log, cut) && FenceOk(log, cut, fence)
    requires Emits(env, log, cut, fence, from, messages, to) && HasMessage(log, cut, fence, to)
    ensures Emits(env, log, cut, fence, from, messages + [MessageAt(env, log, cut, fence, to)],
                  NextSpot(log, cut, fence, to))
    decreases |messages|
  {
    var m := MessageAt(env, log, cut, fence, to);
    if messages == [] {
      NextSpotValid(env, log, cut, fence, to);
      assert (messages + [m])[1..] == [];
    } else {
      EmitsSnoc(env, log, cut, fence, NextSpot(log, cut, fence, from), messages[1..], to);
      assert (messages + [m])[1..] == messages[1..] + [m];
    }
  }

  lemma SpotStable(env: Env, log: seq<Delta>, d: Delta, cut: Cut, fence: Option<nat>, spot: Spot)
    requires LogOk(env, log) && LogOk(env, log + [d])
    requires ValidSpot(log, cut, fence, spot)
    ensures ValidSpot(log + [d], cut, fence, spot)
    ensures HasMessage(log, cut, fence, spot) ==>
              && HasMessage(log + [d], cut, fence, spot)
              && MessageAt(env, log + [d], cut, fence, spot) == MessageAt(env, log, cut, fence, spot)
              && NextSpot(log + [d], cut, fence, spot) == NextSpot(log, cut, fence, spot)
  {
    if spot.AtDelta? && spot.pos.revision == |log| + 1 {
      FirstPosValid(env, log + [d], |log|);
    }
  }

  lemma {:induction false} EmitsStable(env: Env, log: seq<Delta>, d: Delta, cut: Cut, fence: Option<nat>,
                                       from: Spot, messages: seq<Message>, to: Spot)
    requires LogOk(env, log) && LogOk(env, log + [d])
    requires Emits(env, log, cut, fence, from, messages, to)
    ensures Emits(env, log + [d], cut, fence, from, messages, to)
    decreases |messages|
  {
    SpotStable(env, log, d, cut, fence, from);
    if messages != [] {
      EmitsStable(env, log, d, cut, fence, NextSpot(log, cut, fence, from), messages[1..], to);
    }
  }

  /** Fixing the fence changes nothing before the first delta. */
  lemma {:induction false} EmitsFence(env: Env, log: seq<Delta>, cut: Cut, fence: nat,
                                      from: Spot, messages: seq<Message>)
    requires LogOk(env, log) && cut.base <= fence <= |log|
    requires Emits(env, log, cut, None, from, messages, AfterPaths(cut))
    requires from.AtDelta? ==> from == AfterPaths(cut)
    ensures Emits(env, log, cut, Some(fence), from, messages, AfterPaths(cut))
    decreases |messages|
  {
    if messages != [] {
      EmitsFence(env, log, cut, fence, NextSpot(log, cut, None, from), messages[1..]);
    }
  }

  function Messages(frames: seq<Frame>): seq<Message> {
    seq(|frames|, i requires 0 <= i < |frames| => frames[i].message)
  }

  // ---------------------------------------------------------------------------
  // The invariant of a link
  // ---------------------------------------------------------------------------

  predicate HandOk(env: Env, log: seq<Delta>, l: Link)
    requires ValidPos(log, l.at)
  {
    && (l.hand == Free ==> l.spot.AtDelta? ==> l.spot.pos == l.at)
    && (l.hand != Free ==>
          && l.spot.AtDelta? && l.fence.Some?
          && l.at.revision <= |log|
          && l.hand.frame == FrameAt(env, log, l.at))
    && (l.hand.Holding? ==> l.spot.pos == l.at && !AtEnd(l.fence, l.spot))
    && (l.hand.Finished? ==> l.spot.pos == NextPos(log, l.at))
  }

  /** Before the fence is read nothing of the queue has been touched. */
  predicate Untouched(l: Link) {
    l.at == Pos(l.cut.base + 1, 0) && l.hand == Free
  }

  predicate SenderOk(env: Env, log: seq<Delta>, l: Link)
    requires LogOk(env, log)
  {
    && ValidSpot(log, l.cut, l.fence, l.spot)
    && ValidPos(log, l.at)
    && l.sent + 1 == l.at.revision
    && QueueOk(env, l.queue)
    && (l.subscribed && !l.queue.failed ==> Holds(env, log, l.at, l.queue.frames))
    && (!l.subscribed ==> l.stopped)
    && (l.fence.None? ==> Untouched(l))
    && (!l.spot.AtDelta? ==> l.fence.None?)
    && HandOk(env, log, l)
  }

  /** What the receiver has read but not yet applied. */
  function Unapplied(l: Link): seq<Frame> {
    if l.applyHand.Finished? && l.apply.frames != [] then l.apply.frames[1..] else l.apply.frames
  }

  predicate ApplyHandOk(env: Env, log: seq<Delta>, l: Link) {
    && (l.applyHand.Holding? ==>
          && HasMessage(log, l.cut, l.fence, l.applied)
          && l.applyHand.frame.message == MessageAt(env, log, l.cut, l.fence, l.applied))
    && (l.applyHand != Free && !l.apply.failed ==> l.apply.frames != [] && l.apply.frames[0] == l.applyHand.frame)
  }

  predicate ReceiverOk(env: Env, log: seq<Delta>, l: Link) {
    && QueueOk(env, l.apply)
    && Emits(env, log, l.cut, l.fence, l.read, l.wire, l.spot)
    && ValidSpot(log, l.cut, l.fence, l.applied)
    && Knows(env, log, l.cut, l.fence, l.applied, l.rc)
    && ApplyHandOk(env, log, l)
    && (l.rc.Waiting? || l.rc.Initial? ==> l.read == l.applied && l.apply.frames == [] && l.applyHand == Free)
    && (l.fence.None? ==> l.read == l.applied && l.applyHand == Free)
    && (l.rc.Live? && !l.apply.failed ==>
          Emits(env, log, l.cut, l.fence, l.applied, Messages(Unapplied(l)), l.read))
  }

  predicate LinkOk(env: Env, log: seq<Delta>, l: Link) {
    && LogOk(env, log)
    && CutOk(env, log, l.cut)
    && FenceOk(log, l.cut, l.fence)
    && SenderOk(env, log, l)
    && ReceiverOk(env, log, l)
  }
}

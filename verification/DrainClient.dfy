/** The client's accept loop and control loop as objects, proved against the functions of Drain. */
module DrainClient {
  import opened Basics
  import opened PoolState
  import opened Drain

  /** What one call of AcceptStream gives: the next stream, or an error. */
  datatype Outcome = Arrived | Errored(silenced: bool)

  function AcceptStep(k: Accept, o: Outcome): Accept {
    match o
    case Arrived => ProcessStream(k.(inHand := Some(k.processed)))
    case Errored(silenced) => AcceptFails(k, silenced)
  }

  function AcceptAll(k: Accept, outcomes: seq<Outcome>): Accept
    decreases |outcomes|
  {
    if outcomes == [] || k.ending.Some? then k else AcceptAll(AcceptStep(k, outcomes[0]), outcomes[1..])
  }

  predicate Between(k: Accept) {
    k.inHand.None? && k.high == if k.processed == 0 then -1 else StreamId(k.processed - 1)
  }

  /** With the fence set, taking the remaining streams and the cancellation that follows ends
      the loop at the fence, with every stream up to it accepted; -1 is the fence of none. */
  lemma {:induction false} AcceptsThroughFence(k: Accept, count: nat, outcomes: seq<Outcome>)
    requires Between(k) && k.ending.None? && count <= MAX_STREAMS && k.processed <= count
    requires k.fence == Some(if count == 0 then -1 else StreamId(count - 1))
    requires |outcomes| == count - k.processed + 1 && outcomes[|outcomes| - 1] == Errored(false)
    requires forall i :: 0 <= i < |outcomes| - 1 ==> outcomes[i] == Arrived
    ensures var end := AcceptAll(k, outcomes);
            end.ending == Some(AtFence) && end.processed == count && end.failed == k.failed
            && (forall n: nat :: n in end.running <==> n in k.running || k.processed <= n < count)
    decreases count - k.processed
  {
    if k.processed == count {
      assert outcomes == [Errored(false)];
      assert AcceptStep(k, outcomes[0]).ending == Some(AtFence);
      assert AcceptAll(k, outcomes) == AcceptStep(k, outcomes[0]);
    } else {
      var next := AcceptStep(k, Arrived);
      assert outcomes[0] == Arrived;
      assert next.processed == k.processed + 1 && next.ending.None? && next.running == k.running + {k.processed};
      AcceptsThroughFence(next, count, outcomes[1..]);
      assert AcceptAll(k, outcomes) == AcceptAll(next, outcomes[1..]);
    }
  }

  class ConnectionRuntime {
    var inHand: Option<nat>
    var processed: nat
    var acceptedHigh: int
    var fence: Option<int>
    var cancelled: bool
    var ending: Option<Ending>
    var failed: bool
    var running: set<nat>

    constructor ()
      ensures View() == FRESH.accept
    {
      inHand, processed, acceptedHigh, fence := None, 0, -1, None;
      cancelled, ending, failed, running := false, None, false, {};
    }

    function View(): Accept
      reads this
    {
      Accept(inHand, processed, acceptedHigh, fence, cancelled, ending, failed, running)
    }

    method SetFence(value: int) returns (ok: bool)
      modifies this
      ensures View() == Drain.SetFence(old(View()), value) && ok == FenceFits(old(View()), value)
    {
      if fence.Some? && fence.value != value {
        return false;
      }
      if acceptedHigh > value {
        return false;
      }
      fence := Some(value);
      if value == -1 || acceptedHigh >= value {
        cancelled := true;
      }
      return true;
    }

    /** failAccept keeps the first error. */
    method FailAccept()
      modifies this
      ensures View() == EndAccept(old(View()), Broken)
    {
      inHand, ending, failed := None, Some(Broken), true;
    }

    method ProcessStream()
      requires inHand.Some? && ending.None?
      modifies this
      ensures View() == Drain.ProcessStream(old(View()))
    {
      var n := inHand.value;
      var id := StreamId(n);
      if !(id == -1 || (1 <= id <= VARINT_MAX && id % 4 == 1)) {
        FailAccept();
        return;
      }
      if fence.Some? && id > fence.value {
        FailAccept();
        return;
      }
      running, processed, inHand := running + {n}, processed + 1, None;
      if id > acceptedHigh {
        acceptedHigh := id;
      }
      if fence.Some? && acceptedHigh >= fence.value {
        cancelled := true;
      }
    }

    /** acceptStreamsFromConnection, over what AcceptStream gives it. */
    method AcceptStreams(outcomes: seq<Outcome>)
      requires inHand.None? && ending.None?
      modifies this
      ensures View() == AcceptAll(old(View()), outcomes)
    {
      var i := 0;
      while i < |outcomes| && ending.None?
        invariant i <= |outcomes| && inHand.None?
        invariant AcceptAll(old(View()), outcomes) == AcceptAll(View(), outcomes[i..])
      {
        assert outcomes[i..][1..] == outcomes[i + 1..];
        match outcomes[i] {
          case Arrived =>
            inHand := Some(processed);
            ProcessStream();
          case Errored(silenced) =>
            if fence.Some? && (fence.value == -1 || acceptedHigh >= fence.value) {
              ending := Some(AtFence);
            } else if silenced {
              ending := Some(Silenced);
            } else {
              FailAccept();
            }
        }
        i := i + 1;
      }
    }
  }

  class ServerConnection {
    var up: bool
    var epoch: Epoch
    var writing: bool
    var put: bool
    var hand: Option<Stamped>
    var slot: Option<Stamped>
    var pending: int
    var complete: Option<int>
    var notice: Option<int>
    var protested: bool

    constructor ()
      ensures View() == FRESH.control
    {
      up, epoch, writing, put := true, NotRequested, false, false;
      hand, slot, pending := None, None, 0;
      complete, notice, protested := None, None, false;
    }

    function View(): Control
      reads this
    {
      Control(up, epoch, writing, put, hand, slot, pending, complete, notice, protested)
    }

    /** The read branch of heartbeatLoop for the message in the slot. */
    method HandleMessage()
      requires up && !writing && slot.Some?
      modifies this
      ensures View() == HandleControl(old(View()), old(slot.value))
    {
      var s := slot.value;
      slot := None;
      match s.message {
        case Heartbeat =>
        case Request =>
          up, protested := false, true;
          return;
        case Complete(fence) =>
          if s.epoch == NotRequested ||
             (s.epoch == RequestWriting && (epoch == NotRequested || epoch == RequestWriting))
             || epoch == NotRequested || epoch == RequestWriting {
            up, protested := false, true;
            return;
          }
          if epoch == CompleteReceived {
            if complete != Some(fence) {
              up, protested := false, true;
              return;
            }
          } else {
            complete, epoch := Some(fence), CompleteReceived;
            if notice.None? {
              notice := Some(fence);
            }
          }
      }
      pending := pending - 1;
    }
  }
}

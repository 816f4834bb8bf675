/** The session state and the permit budget as objects, proved against the functions of Sessions. */
module SessionsStore {
  import opened Basics
  import opened Sessions
  import Spec = Sessions

  datatype Decision = Queued | PendingDrop | Retry | ReadyWrite

  class SessionBudget {
    const limit: nat
    var slots: int
    var permits: int
    var published: int
    var faults: nat

    constructor (limit: nat)
      ensures View() == Start(limit).budget
    {
      this.limit := limit;
      slots, permits, published, faults := 0, 0, 0, 0;
    }

    function View(): Budget
      reads this
    {
      Budget(limit, slots, permits, published, faults)
    }

    method Acquire() returns (ok: bool)
      modifies this
      ensures ok == MayAcquire(old(View())) && View() == if ok then Spec.Acquire(old(View())) else old(View())
    {
      ok := faults == 0 && slots < limit;
      if ok {
        slots, permits := slots + 1, permits + 1;
      }
    }

    method Release()
      modifies this
      ensures View() == ReleasePermit(old(View()))
    {
      if slots == 0 {
        faults := faults + 1;
        return;
      }
      slots, permits := slots - 1, permits - 1;
      if permits < 0 {
        permits, faults := permits + 1, faults + 1;
      }
    }

    method Unpublish()
      modifies this
      ensures View() == Spec.Unpublish(old(View()))
    {
      published := published - 1;
      if published < 0 {
        published, faults := published + 1, faults + 1;
      }
    }
  }

  class SessionState {
    const handler: nat
    const id: nat
    var phase: Phase
    var fifo: seq<Packet>
    var retained: int
    var candidate: bool
    ghost var worker: Worker
    ghost var batch: seq<Packet>
    ghost var queued: seq<Packet>
    ghost var written: seq<Packet>
    ghost var permit: bool
    ghost var unpublishing: bool

    constructor (handler: nat, id: nat, packet: Packet)
      ensures View() == Session(handler, id, Collecting, [packet], packet.retained, false, Installed, [], [packet],
                                [], true, false)
    {
      this.handler, this.id := handler, id;
      phase, fifo, retained, candidate := Collecting, [packet], packet.retained, false;
      worker, batch, queued, written, permit, unpublishing := Installed, [], [packet], [], true, false;
    }

    ghost function View(): Session
      reads this
    {
      Session(handler, id, phase, fifo, retained, candidate, worker, batch, queued, written, permit, unpublishing)
    }

    method AcceptAndSnapshot(packet: Packet) returns (decision: Decision)
      modifies this
      ensures decision == match old(phase)
                          case Collecting => if HasRoom(old(View()), packet) then Queued else PendingDrop
                          case Draining => PendingDrop
                          case Ready => ReadyWrite
                          case Closed => Retry
      ensures View() == if decision == Queued then Queue(old(View()), packet) else old(View())
    {
      match phase {
        case Collecting =>
          if |fifo| >= PACKET_LIMIT || packet.retained < 0 || packet.retained > BACKING_LIMIT - retained {
            return PendingDrop;
          }
          fifo, retained, queued := fifo + [packet], retained + packet.retained, queued + [packet];
          return Queued;
        case Draining => return PendingDrop;
        case Ready => return ReadyWrite;
        case Closed => return Retry;
      }
    }

    method SealCollecting() returns (taken: seq<Packet>, ok: bool)
      modifies this
      ensures ok == (old(phase) == Collecting)
      ensures ok ==> taken == old(fifo) && View() == Sealed(old(View()))
      ensures !ok ==> View() == old(View())
    {
      if phase != Collecting {
        return [], false;
      }
      phase, taken, fifo, retained := Draining, fifo, [], 0;
      batch, worker := taken, Writing(0);
      return taken, true;
    }

    /** The drain loop of runSession: `fails` says which writes to the socket fail. */
    method WriteBatch(taken: seq<Packet>, fails: nat -> bool) returns (sent: seq<Packet>, ok: bool)
      requires worker == Writing(0) && taken == batch && written == []
      modifies this
      ensures sent == written && sent <= taken && (ok <==> sent == taken)
      ensures ok ==> forall i: nat :: i < |taken| ==> !fails(i)
      ensures !ok ==> |sent| < |taken| && fails(|sent|) && forall i: nat :: i < |sent| ==> !fails(i)
      ensures phase == old(phase) && queued == old(queued) && fifo == old(fifo) && batch == old(batch) &&
              worker == Writing(|sent|)
    {
      sent := [];
      var i := 0;
      while i < |taken|
        invariant i <= |taken| && sent == taken[..i] == written && worker == Writing(i)
        invariant forall k: nat :: k < i ==> !fails(k)
        invariant phase == old(phase) && queued == old(queued) && fifo == old(fifo) && batch == old(batch)
      {
        if fails(i) {
          return sent, false;
        }
        sent := sent + [taken[i]];
        written, worker := written + [taken[i]], Writing(i + 1);
        i := i + 1;
      }
      return sent, true;
    }

    method Close() returns (published: bool, closed: bool)
      modifies this
      ensures closed == (old(phase) != Closed) && published == (old(phase) == Ready)
      ensures View() == if closed then CloseState(old(View())) else old(View())
    {
      if phase == Closed {
        return false, false;
      }
      published := phase == Ready;
      unpublishing := unpublishing || phase == Ready;
      fifo, retained, candidate, phase := [], 0, false, Closed;
      return published, true;
    }
  }
}

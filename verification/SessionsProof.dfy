/** What every interleaving of dispatch, workers, cleanup and Stop keeps. */
module SessionsProof {
  import opened Basics
  import opened MapSum
  import opened Sessions

  // ---------------------------------------------------------------------------
  // One session
  // ---------------------------------------------------------------------------

  function Total(fifo: seq<Packet>): int {
    if fifo == [] then 0 else Total(fifo[..|fifo| - 1]) + fifo[|fifo| - 1].retained
  }

  lemma TotalSnoc(fifo: seq<Packet>, packet: Packet)
    ensures Total(fifo + [packet]) == Total(fifo) + packet.retained
  {
    assert (fifo + [packet])[..|fifo|] == fifo;
  }

  /** What is queued is bounded; what is written is a prefix of what was queued, in its order;
      a Ready session has written all of it. */
  predicate StateOk(s: Session) {
    && s.written <= s.queued
    && (s.worker.Writing? ==>
          s.worker.done <= |s.batch| && s.written == s.batch[..s.worker.done] && s.batch == s.queued)
    && (s.permit <==> s.worker != Gone)
    && (s.unpublishing ==> s.phase == Closed)
    && match s.phase
       case Collecting =>
         && s.fifo == s.queued && s.written == [] && (s.worker == Installed || s.worker == Setup || s.worker == Failing)
         && |s.fifo| <= PACKET_LIMIT && s.retained == Total(s.fifo) && 0 <= s.retained <= BACKING_LIMIT
       case Draining => s.fifo == [] && s.retained == 0 && (s.worker.Writing? || s.worker == Failing)
       case Ready =>
         s.fifo == [] && s.retained == 0 && s.written == s.queued && (s.worker == Reading || s.worker == Leaving)
       case Closed => s.fifo == [] && s.retained == 0
  }

  lemma InstallState(h: nat, id: nat, packet: Packet)
    requires Acceptable(packet)
    ensures StateOk(Session(h, id, Collecting, [packet], packet.retained, false, Installed, [], [packet], [], true,
                            false))
  {
    TotalSnoc([], packet);
    assert [] + [packet] == [packet];
  }

  lemma AcceptState(s: Session, packet: Packet)
    requires StateOk(s) && s.phase == Collecting && HasRoom(s, packet)
    ensures StateOk(Queue(s, packet))
  {
    TotalSnoc(s.fifo, packet);
    hide Total;
  }

  lemma SealState(s: Session)
    requires StateOk(s) && s.phase == Collecting
    ensures StateOk(Sealed(s))
  {
  }

  lemma WriteState(s: Session)
    requires StateOk(s) && s.worker.Writing? && s.worker.done < |s.batch|
    ensures StateOk(Wrote(s))
  {
    var k := s.worker.done;
    assert s.batch[..k + 1] == s.batch[..k] + [s.batch[k]];
    hide Total;
  }

  lemma CloseOk(s: Session)
    requires StateOk(s)
    ensures StateOk(CloseState(s))
  {
    hide Total;
  }

  // ---------------------------------------------------------------------------
  // The budget and the index
  // ---------------------------------------------------------------------------

  ghost function Permits(states: map<nat, Session>): map<nat, int> {
    map x | x in states :: One(states[x].permit)
  }

  /** Ready, or closed with the unpublish still to come. */
  function Counted(s: Session): int {
    One(s.phase == Ready) + One(s.unpublishing)
  }

  ghost function Published(states: map<nat, Session>): map<nat, int> {
    map x | x in states :: Counted(states[x])
  }

  ghost predicate BudgetOk(b: Budget, states: map<nat, Session>) {
    && b.slots == b.permits == Sum(Permits(states)) && b.slots <= b.limit
    && b.published == Sum(Published(states)) && b.faults == 0
  }

  predicate Names(states: map<nat, Session>, x: nat, pair: (nat, nat)) {
    x in states && (states[x].handler, states[x].id) == pair
  }

  /** The index names only live identities, and every session that is not closed is in it. */
  predicate IndexOk(w: World) {
    && (forall pair :: pair in w.sessions ==> Names(w.states, w.sessions[pair], pair))
    && (forall x :: x in w.states && w.states[x].phase != Closed ==> IsExact(w, x))
  }

  predicate StatesOk(states: map<nat, Session>) {
    forall x :: x in states ==> StateOk(states[x])
  }

  ghost predicate WorldOk(w: World) {
    StatesOk(w.states) && BudgetOk(w.budget, w.states) && IndexOk(w)
  }

  lemma SetPermits(states: map<nat, Session>, x: nat, s: Session)
    ensures Sum(Permits(states[x := s])) == Sum(Permits(states)) + One(s.permit) - One(x in states && states[x].permit)
  {
    assert Permits(states[x := s]) == Permits(states)[x := One(s.permit)];
    SumUpdate(Permits(states), x, One(s.permit));
  }

  lemma SetPublished(states: map<nat, Session>, x: nat, s: Session)
    ensures Sum(Published(states[x := s])) ==
            Sum(Published(states)) + Counted(s) - if x in states then Counted(states[x]) else 0
  {
    assert Published(states[x := s]) == Published(states)[x := Counted(s)];
    SumUpdate(Published(states), x, Counted(s));
  }

  lemma CountsAtLeast(states: map<nat, Session>, x: nat)
    requires x in states
    ensures Sum(Permits(states)) >= One(states[x].permit) && Sum(Published(states)) >= Counted(states[x])
  {
    SumBounds(Permits(states), x);
    SumBounds(Published(states), x);
  }

  /** A step of one session that keeps its identity and does not come back from Closed. */
  predicate Stays(a: Session, b: Session) {
    b.handler == a.handler && b.id == a.id && (a.phase == Closed ==> b.phase == Closed)
  }

  lemma SetOk(w: World, x: nat, s: Session, b: Budget)
    requires WorldOk(w) && x in w.states && StateOk(s) && Stays(w.states[x], s)
    requires b.limit == w.budget.limit && b.faults == 0 && b.slots == b.permits
    requires b.permits == w.budget.permits + One(s.permit) - One(w.states[x].permit)
    requires b.published == w.budget.published + Counted(s) - Counted(w.states[x])
    requires s.permit ==> w.states[x].permit
    ensures WorldOk(Set(w, x, s).(budget := b))
  {
    hide StateOk;
    hide Sum;
    hide Permits;
    hide Published;
    SetPermits(w.states, x, s);
    SetPublished(w.states, x, s);
  }

  /** Steps that change neither permit nor publication. */
  lemma PlainOk(w: World, x: nat, s: Session)
    requires WorldOk(w) && x in w.states && StateOk(s) && Stays(w.states[x], s)
    requires s.permit == w.states[x].permit && Counted(s) == Counted(w.states[x])
    ensures WorldOk(Set(w, x, s))
  {
    hide StateOk;
    hide Sum;
    SetOk(w, x, s, w.budget);
  }

  lemma StateKnown(w: World, x: nat)
    requires WorldOk(w) && x in w.states
    ensures StateOk(w.states[x])
  {
    hide StateOk;
  }

  // ---------------------------------------------------------------------------
  // The steps
  // ---------------------------------------------------------------------------

  lemma InstallOk(w: World, x: nat, h: nat, id: nat, packet: Packet)
    requires WorldOk(w)
    ensures WorldOk(Install(w, x, h, id, packet))
  {
    hide StateOk;
    hide Sum;
    hide Permits;
    hide Published;
    var q := Install(w, x, h, id, packet);
    if q != w {
      InstallState(h, id, packet);
      SetPermits(w.states, x, q.states[x]);
      SetPublished(w.states, x, q.states[x]);
    }
  }

  lemma AcceptOk(w: World, x: nat, packet: Packet)
    requires WorldOk(w)
    ensures WorldOk(Accept(w, x, packet))
  {
    hide WorldOk;
    if Accept(w, x, packet) != w {
      StateKnown(w, x);
      AcceptState(w.states[x], packet);
      hide StateOk;
      PlainOk(w, x, Accept(w, x, packet).states[x]);
    }
  }

  lemma DeleteOk(w: World, x: nat)
    requires WorldOk(w)
    ensures WorldOk(Delete(w, x))
  {
    hide StateOk;
    hide BudgetOk;
  }

  lemma WorkerOk(w: World, x: nat, worker: Worker)
    requires WorldOk(w) && x in w.states && StateOk(w.states[x].(worker := worker))
    ensures WorldOk(Set(w, x, w.states[x].(worker := worker)))
  {
    hide WorldOk;
    StateKnown(w, x);
    PlainOk(w, x, w.states[x].(worker := worker));
  }

  /** A worker in trouble can always turn to failing while its session is not Ready. */
  lemma MayFail(s: Session)
    requires StateOk(s) && s.permit && s.phase != Ready
    ensures StateOk(s.(worker := Failing))
  {
    hide Total;
  }

  lemma RegisterOk(w: World, x: nat)
    requires WorldOk(w)
    ensures WorldOk(Register(w, x))
  {
    hide WorldOk;
    hide Total;
    if x in w.states && w.states[x].worker == Installed {
      StateKnown(w, x);
      MayFail(w.states[x]);
      WorkerOk(w, x, if w.states[x].handler in w.stopped then Failing else Setup);
    }
  }

  lemma AttachOk(w: World, x: nat)
    requires WorldOk(w)
    ensures WorldOk(Attach(w, x))
  {
    hide WorldOk;
    hide Total;
    if x in w.states && w.states[x].worker == Setup {
      StateKnown(w, x);
      MayFail(w.states[x]);
      if w.states[x].phase != Collecting || w.states[x].candidate {
        WorkerOk(w, x, Failing);
      } else {
        PlainOk(w, x, w.states[x].(candidate := true));
      }
    }
  }

  lemma SealOk(w: World, x: nat)
    requires WorldOk(w)
    ensures WorldOk(Seal(w, x))
  {
    hide WorldOk;
    hide Total;
    if x in w.states && w.states[x].worker == Setup {
      StateKnown(w, x);
      MayFail(w.states[x]);
      if w.states[x].phase != Collecting || !w.states[x].candidate {
        WorkerOk(w, x, Failing);
      } else {
        SealState(w.states[x]);
        PlainOk(w, x, Seal(w, x).states[x]);
      }
    }
  }

  lemma WriteOk(w: World, x: nat, ok: bool)
    requires WorldOk(w)
    ensures WorldOk(WriteNext(w, x, ok))
  {
    hide WorldOk;
    hide Total;
    if x in w.states && w.states[x].worker.Writing? && w.states[x].worker.done < |w.states[x].batch| {
      StateKnown(w, x);
      if ok {
        WriteState(w.states[x]);
        PlainOk(w, x, WriteNext(w, x, ok).states[x]);
      } else {
        MayFail(w.states[x]);
        WorkerOk(w, x, Failing);
      }
    }
  }

  /** Everything queued has been written when the session becomes Ready. */
  lemma PublishState(s: Session)
    requires StateOk(s) && s.worker.Writing? && s.worker.done == |s.batch| && s.phase == Draining
    ensures StateOk(s.(phase := Ready, candidate := false, worker := Reading)) && s.written == s.queued
  {
    assert s.batch[..|s.batch|] == s.batch;
  }

  lemma PublishOk(w: World, x: nat)
    requires WorldOk(w)
    ensures WorldOk(Publish(w, x))
  {
    hide WorldOk;
    hide Total;
    if x in w.states && w.states[x].worker.Writing? && w.states[x].worker.done == |w.states[x].batch| {
      StateKnown(w, x);
      BudgetKnown(w);
      var s := w.states[x];
      if s.handler in w.stopped || !IsExact(w, x) || s.phase != Draining || !s.candidate {
        MayFail(s);
        WorkerOk(w, x, Failing);
      } else {
        PublishState(s);
        SetOk(w, x, s.(phase := Ready, candidate := false, worker := Reading),
              w.budget.(published := w.budget.published + 1));
      }
    }
  }

  lemma BudgetKnown(w: World)
    requires WorldOk(w)
    ensures w.budget.faults == 0 && w.budget.slots == w.budget.permits
  {
  }

  /** Closing a Ready session keeps it counted until its unpublish. */
  lemma CloseStepOk(w: World, x: nat)
    requires WorldOk(w) && x in w.states
    ensures WorldOk(Set(w, x, CloseState(w.states[x])))
  {
    hide WorldOk;
    StateKnown(w, x);
    CloseOk(w.states[x]);
    hide Total;
    PlainOk(w, x, CloseState(w.states[x]));
  }

  lemma LeavingState(s: Session)
    requires StateOk(s) && s.worker == Failing
    ensures StateOk((if s.phase == Collecting || s.phase == Draining then CloseState(s) else s).(worker := Leaving))
  {
    hide Total;
  }

  lemma FailPendingOk(w: World, x: nat)
    requires WorldOk(w)
    ensures WorldOk(FailPending(w, x))
  {
    hide WorldOk;
    hide Total;
    if x in w.states && w.states[x].worker == Failing {
      StateKnown(w, x);
      LeavingState(w.states[x]);
      PlainOk(w, x, FailPending(w, x).states[x]);
    }
  }

  lemma StopReadingOk(w: World, x: nat)
    requires WorldOk(w)
    ensures WorldOk(StopReading(w, x))
  {
    hide WorldOk;
    hide Total;
    if x in w.states && w.states[x].worker == Reading {
      StateKnown(w, x);
      WorkerOk(w, x, Leaving);
    }
  }

  lemma LeaveOk(w: World, x: nat)
    requires WorldOk(w)
    ensures WorldOk(Leave(w, x))
  {
    if Leave(w, x) != w {
      StateKnown(w, x);
      BudgetKnown(w);
      PermitHeld(w, x);
      hide WorldOk;
      hide Total;
      SetOk(w, x, w.states[x].(worker := Gone, permit := false), ReleasePermit(w.budget));
    }
  }

  lemma PermitHeld(w: World, x: nat)
    requires WorldOk(w) && x in w.states
    ensures w.states[x].permit ==> w.budget.slots >= 1 && w.budget.permits >= 1
    ensures w.states[x].unpublishing ==> w.budget.published >= 1
  {
    hide StateOk;
    CountsAtLeast(w.states, x);
    hide Sum;
  }

  lemma UnpublishOk(w: World, x: nat)
    requires WorldOk(w)
    ensures WorldOk(UnpublishOne(w, x))
  {
    if UnpublishOne(w, x) != w {
      StateKnown(w, x);
      BudgetKnown(w);
      PermitHeld(w, x);
      hide WorldOk;
      hide Total;
      SetOk(w, x, w.states[x].(unpublishing := false), Unpublish(w.budget));
    }
  }

  lemma DoOk(w: World, a: Action)
    requires WorldOk(w)
    ensures WorldOk(Do(w, a))
  {
    hide WorldOk;
    match a {
      case DoInstall(x, h, id, packet) => InstallOk(w, x, h, id, packet);
      case DoAccept(x, packet) => AcceptOk(w, x, packet);
      case DoDelete(x) => DeleteOk(w, x);
      case DoRegister(x) => RegisterOk(w, x);
      case DoAttach(x) => AttachOk(w, x);
      case DoSeal(x) => SealOk(w, x);
      case DoWrite(x, ok) => WriteOk(w, x, ok);
      case DoPublish(x) => PublishOk(w, x);
      case DoFailPending(x) => FailPendingOk(w, x);
      case DoStopReading(x) => StopReadingOk(w, x);
      case DoLeave(x) => LeaveOk(w, x);
      case DoCloseReady(x) => if x in w.states { CloseStepOk(w, x); }
      case DoCloseAny(x) => if x in w.states { CloseStepOk(w, x); }
      case DoUnpublish(x) => UnpublishOk(w, x);
      case DoStop(h) => StopOk(w, h);
    }
  }

  lemma StopOk(w: World, h: nat)
    requires WorldOk(w)
    ensures WorldOk(StopHandler(w, h))
  {
    hide StateOk;
    hide BudgetOk;
  }

  lemma {:induction false} RunOk(limit: nat, actions: seq<Action>)
    ensures WorldOk(Run(limit, actions))
  {
    hide Do;
    if actions == [] {
      SumZero(Permits(map[]));
      SumZero(Published(map[]));
    } else {
      hide WorldOk;
      RunOk(limit, actions[..|actions| - 1]);
      DoOk(Run(limit, actions[..|actions| - 1]), actions[|actions| - 1]);
    }
  }

  /** Over every interleaving: held permits are the sessions that have not given theirs back, the
      published count is the Ready sessions and the closes still to unpublish, no fault. */
  lemma BudgetExact(limit: nat, actions: seq<Action>)
    ensures var w := Run(limit, actions);
            && w.budget.permits == Sum(Permits(w.states)) && w.budget.slots == w.budget.permits &&
               w.budget.permits <= limit
            && w.budget.published == Sum(Published(w.states)) && w.budget.faults == 0
  {
    RunOk(limit, actions);
    hide Run;
    hide Sum;
    hide StateOk;
  }

  /** Packets queued while collecting stay within both bounds, are written in arrival order and
      each at most once, and all of them before the session is Ready. */
  lemma OrderKept(limit: nat, actions: seq<Action>, x: nat)
    requires x in Run(limit, actions).states
    ensures var s := Run(limit, actions).states[x];
            && s.written <= s.queued && |s.fifo| <= PACKET_LIMIT && s.retained == Total(s.fifo) &&
               s.retained <= BACKING_LIMIT
            && (s.phase == Ready ==> s.written == s.queued)
            && (s.phase == Collecting ==> s.fifo == s.queued)
  {
    RunOk(limit, actions);
    hide Run;
    StateKnown(Run(limit, actions), x);
  }

  /** A worker that reaches publication finds its state exact: no other state took its place. */
  lemma PublishFindsItself(limit: nat, actions: seq<Action>, x: nat)
    requires x in Run(limit, actions).states && Run(limit, actions).states[x].phase != Closed
    ensures IsExact(Run(limit, actions), x)
  {
    RunOk(limit, actions);
    hide Run;
    hide StateOk;
    hide Sum;
  }

  /** Once every worker is gone and every close has unpublished, the budget is as at the start. */
  lemma BudgetReturns(limit: nat, actions: seq<Action>)
    requires forall x :: x in Run(limit, actions).states ==>
               Run(limit, actions).states[x].worker == Gone && !Run(limit, actions).states[x].unpublishing
    ensures Run(limit, actions).budget == Start(limit).budget
  {
    var w := Run(limit, actions);
    RunOk(limit, actions);
    hide Run;
    forall x | x in w.states
      ensures !w.states[x].permit && Counted(w.states[x]) == 0
    {
      StateKnown(w, x);
    }
    hide StateOk;
    SumZero(Permits(w.states));
    SumZero(Published(w.states));
  }
}

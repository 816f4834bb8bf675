/** Client UDP sessions: the shared permit budget, the phases of a session, its worker, and
    everyone who may close it. Each critical section is one step. */
module Sessions {
  import opened Basics
  import opened MapSum

  const PACKET_LIMIT: nat := 8
  const BACKING_LIMIT: int := 255 * 1185

  datatype Packet = Packet(payload: Bytes, retained: int)

  datatype Phase = Collecting | Draining | Ready | Closed

  /** Where the worker of a session is. `Writing(k)` has written k packets of its batch. */
  datatype Worker = Installed | Setup | Writing(done: nat) | Reading | Failing | Leaving | Gone

  /** `queued` and `written` record what was taken into the queue and what reached the socket;
      `unpublishing` holds between a close of a Ready session and its unpublish. */
  datatype Session = Session(
    handler: nat, id: nat, phase: Phase, fifo: seq<Packet>, retained: int, candidate: bool,
    worker: Worker, batch: seq<Packet>, queued: seq<Packet>, written: seq<Packet>,
    permit: bool, unpublishing: bool)

  datatype Budget = Budget(limit: nat, slots: int, permits: int, published: int, faults: nat)

  datatype World = World(budget: Budget, states: map<nat, Session>, sessions: map<(nat, nat), nat>, stopped: set<nat>)

  function Start(limit: nat): World {
    World(Budget(limit, 0, 0, 0, 0), map[], map[], {})
  }

  function Set(w: World, x: nat, s: Session): World {
    w.(states := w.states[x := s])
  }

  // ---------------------------------------------------------------------------
  // The budget
  // ---------------------------------------------------------------------------

  predicate MayAcquire(b: Budget) {
    b.faults == 0 && b.slots < b.limit
  }

  function Acquire(b: Budget): Budget {
    b.(slots := b.slots + 1, permits := b.permits + 1)
  }

  function ReleasePermit(b: Budget): Budget {
    if b.slots == 0 then b.(faults := b.faults + 1)
    else if b.permits - 1 < 0 then b.(slots := b.slots - 1, faults := b.faults + 1)
    else b.(slots := b.slots - 1, permits := b.permits - 1)
  }

  function Unpublish(b: Budget): Budget {
    if b.published - 1 < 0 then b.(faults := b.faults + 1) else b.(published := b.published - 1)
  }

  // ---------------------------------------------------------------------------
  // Dispatch
  // ---------------------------------------------------------------------------

  predicate Acceptable(packet: Packet) {
    0 <= packet.retained <= BACKING_LIMIT
  }

  /** installPendingOrLoad, for a session nobody has. */
  function Install(w: World, x: nat, h: nat, id: nat, packet: Packet): World {
    if x in w.states || (h, id) in w.sessions || !Acceptable(packet) || !MayAcquire(w.budget) then w
    else
      World(Acquire(w.budget),
            w.states[x := Session(h, id, Collecting, [packet], packet.retained, false, Installed, [], [packet], [],
                                  true, false)],
            w.sessions[(h, id) := x], w.stopped)
  }

  predicate HasRoom(s: Session, packet: Packet) {
    |s.fifo| < PACKET_LIMIT && 0 <= packet.retained <= BACKING_LIMIT - s.retained
  }

  function Queue(s: Session, packet: Packet): Session {
    s.(fifo := s.fifo + [packet], retained := s.retained + packet.retained, queued := s.queued + [packet])
  }

  /** acceptAndSnapshot while Collecting; in other phases nothing is queued. */
  function Accept(w: World, x: nat, packet: Packet): World {
    if x !in w.states || w.states[x].phase != Collecting || !HasRoom(w.states[x], packet) then w
    else Set(w, x, Queue(w.states[x], packet))
  }

  predicate IsExact(w: World, x: nat) {
    x in w.states && (w.states[x].handler, w.states[x].id) in w.sessions
    && w.sessions[(w.states[x].handler, w.states[x].id)] == x
  }

  /** deleteExactSessionState, called once the state is closed. */
  function Delete(w: World, x: nat): World {
    if !IsExact(w, x) || w.states[x].phase != Closed then w
    else w.(sessions := w.sessions - {(w.states[x].handler, w.states[x].id)})
  }

  // ---------------------------------------------------------------------------
  // The worker
  // ---------------------------------------------------------------------------

  /** registerSessionProducer; a stopped handler fails the pending state at once. */
  function Register(w: World, x: nat): World {
    if x !in w.states || w.states[x].worker != Installed then w
    else Set(w, x, w.states[x].(worker := if w.states[x].handler in w.stopped then Failing else Setup))
  }

  function Attach(w: World, x: nat): World {
    if x !in w.states || w.states[x].worker != Setup then w
    else if w.states[x].phase != Collecting || w.states[x].candidate then Set(w, x, w.states[x].(worker := Failing))
    else Set(w, x, w.states[x].(candidate := true))
  }

  /** sealCollectingFIFO takes the queue over as the worker's batch. */
  function Sealed(s: Session): Session {
    s.(phase := Draining, batch := s.fifo, fifo := [], retained := 0, worker := Writing(0))
  }

  function Wrote(s: Session): Session
    requires s.worker.Writing? && s.worker.done < |s.batch|
  {
    s.(worker := Writing(s.worker.done + 1), written := s.written + [s.batch[s.worker.done]])
  }

  function Seal(w: World, x: nat): World {
    if x !in w.states || w.states[x].worker != Setup then w
    else
      var s := w.states[x];
      if s.phase != Collecting || !s.candidate then Set(w, x, s.(worker := Failing))
      else Set(w, x, Sealed(s))
  }

  function WriteNext(w: World, x: nat, ok: bool): World {
    if x !in w.states || !w.states[x].worker.Writing? || w.states[x].worker.done >= |w.states[x].batch| then w
    else
      var s := w.states[x];
      if !ok then Set(w, x, s.(worker := Failing))
      else Set(w, x, Wrote(s))
  }

  /** publishReadyAfterGate. */
  function Publish(w: World, x: nat): World {
    if x !in w.states || !w.states[x].worker.Writing? || w.states[x].worker.done != |w.states[x].batch| then w
    else
      var s := w.states[x];
      if s.handler in w.stopped || !IsExact(w, x) || s.phase != Draining || !s.candidate
      then Set(w, x, s.(worker := Failing))
      else Set(w, x, s.(phase := Ready, candidate := false, worker := Reading))
             .(budget := w.budget.(published := w.budget.published + 1))
  }

  function CloseState(s: Session): Session {
    s.(phase := Closed, fifo := [], retained := 0, candidate := false,
       unpublishing := s.unpublishing || s.phase == Ready)
  }

  /** failPendingExact. */
  function FailPending(w: World, x: nat): World {
    if x !in w.states || w.states[x].worker != Failing then w
    else
      var s := w.states[x].(worker := Leaving);
      Set(w, x, if s.phase == Collecting || s.phase == Draining then CloseState(s) else s)
  }

  function StopReading(w: World, x: nat): World {
    if x !in w.states || w.states[x].worker != Reading then w else Set(w, x, w.states[x].(worker := Leaving))
  }

  /** The deferred permit release ends the worker; a Ready session was closed before it. */
  function Leave(w: World, x: nat): World {
    if x !in w.states || w.states[x].worker != Leaving || w.states[x].phase != Closed || !w.states[x].permit then w
    else Set(w, x, w.states[x].(worker := Gone, permit := false)).(budget := ReleasePermit(w.budget))
  }

  // ---------------------------------------------------------------------------
  // Closing from anywhere
  // ---------------------------------------------------------------------------

  /** closeReady, by the worker, the dispatcher or the cleanup. */
  function CloseReady(w: World, x: nat): World {
    if x !in w.states || w.states[x].phase != Ready then w else Set(w, x, CloseState(w.states[x]))
  }

  /** close, by Stop, in any phase. */
  function CloseAny(w: World, x: nat): World {
    if x !in w.states || w.states[x].phase == Closed then w else Set(w, x, CloseState(w.states[x]))
  }

  function UnpublishOne(w: World, x: nat): World {
    if x !in w.states || !w.states[x].unpublishing then w
    else Set(w, x, w.states[x].(unpublishing := false)).(budget := Unpublish(w.budget))
  }

  function StopHandler(w: World, h: nat): World {
    w.(stopped := w.stopped + {h})
  }

  datatype Action =
    | DoInstall(state: nat, handler: nat, id: nat, packet: Packet)
    | DoAccept(state: nat, packet: Packet)
    | DoDelete(state: nat)
    | DoRegister(state: nat)
    | DoAttach(state: nat)
    | DoSeal(state: nat)
    | DoWrite(state: nat, ok: bool)
    | DoPublish(state: nat)
    | DoFailPending(state: nat)
    | DoStopReading(state: nat)
    | DoLeave(state: nat)
    | DoCloseReady(state: nat)
    | DoCloseAny(state: nat)
    | DoUnpublish(state: nat)
    | DoStop(handler: nat)

  function Do(w: World, a: Action): (q: World)
    ensures q.budget.limit == w.budget.limit
  {
    match a
    case DoInstall(x, h, id, packet) => Install(w, x, h, id, packet)
    case DoAccept(x, packet) => Accept(w, x, packet)
    case DoDelete(x) => Delete(w, x)
    case DoRegister(x) => Register(w, x)
    case DoAttach(x) => Attach(w, x)
    case DoSeal(x) => Seal(w, x)
    case DoWrite(x, ok) => WriteNext(w, x, ok)
    case DoPublish(x) => Publish(w, x)
    case DoFailPending(x) => FailPending(w, x)
    case DoStopReading(x) => StopReading(w, x)
    case DoLeave(x) => Leave(w, x)
    case DoCloseReady(x) => CloseReady(w, x)
    case DoCloseAny(x) => CloseAny(w, x)
    case DoUnpublish(x) => UnpublishOne(w, x)
    case DoStop(h) => StopHandler(w, h)
  }

  function Run(limit: nat, actions: seq<Action>): (w: World)
    ensures w.budget.limit == limit
  {
    if actions == [] then Start(limit) else Do(Run(limit, actions[..|actions| - 1]), actions[|actions| - 1])
  }
}

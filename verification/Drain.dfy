/** Graceful drain of one connection generation: the server's control loop over its pool, the
    client's control reader and loop, its accept loop and the coordinator that waits for them. */
module Drain {
  import opened Basics
  import opened PoolState
  import opened PoolProof
  import opened PoolRun

  datatype Message = Heartbeat | Request | Complete(fence: int)

  datatype Epoch = NotRequested | RequestWriting | RequestCommitted | CompleteReceived

  /** A message together with the epoch the reader saw when it read it. */
  datatype Stamped = Stamped(message: Message, epoch: Epoch)

  /** handleControlStream: `asked` once a drain request has retired the generation. */
  datatype Server = Server(up: bool, asked: bool, told: bool)

  /** heartbeatLoop and its reader. `put` records that the request has left. */
  datatype Control = Control(
    up: bool, epoch: Epoch, writing: bool, put: bool,
    hand: Option<Stamped>, slot: Option<Stamped>, pending: int,
    complete: Option<int>, notice: Option<int>, protested: bool)

  /** How the accept loop ended: at the fence, cut short by force or cleanup, or with an error. */
  datatype Ending = AtFence | Silenced | Broken

  datatype Accept = Accept(
    inHand: Option<nat>, processed: nat, high: int, fence: Option<int>, cancelled: bool,
    ending: Option<Ending>, failed: bool, running: set<nat>)

  datatype Phase =
    | Idle | Requesting | AwaitComplete | HasFence(fence: int) | AwaitAccept | AwaitHandlers
    | AwaitQuiet | CheckTransport | CheckAccept | Succeeded | Failed

  datatype Gen = Gen(
    server: Server, toServer: seq<Message>, toClient: seq<Message>,
    control: Control, accept: Accept, phase: Phase, closed: bool, forced: bool)

  const FRESH := Gen(
    Server(true, false, false), [], [],
    Control(true, NotRequested, false, false, None, None, 0, None, None, false),
    Accept(None, 0, -1, None, false, None, false, {}), Idle, false, false)

  datatype Action =
    | ServerBeat | ServerRead | ServerTell(ok: bool) | ServerStop
    | ClientBeat | StartWrite | PutRequest | EndWrite(ok: bool)
    | ReaderRead | ReaderSend | LoopRead | LoopStop
    | AcceptTake | AcceptProcess | AcceptError(cleaning: bool) | HandlerReturn(stream: nat)
    | Advance | Fail | Force | Close

  // ---------------------------------------------------------------------------
  // Server side
  // ---------------------------------------------------------------------------

  /** The pool operation a step performs: a first drain request, or the end of the loop, retires. */
  predicate Retires(g: Gen, a: Action) {
    && g.server.up && !g.server.asked
    && (a.ServerStop? || (a.ServerRead? && g.toServer != [] && g.toServer[0] == Request))
  }

  function ReadAsServer(p: Pool, c: nat, g: Gen): Gen {
    if !g.server.up || g.toServer == [] then g
    else
      var rest := g.(toServer := g.toServer[1..]);
      match g.toServer[0]
      case Heartbeat => if g.server.asked || IsCurrent(p, c) then rest else rest.(server := g.server.(up := false))
      case Request =>
        if g.server.asked then rest
        else if IsCurrent(p, c) then rest.(server := g.server.(asked := true))
        else rest.(server := g.server.(up := false))
      case Complete(_) => rest.(server := g.server.(up := false))
  }

  /** The drained channel is read once; the fence is checked and written to the client. */
  function TellClient(p: Pool, c: nat, g: Gen, ok: bool): Gen {
    if !g.server.up || !g.server.asked || g.server.told || !Signalling(p, c) || p.retirements[c].signals == [] then g
    else
      var fence := p.retirements[c].signals[0];
      if !ok || !ValidFence(fence) then g.(server := g.server.(told := true, up := false))
      else g.(server := g.server.(told := true), toClient := g.toClient + [Complete(fence)])
  }

  // ---------------------------------------------------------------------------
  // Client control loop
  // ---------------------------------------------------------------------------

  function BeginWrite(g: Gen): Gen {
    if !g.control.up || g.phase != Requesting || g.control.epoch != NotRequested then g
    else g.(control := g.control.(epoch := RequestWriting, writing := true))
  }

  function PutOnWire(g: Gen): Gen {
    if !g.control.writing || g.control.put then g
    else g.(control := g.control.(put := true), toServer := g.toServer + [Request])
  }

  function FinishWrite(g: Gen, ok: bool): Gen {
    if !g.control.writing then g
    else if ok && g.control.put then
      g.(control := g.control.(writing := false, epoch := RequestCommitted),
         phase := if g.phase == Requesting then AwaitComplete else g.phase)
    else g.(control := g.control.(up := false))
  }

  function ReadWire(g: Gen): Gen {
    if g.toClient == [] || g.control.hand.Some? then g
    else g.(toClient := g.toClient[1..],
            control := g.control.(hand := Some(Stamped(g.toClient[0], g.control.epoch)),
                                  pending := g.control.pending + 1))
  }

  function SendToLoop(g: Gen): Gen {
    if g.control.hand.None? || g.control.slot.Some? then g
    else g.(control := g.control.(slot := g.control.hand, hand := None))
  }

  predicate Unsolicited(stamp: Epoch, now: Epoch) {
    || stamp == NotRequested || (stamp == RequestWriting && (now == NotRequested || now == RequestWriting))
    || now == NotRequested || now == RequestWriting
  }

  /** The loop's handling of one message. */
  function HandleControl(k: Control, s: Stamped): Control {
    match s.message
    case Heartbeat => k.(slot := None, pending := k.pending - 1)
    case Request => k.(slot := None, up := false, protested := true)
    case Complete(fence) =>
      if Unsolicited(s.epoch, k.epoch) then k.(slot := None, up := false, protested := true)
      else if k.epoch == CompleteReceived then
        if k.complete != Some(fence) then k.(slot := None, up := false, protested := true)
        else k.(slot := None, pending := k.pending - 1)
      else k.(slot := None, pending := k.pending - 1, complete := Some(fence), epoch := CompleteReceived,
              notice := if k.notice.None? then Some(fence) else k.notice)
  }

  function HandleSlot(g: Gen): Gen {
    if !g.control.up || g.control.writing || g.control.slot.None? then g
    else g.(control := HandleControl(g.control, g.control.slot.value))
  }

  // ---------------------------------------------------------------------------
  // Client accept loop
  // ---------------------------------------------------------------------------

  /** Streams arrive in order (RFC 9000 section 2.1); only opened ones can. */
  function TakeStream(conn: Conn, k: Accept): Accept {
    if k.ending.Some? || k.inHand.Some? || k.processed >= |conn.holders| then k
    else k.(inHand := Some(k.processed))
  }

  function EndAccept(k: Accept, ending: Ending): Accept {
    k.(inHand := None, ending := Some(ending), failed := k.failed || ending == Broken)
  }

  predicate FenceReached(k: Accept) {
    k.fence.Some? && (k.fence.value == -1 || k.high >= k.fence.value)
  }

  function ProcessStream(k: Accept): Accept {
    if k.inHand.None? || k.ending.Some? then k
    else
      var id := StreamId(k.inHand.value);
      if !ValidFence(id) || (k.fence.Some? && id > k.fence.value) then EndAccept(k, Broken)
      else
        var high := if id > k.high then id else k.high;
        k.(inHand := None, processed := k.processed + 1, high := high, running := k.running + {k.inHand.value},
           cancelled := k.cancelled || (k.fence.Some? && high >= k.fence.value))
  }

  function AcceptFails(k: Accept, silenced: bool): Accept {
    if k.inHand.Some? || k.ending.Some? then k
    else if FenceReached(k) then EndAccept(k, AtFence)
    else if silenced then EndAccept(k, Silenced)
    else EndAccept(k, Broken)
  }

  predicate FenceFits(k: Accept, fence: int) {
    (k.fence.Some? ==> k.fence.value == fence) && k.high <= fence
  }

  function SetFence(k: Accept, fence: int): Accept {
    if !FenceFits(k, fence) then k
    else k.(fence := Some(fence), cancelled := k.cancelled || fence == -1 || k.high >= fence)
  }

  // ---------------------------------------------------------------------------
  // The coordinator
  // ---------------------------------------------------------------------------

  function TakeNotice(g: Gen): Gen {
    if g.control.notice.None? then g
    else g.(phase := HasFence(g.control.notice.value), control := g.control.(notice := None))
  }

  function UseFence(g: Gen, fence: int): Gen {
    if FenceFits(g.accept, fence) then g.(phase := AwaitAccept, accept := SetFence(g.accept, fence))
    else g.(phase := Failed)
  }

  /** The waits and checks after the fence is set. */
  function NextPhase(g: Gen): Phase {
    match g.phase
    case Idle => Requesting
    case AwaitAccept => if g.accept.ending.Some? then AwaitHandlers else AwaitAccept
    case AwaitHandlers => if g.accept.running == {} then AwaitQuiet else AwaitHandlers
    case AwaitQuiet => if g.control.pending == 0 && g.control.up then CheckTransport else AwaitQuiet
    case CheckTransport => if g.closed then Failed else CheckAccept
    case CheckAccept => if g.accept.failed then Failed else Succeeded
    case _ => g.phase
  }

  /** processRuntime, one wait or check at a time; a wait that is not over leaves it where it is. */
  function Coordinate(g: Gen): Gen {
    match g.phase
    case AwaitComplete => TakeNotice(g)
    case HasFence(fence) => UseFence(g, fence)
    case _ => g.(phase := NextPhase(g))
  }

  function StepGen(p: Pool, c: nat, g: Gen, a: Action): Gen
    requires c in p.conns
  {
    match a
    case ServerBeat => if g.server.up then g.(toClient := g.toClient + [Heartbeat]) else g
    case ServerRead => ReadAsServer(p, c, g)
    case ServerTell(ok) => TellClient(p, c, g, ok)
    case ServerStop => g.(server := g.server.(up := false))
    case ClientBeat => if g.control.up && !g.control.writing then g.(toServer := g.toServer + [Heartbeat]) else g
    case StartWrite => BeginWrite(g)
    case PutRequest => PutOnWire(g)
    case EndWrite(ok) => FinishWrite(g, ok)
    case ReaderRead => ReadWire(g)
    case ReaderSend => SendToLoop(g)
    case LoopRead => HandleSlot(g)
    case LoopStop => g.(control := g.control.(up := false))
    case AcceptTake => g.(accept := TakeStream(p.conns[c], g.accept))
    case AcceptProcess => g.(accept := ProcessStream(g.accept))
    case AcceptError(cleaning) => g.(accept := AcceptFails(g.accept, g.forced || (g.closed && cleaning)))
    case HandlerReturn(n) => g.(accept := g.accept.(running := g.accept.running - {n}))
    case Advance => Coordinate(g)
    case Fail => if g.phase == Succeeded then g else g.(phase := Failed, closed := true)
    case Force => g.(forced := true, closed := true)
    case Close => g.(closed := true)
  }

  // ---------------------------------------------------------------------------
  // Worlds: one pool, any number of generations
  // ---------------------------------------------------------------------------

  datatype World = World(pool: Pool, gens: map<nat, Gen>)

  datatype Step = PoolStep(action: PoolState.Action) | Join(conn: nat) | GenStep(conn: nat, step: Action)

  function Do(w: World, s: Step): World {
    match s
    case PoolStep(a) => w.(pool := PoolState.Do(w.pool, a))
    case Join(c) => if c in w.pool.conns && c !in w.gens then w.(gens := w.gens[c := FRESH]) else w
    case GenStep(c, a) =>
      if c !in w.gens || c !in w.pool.conns then w
      else World(if Retires(w.gens[c], a) then BeginRetire(w.pool, c) else w.pool,
                 w.gens[c := StepGen(w.pool, c, w.gens[c], a)])
  }

  function Run(limits: Limits, steps: seq<Step>): World {
    if steps == [] then World(NewPool(limits), map[]) else Do(Run(limits, steps[..|steps| - 1]), steps[|steps| - 1])
  }
}

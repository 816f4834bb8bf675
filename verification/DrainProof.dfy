/** End-to-end safety of the drain. */
module DrainProof {
  import opened Basics
  import opened PoolState
  import opened PoolProof
  import opened PoolRegister
  import opened PoolRun
  import opened Drain

  // ---------------------------------------------------------------------------
  // The invariant of one generation
  // ---------------------------------------------------------------------------

  /** The value every fence on its way to the client, or there already, must have. */
  predicate Agreed(p: Pool, c: nat, fence: int) {
    Signalling(p, c) && fence == LastStream(p.conns[c])
  }

  predicate MessageOk(p: Pool, c: nat, m: Message) {
    m.Complete? ==> Agreed(p, c, m.fence)
  }

  predicate FromServer(m: Message) {
    m.Heartbeat? || m.Complete?
  }

  /** Every fence in flight is the server's last stream. */
  predicate WiresOk(p: Pool, c: nat, g: Gen) {
    && (forall i :: 0 <= i < |g.toClient| ==> FromServer(g.toClient[i]) && MessageOk(p, c, g.toClient[i]))
    && (forall i :: 0 <= i < |g.toServer| ==> g.toServer[i].Heartbeat? || g.toServer[i].Request?)
  }

  predicate HeldOk(p: Pool, c: nat, o: Option<Stamped>) {
    o.Some? ==> FromServer(o.value.message) && MessageOk(p, c, o.value.message)
                && (o.value.message.Complete? ==> o.value.epoch != NotRequested)
  }

  predicate FencesOk(p: Pool, c: nat, g: Gen) {
    && HeldOk(p, c, g.control.hand) && HeldOk(p, c, g.control.slot)
    && (g.control.complete.Some? ==> Agreed(p, c, g.control.complete.value))
    && (g.control.notice.Some? ==> Agreed(p, c, g.control.notice.value))
    && (g.phase.HasFence? ==> Agreed(p, c, g.phase.fence))
    && (g.accept.fence.Some? ==> Agreed(p, c, g.accept.fence.value))
  }

  /** Nothing reaches the server or comes back before the request has left. */
  predicate RequestOk(g: Gen) {
    && (g.control.put ==> g.control.epoch != NotRequested)
    && (g.server.asked ==> g.control.put)
    && (forall i :: 0 <= i < |g.toServer| && g.toServer[i].Request? ==> g.control.put)
    && (forall i :: 0 <= i < |g.toClient| && g.toClient[i].Complete? ==> g.control.put)
    && (g.control.hand.Some? && g.control.hand.value.message.Complete? ==> g.control.put)
    && (g.control.slot.Some? && g.control.slot.value.message.Complete? ==> g.control.put)
  }

  predicate ControlOk(k: Control) {
    && (k.epoch == RequestWriting ==> k.writing)
    && (k.writing ==> k.epoch == RequestWriting)
    && (k.epoch == CompleteReceived ==> k.complete.Some?)
    && !k.protested
    && (k.up ==> k.pending == (if k.hand.Some? then 1 else 0) + (if k.slot.Some? then 1 else 0))
  }

  /** The accept loop has taken streams 0, 1, 2, ... and nothing else. */
  predicate AcceptOk(conn: Conn, g: Gen) {
    var k := g.accept;
    && k.processed <= |conn.holders|
    && (k.inHand.Some? ==> k.inHand.value == k.processed < |conn.holders| && k.ending.None?)
    && k.high == (if k.processed == 0 then -1 else StreamId(k.processed - 1))
    && (forall n :: n in k.running ==> n < k.processed)
    && (k.ending == Some(AtFence) ==> FenceReached(k))
    && (k.ending == Some(Silenced) ==> g.forced || g.closed)
    && (k.ending == Some(Broken) ==> k.failed)
  }

  function Rank(phase: Phase): int {
    match phase
    case Idle => 0 case Requesting => 1 case AwaitComplete => 2 case HasFence(_) => 3 case AwaitAccept => 4
    case AwaitHandlers => 5 case AwaitQuiet => 6 case CheckTransport => 7 case CheckAccept => 8 case Succeeded => 9
    case Failed => -1
  }

  predicate PhaseOk(g: Gen) {
    && (Rank(g.phase) >= 4 ==> g.accept.fence.Some?)
    && (Rank(g.phase) >= 5 ==> g.accept.ending.Some?)
    && (Rank(g.phase) >= 6 ==> g.accept.running == {})
    && (Rank(g.phase) >= 8 && g.accept.ending == Some(Silenced) ==> g.forced)
    && (Rank(g.phase) >= 9 ==> g.accept.ending != Some(Broken))
  }

  predicate GenOk(p: Pool, c: nat, g: Gen) {
    && c in p.conns
    && WiresOk(p, c, g) && FencesOk(p, c, g) && RequestOk(g) && ControlOk(g.control) && AcceptOk(p.conns[c], g) &&
       PhaseOk(g)
  }

  // ---------------------------------------------------------------------------
  // The pool moves on
  // ---------------------------------------------------------------------------

  /** What a pool step may do to a generation, as the drain sees it. */
  predicate Later(p: Pool, q: Pool, c: nat) {
    && c in p.conns && c in q.conns && p.conns[c].holders <= q.conns[c].holders
    && (Signalling(p, c) ==> Signalling(q, c) && q.conns[c].holders == p.conns[c].holders)
  }

  lemma PoolMoves(p: Pool, a: PoolState.Action, c: nat)
    requires PoolOk(p) && c in p.conns
    ensures Later(p, PoolState.Do(p, a), c)
  {
    hide PoolOk;
    hide PoolState.Do;
    StepSettled(p, a, c);
  }

  lemma AgreedStays(p: Pool, q: Pool, c: nat, fence: int)
    requires Agreed(p, c, fence) && Later(p, q, c)
    ensures Agreed(q, c, fence)
  {
  }

  lemma GenStays(p: Pool, q: Pool, c: nat, g: Gen)
    requires GenOk(p, c, g) && Later(p, q, c)
    ensures GenOk(q, c, g)
  {
    forall fence | Agreed(p, c, fence)
      ensures Agreed(q, c, fence)
    {
      AgreedStays(p, q, c, fence);
    }
    hide Agreed;
    hide Later;
    assert p.conns[c].holders <= q.conns[c].holders by { LaterGrows(p, q, c); }
    hide RequestOk;
    hide ControlOk;
    hide PhaseOk;
  }

  lemma LaterGrows(p: Pool, q: Pool, c: nat)
    requires Later(p, q, c)
    ensures c in q.conns && p.conns[c].holders <= q.conns[c].holders
  {
  }

  // ---------------------------------------------------------------------------
  // Steps of the server
  // ---------------------------------------------------------------------------

  lemma ReadAsServerOk(p: Pool, c: nat, g: Gen)
    requires GenOk(p, c, g)
    ensures GenOk(p, c, ReadAsServer(p, c, g))
  {
    hide FencesOk;
    hide ControlOk;
    hide PhaseOk;
    hide MessageOk;
    var h := ReadAsServer(p, c, g);
    if h != g {
      assert h.control == g.control && h.accept == g.accept && h.phase == g.phase && h.toClient == g.toClient;
      assert h.closed == g.closed && h.forced == g.forced;
      ServerKeepsFences(p, c, g, h);
      ServerKeepsPhase(g, h);
    }
  }

  lemma ServerKeepsFences(p: Pool, c: nat, g: Gen, h: Gen)
    requires FencesOk(p, c, g) && h.control == g.control && h.accept == g.accept && h.phase == g.phase
    ensures FencesOk(p, c, h)
  {
    hide Agreed;
    hide HeldOk;
  }

  lemma ServerKeepsPhase(g: Gen, h: Gen)
    requires PhaseOk(g) && h.accept == g.accept && h.phase == g.phase && h.forced == g.forced
    ensures PhaseOk(h)
  {
  }

  /** What the server tells is the last stream it will ever have opened. */
  lemma TellClientOk(p: Pool, c: nat, g: Gen, ok: bool)
    requires PoolOk(p) && GenOk(p, c, g)
    ensures GenOk(p, c, TellClient(p, c, g, ok))
  {
    hide FencesOk;
    hide ControlOk;
    hide PhaseOk;
    hide PoolOk;
    var h := TellClient(p, c, g, ok);
    ServerKeepsFences(p, c, g, h);
    ServerKeepsPhase(g, h);
    if Signalling(p, c) {
      SignalValue(p, c);
    }
  }

  lemma SignalValue(p: Pool, c: nat)
    requires PoolOk(p) && Signalling(p, c)
    ensures p.retirements[c].signals == [LastStream(p.conns[c])] && ValidFence(LastStream(p.conns[c]))
  {
    SignalledIsIdle(p, c);
    DrainedFence(p, c);
    hide FrameOk;
    hide TrafficOk;
    assert RetirementOk(p.retiring, c, p.conns[c], p.retirements[c]);
  }

  // ---------------------------------------------------------------------------
  // Steps of the client's control loop
  // ---------------------------------------------------------------------------

  /** Steps of the control loop do not touch the accept loop or the coordinator's later phases. */
  lemma ControlKeepsAccept(p: Pool, c: nat, g: Gen, h: Gen)
    requires c in p.conns && AcceptOk(p.conns[c], g) && PhaseOk(g)
    requires h.accept == g.accept && h.forced == g.forced && h.closed == g.closed
    requires h.phase == g.phase || Rank(h.phase) < 4
    ensures AcceptOk(p.conns[c], h) && PhaseOk(h)
  {
  }

  lemma BeginWriteOk(p: Pool, c: nat, g: Gen)
    requires GenOk(p, c, g)
    ensures GenOk(p, c, BeginWrite(g))
  {
    hide AcceptOk;
    hide PhaseOk;
    hide HeldOk;
    hide Agreed;
    ControlKeepsAccept(p, c, g, BeginWrite(g));
  }

  lemma PutOnWireOk(p: Pool, c: nat, g: Gen)
    requires GenOk(p, c, g)
    ensures GenOk(p, c, PutOnWire(g))
  {
    hide AcceptOk;
    hide PhaseOk;
    hide HeldOk;
    hide Agreed;
    ControlKeepsAccept(p, c, g, PutOnWire(g));
  }

  lemma FinishWriteOk(p: Pool, c: nat, g: Gen, ok: bool)
    requires GenOk(p, c, g)
    ensures GenOk(p, c, FinishWrite(g, ok))
  {
    hide AcceptOk;
    hide PhaseOk;
    hide HeldOk;
    hide Agreed;
    ControlKeepsAccept(p, c, g, FinishWrite(g, ok));
  }

  /** A fence read from the wire is stamped after the request left. */
  lemma ReadWireOk(p: Pool, c: nat, g: Gen)
    requires GenOk(p, c, g)
    ensures GenOk(p, c, ReadWire(g))
  {
    hide AcceptOk;
    hide PhaseOk;
    hide Agreed;
    ControlKeepsAccept(p, c, g, ReadWire(g));
  }

  lemma SendToLoopOk(p: Pool, c: nat, g: Gen)
    requires GenOk(p, c, g)
    ensures GenOk(p, c, SendToLoop(g))
  {
    hide AcceptOk;
    hide PhaseOk;
    hide HeldOk;
    hide Agreed;
    hide MessageOk;
    ControlKeepsAccept(p, c, g, SendToLoop(g));
  }

  /** The loop never calls an honest server's answer unsolicited or conflicting. */
  lemma NeverProtests(p: Pool, c: nat, g: Gen)
    requires GenOk(p, c, g) && g.control.up && !g.control.writing && g.control.slot.Some?
    ensures !HandleControl(g.control, g.control.slot.value).protested
    ensures HandleControl(g.control, g.control.slot.value).up
  {
    hide AcceptOk;
    hide PhaseOk;
    hide WiresOk;
  }

  lemma HandleSlotFences(p: Pool, c: nat, g: Gen)
    requires FencesOk(p, c, g)
    ensures FencesOk(p, c, HandleSlot(g))
  {
    hide Agreed;
  }

  lemma HandleSlotOk(p: Pool, c: nat, g: Gen)
    requires GenOk(p, c, g)
    ensures GenOk(p, c, HandleSlot(g))
  {
    hide AcceptOk;
    hide PhaseOk;
    hide FencesOk;
    hide MessageOk;
    HandleSlotFences(p, c, g);
    ControlKeepsAccept(p, c, g, HandleSlot(g));
    if g.control.up && !g.control.writing && g.control.slot.Some? {
      NeverProtests(p, c, g);
    }
  }

  // ---------------------------------------------------------------------------
  // Steps of the accept loop
  // ---------------------------------------------------------------------------

  lemma AcceptKeepsRest(p: Pool, c: nat, g: Gen, k: Accept)
    requires WiresOk(p, c, g) && FencesOk(p, c, g) && RequestOk(g) && k.fence == g.accept.fence
    ensures WiresOk(p, c, g.(accept := k)) && FencesOk(p, c, g.(accept := k)) && RequestOk(g.(accept := k))
  {
    hide Agreed;
    hide HeldOk;
    hide MessageOk;
  }

  lemma TakeStreamOk(p: Pool, c: nat, g: Gen)
    requires GenOk(p, c, g)
    ensures GenOk(p, c, g.(accept := TakeStream(p.conns[c], g.accept)))
  {
    hide WiresOk;
    hide FencesOk;
    hide RequestOk;
    AcceptKeepsRest(p, c, g, TakeStream(p.conns[c], g.accept));
  }

  lemma ProcessStreamOk(p: Pool, c: nat, g: Gen)
    requires GenOk(p, c, g)
    ensures GenOk(p, c, g.(accept := ProcessStream(g.accept)))
  {
    hide WiresOk;
    hide FencesOk;
    hide RequestOk;
    AcceptKeepsRest(p, c, g, ProcessStream(g.accept));
  }

  lemma AcceptFailsOk(p: Pool, c: nat, g: Gen, cleaning: bool)
    requires GenOk(p, c, g)
    ensures GenOk(p, c, g.(accept := AcceptFails(g.accept, g.forced || (g.closed && cleaning))))
  {
    hide WiresOk;
    hide FencesOk;
    hide RequestOk;
    AcceptKeepsRest(p, c, g, AcceptFails(g.accept, g.forced || (g.closed && cleaning)));
  }

  lemma HandlerReturnOk(p: Pool, c: nat, g: Gen, n: nat)
    requires GenOk(p, c, g)
    ensures GenOk(p, c, g.(accept := g.accept.(running := g.accept.running - {n})))
  {
    hide WiresOk;
    hide FencesOk;
    hide RequestOk;
    AcceptKeepsRest(p, c, g, g.accept.(running := g.accept.running - {n}));
  }

  // ---------------------------------------------------------------------------
  // Steps of the coordinator
  // ---------------------------------------------------------------------------

  lemma TakeNoticeOk(p: Pool, c: nat, g: Gen)
    requires GenOk(p, c, g)
    ensures GenOk(p, c, TakeNotice(g))
  {
    hide Agreed;
    hide HeldOk;
    hide MessageOk;
    hide AcceptOk;
    hide PhaseOk;
    ControlKeepsAccept(p, c, g, TakeNotice(g));
  }

  lemma UseFenceOk(p: Pool, c: nat, g: Gen)
    requires GenOk(p, c, g) && g.phase.HasFence?
    ensures GenOk(p, c, UseFence(g, g.phase.fence))
  {
    hide Agreed;
    hide HeldOk;
    hide MessageOk;
  }

  /** Each wait leaves behind what the next phase relies on. */
  lemma NextPhaseOk(p: Pool, c: nat, g: Gen)
    requires GenOk(p, c, g) && !g.phase.HasFence?
    ensures GenOk(p, c, g.(phase := NextPhase(g)))
  {
    hide Agreed;
    hide HeldOk;
    hide MessageOk;
  }

  lemma CoordinateOk(p: Pool, c: nat, g: Gen)
    requires GenOk(p, c, g)
    ensures GenOk(p, c, Coordinate(g))
  {
    hide GenOk;
    hide TakeNotice;
    hide UseFence;
    hide NextPhase;
    if g.phase.HasFence? {
      UseFenceOk(p, c, g);
    } else {
      NextPhaseOk(p, c, g);
      TakeNoticeOk(p, c, g);
    }
  }

  lemma StopsOk(p: Pool, c: nat, g: Gen, h: Gen)
    requires GenOk(p, c, g)
    requires h.toServer == g.toServer && h.toClient == g.toClient && h.accept == g.accept
    requires h.server.asked == g.server.asked && (g.control.up || !h.control.up) &&
             h.control.(up := g.control.up) == g.control
    requires h.phase == g.phase || h.phase == Failed
    requires (g.closed ==> h.closed) && (g.forced ==> h.forced)
    ensures GenOk(p, c, h)
  {
    hide Agreed;
    hide HeldOk;
    hide MessageOk;
  }

  lemma ServerBeatOk(p: Pool, c: nat, g: Gen)
    requires GenOk(p, c, g)
    ensures GenOk(p, c, g.(toClient := g.toClient + [Heartbeat]))
  {
    hide FencesOk;
    hide ControlOk;
    hide AcceptOk;
    hide PhaseOk;
    hide Agreed;
    var h := g.(toClient := g.toClient + [Heartbeat]);
    ServerKeepsFences(p, c, g, h);
    ControlKeepsAccept(p, c, g, h);
  }

  lemma ClientBeatOk(p: Pool, c: nat, g: Gen)
    requires GenOk(p, c, g)
    ensures GenOk(p, c, g.(toServer := g.toServer + [Heartbeat]))
  {
    hide FencesOk;
    hide ControlOk;
    hide AcceptOk;
    hide PhaseOk;
    hide Agreed;
    hide MessageOk;
    var h := g.(toServer := g.toServer + [Heartbeat]);
    ServerKeepsFences(p, c, g, h);
    ControlKeepsAccept(p, c, g, h);
  }

  lemma StepGenOk(p: Pool, c: nat, g: Gen, a: Drain.Action)
    requires PoolOk(p) && GenOk(p, c, g)
    ensures GenOk(p, c, StepGen(p, c, g, a))
  {
    hide PoolOk;
    assert c in p.conns;
    hide GenOk;
    hide ReadAsServer;
    hide TellClient;
    hide BeginWrite;
    hide PutOnWire;
    hide FinishWrite;
    hide ReadWire;
    hide SendToLoop;
    hide HandleSlot;
    hide TakeStream;
    hide ProcessStream;
    hide AcceptFails;
    hide Coordinate;
    match a {
      case ServerBeat => ServerBeatOk(p, c, g);
      case ServerRead => ReadAsServerOk(p, c, g);
      case ServerTell(ok) => TellClientOk(p, c, g, ok);
      case ServerStop => StopsOk(p, c, g, g.(server := g.server.(up := false)));
      case ClientBeat => ClientBeatOk(p, c, g);
      case StartWrite => BeginWriteOk(p, c, g);
      case PutRequest => PutOnWireOk(p, c, g);
      case EndWrite(ok) => FinishWriteOk(p, c, g, ok);
      case ReaderRead => ReadWireOk(p, c, g);
      case ReaderSend => SendToLoopOk(p, c, g);
      case LoopRead => HandleSlotOk(p, c, g);
      case LoopStop => StopsOk(p, c, g, g.(control := g.control.(up := false)));
      case AcceptTake => TakeStreamOk(p, c, g);
      case AcceptProcess => ProcessStreamOk(p, c, g);
      case AcceptError(cleaning) => AcceptFailsOk(p, c, g, cleaning);
      case HandlerReturn(n) => HandlerReturnOk(p, c, g, n);
      case Advance => CoordinateOk(p, c, g);
      case Fail => StopsOk(p, c, g, if g.phase == Succeeded then g else g.(phase := Failed, closed := true));
      case Force => StopsOk(p, c, g, g.(forced := true, closed := true));
      case Close => StopsOk(p, c, g, g.(closed := true));
    }
  }

  // ---------------------------------------------------------------------------
  // Whole runs
  // ---------------------------------------------------------------------------

  ghost predicate WorldOk(w: World) {
    PoolOk(w.pool) && (forall c :: c in w.gens ==> GenOk(w.pool, c, w.gens[c]))
  }

  lemma FreshOk(p: Pool, c: nat)
    requires c in p.conns
    ensures GenOk(p, c, FRESH)
  {
  }

  lemma GenKnown(p: Pool, c: nat, g: Gen)
    requires GenOk(p, c, g)
    ensures c in p.conns
  {
  }

  lemma OthersMove(w: World, a: PoolState.Action, c: nat)
    requires WorldOk(w) && c in w.gens
    ensures GenOk(PoolState.Do(w.pool, a), c, w.gens[c])
  {
    hide PoolOk;
    hide GenOk;
    hide PoolState.Do;
    hide Later;
    GenKnown(w.pool, c, w.gens[c]);
    PoolMoves(w.pool, a, c);
    GenStays(w.pool, PoolState.Do(w.pool, a), c, w.gens[c]);
  }

  lemma GenStepOk(w: World, c: nat, a: Drain.Action)
    requires WorldOk(w) && c in w.gens && c in w.pool.conns
    ensures WorldOk(Drain.Do(w, GenStep(c, a)))
  {
    hide PoolOk;
    hide GenOk;
    hide StepGen;
    hide BeginRetire;
    hide Retires;
    StepGenOk(w.pool, c, w.gens[c], a);
    var stepped := w.(gens := w.gens[c := StepGen(w.pool, c, w.gens[c], a)]);
    assert WorldOk(stepped);
    if Retires(w.gens[c], a) {
      DoOk(w.pool, DoBeginRetire(c));
      forall x | x in stepped.gens
        ensures GenOk(BeginRetire(w.pool, c), x, stepped.gens[x])
      {
        OthersMove(stepped, DoBeginRetire(c), x);
      }
    }
  }

  lemma DrainDoOk(w: World, s: Step)
    requires WorldOk(w)
    ensures WorldOk(Drain.Do(w, s))
  {
    hide PoolOk;
    hide GenOk;
    hide StepGen;
    hide PoolState.Do;
    match s {
      case PoolStep(a) =>
        DoOk(w.pool, a);
        forall c | c in w.gens
          ensures GenOk(PoolState.Do(w.pool, a), c, w.gens[c])
        {
          OthersMove(w, a, c);
        }
      case Join(c) =>
        if c in w.pool.conns {
          FreshOk(w.pool, c);
        }
      case GenStep(c, a) =>
        if c in w.gens && c in w.pool.conns {
          GenStepOk(w, c, a);
        }
    }
  }

  lemma {:induction false} DrainRunOk(limits: Limits, steps: seq<Step>)
    ensures WorldOk(Drain.Run(limits, steps))
  {
    hide Drain.Do;
    if steps == [] {
      StartOk(limits);
    } else {
      hide WorldOk;
      DrainRunOk(limits, steps[..|steps| - 1]);
      DrainDoOk(Drain.Run(limits, steps[..|steps| - 1]), steps[|steps| - 1]);
    }
  }

  /** Every stream the server opened was accepted and its handler has returned. */
  predicate FullyServed(conn: Conn, g: Gen) {
    g.accept.processed == |conn.holders| && g.accept.running == {}
  }

  lemma SuccessServes(p: Pool, c: nat, g: Gen)
    requires GenOk(p, c, g) && g.phase == Succeeded && !g.forced
    ensures Signalling(p, c) && FullyServed(p.conns[c], g)
  {
    hide WiresOk;
    hide RequestOk;
    hide ControlOk;
    assert g.accept.ending.Some?;
    var ending := g.accept.ending.value;
    assert ending == AtFence || ending == Silenced || ending == Broken;
    assert g.accept.ending == Some(AtFence);
    assert Agreed(p, c, g.accept.fence.value);
  }

  /** The server of a generation that has signalled opens nothing more, whatever runs. */
  lemma {:induction false} NothingAfterwards(limits: Limits, steps: seq<Step>, k: nat, c: nat)
    requires k <= |steps| && Signalling(Drain.Run(limits, steps[..k]).pool, c)
    ensures var early, late := Drain.Run(limits, steps[..k]).pool, Drain.Run(limits, steps).pool;
            Signalling(late, c) && late.conns[c].holders == early.conns[c].holders
  {
    hide Drain.Do;
    hide WorldOk;
    if k == |steps| {
      assert steps[..k] == steps;
    } else {
      var before := steps[..|steps| - 1];
      assert before[..k] == steps[..k];
      NothingAfterwards(limits, before, k, c);
      DrainRunOk(limits, before);
      PoolOfStep(Drain.Run(limits, before), steps[|steps| - 1], c);
    }
  }

  lemma PoolOfStep(w: World, s: Step, c: nat)
    requires WorldOk(w) && c in w.pool.conns
    ensures Later(w.pool, Drain.Do(w, s).pool, c)
  {
    hide PoolOk;
    hide GenOk;
    hide StepGen;
    hide BeginRetire;
    match s {
      case PoolStep(a) => PoolMoves(w.pool, a, c);
      case Join(_) =>
      case GenStep(d, a) => PoolMoves(w.pool, DoBeginRetire(d), c);
    }
    hide PoolState.Do;
  }

  /** Drain safety: if the coordinator succeeds without force, every stream the server ever
      opens on that generation, then or later, was accepted and its handler has returned. */
  lemma DrainSafe(limits: Limits, steps: seq<Step>, k: nat, c: nat)
    requires k <= |steps|
    requires var w := Drain.Run(limits, steps[..k]); c in w.gens && w.gens[c].phase == Succeeded && !w.gens[c].forced
    ensures var w, late := Drain.Run(limits, steps[..k]), Drain.Run(limits, steps);
            && c in w.pool.conns && c in late.pool.conns
            && FullyServed(w.pool.conns[c], w.gens[c])
            && late.pool.conns[c].holders == w.pool.conns[c].holders
  {
    var w := Drain.Run(limits, steps[..k]);
    DrainRunOk(limits, steps[..k]);
    hide Drain.Run;
    hide GenOk;
    assert GenOk(w.pool, c, w.gens[c]);
    SuccessServes(w.pool, c, w.gens[c]);
    NothingAfterwards(limits, steps, k, c);
  }

  /** No run makes the client call the server's answer unsolicited or conflicting. */
  lemma NoFalseProtest(limits: Limits, steps: seq<Step>, c: nat)
    requires c in Drain.Run(limits, steps).gens
    ensures !Drain.Run(limits, steps).gens[c].control.protested
  {
    hide WiresOk;
    hide FencesOk;
    hide AcceptOk;
    hide PhaseOk;
    hide PoolOk;
    var w := Drain.Run(limits, steps);
    DrainRunOk(limits, steps);
    hide Drain.Run;
    assert GenOk(w.pool, c, w.gens[c]);
  }
}

/** The drain can always be completed: from every reachable state in which nothing has failed and
    all leases are back, some continuation of the run succeeds. */
module DrainProgress {
  import opened Basics
  import opened PoolState
  import opened PoolProof
  import opened PoolRegister
  import opened PoolRun
  import opened Drain
  import opened DrainProof

  // ---------------------------------------------------------------------------
  // Nothing is lost on the way
  // ---------------------------------------------------------------------------

  predicate IsComplete(s: Option<Stamped>) {
    s.Some? && s.value.message.Complete?
  }

  /** The server's answer is on its way to the coordinator, or there. */
  predicate Answered(g: Gen) {
    || (exists i :: 0 <= i < |g.toClient| && g.toClient[i].Complete?)
    || IsComplete(g.control.hand) || IsComplete(g.control.slot) || g.control.complete.Some?
  }

  predicate SentOk(g: Gen) {
    && (g.server.up && g.control.put ==> g.server.asked || Request in g.toServer)
    && (g.server.up && g.server.told ==> Answered(g))
  }

  /** How far the request is, by the coordinator's phase. */
  predicate EpochOk(g: Gen) {
    var k := g.control;
    && (k.complete.Some? ==> k.epoch == CompleteReceived)
    && (k.epoch == RequestCommitted || k.epoch == CompleteReceived ==> k.put)
    && (g.phase == Idle ==> k.epoch == NotRequested)
    && (g.phase == Requesting ==> k.epoch == NotRequested || k.epoch == RequestWriting)
    && (g.phase == AwaitComplete ==> k.epoch == RequestCommitted || (k.epoch == CompleteReceived && k.notice.Some?))
    && (k.notice.Some? || Rank(g.phase) >= 3 ==> k.epoch == CompleteReceived)
    && (g.accept.fence.Some? ==> Rank(g.phase) >= 4 || g.phase == Failed)
  }

  predicate FlowOk(g: Gen) {
    SentOk(g) && EpochOk(g)
  }

  lemma ServerFlow(p: Pool, c: nat, g: Gen, a: Drain.Action)
    requires GenOk(p, c, g) && FlowOk(g) && (a.ServerBeat? || a.ServerRead? || a.ServerTell? || a.ServerStop?)
    ensures FlowOk(StepGen(p, c, g, a))
  {
    hide GenOk;
    GenKnown(p, c, g);
    var h := StepGen(p, c, g, a);
    assert h.control == g.control && h.accept == g.accept && h.phase == g.phase;
    if a.ServerRead? {
      ReadKeepsRequest(p, c, g);
    } else {
      AddedKeepsAnswer(g, h);
      if |h.toClient| > |g.toClient| && a.ServerTell? {
        assert h.toClient[|g.toClient|].Complete?;
      }
    }
  }

  /** What the server reads away is not the request, or it is asked now, or its loop has ended. */
  lemma ReadKeepsRequest(p: Pool, c: nat, g: Gen)
    requires c in p.conns && SentOk(g)
    ensures SentOk(ReadAsServer(p, c, g))
  {
    if g.toServer != [] {
      assert g.toServer == [g.toServer[0]] + g.toServer[1..];
    }
  }

  lemma AddedKeepsAnswer(g: Gen, h: Gen)
    requires h.control == g.control && g.toClient <= h.toClient
    ensures Answered(g) ==> Answered(h)
  {
    if i :| 0 <= i < |g.toClient| && g.toClient[i].Complete? {
      assert h.toClient[i].Complete?;
    }
  }

  lemma BeatFlow(g: Gen)
    requires FlowOk(g)
    ensures FlowOk(g.(toServer := g.toServer + [Heartbeat])) && FlowOk(g.(control := g.control.(up := false)))
  {
    var beat := g.(toServer := g.toServer + [Heartbeat]);
    SameAnswer(g, beat);
    SameAnswer(g, g.(control := g.control.(up := false)));
    hide Answered;
    if Request in g.toServer {
      assert Request in beat.toServer;
    }
  }

  lemma BeginWriteFlow(g: Gen)
    requires FlowOk(g)
    ensures FlowOk(BeginWrite(g))
  {
    SameAnswer(g, BeginWrite(g));
    hide Answered;
  }

  lemma PutFlow(g: Gen)
    requires FlowOk(g) && ControlOk(g.control)
    ensures FlowOk(PutOnWire(g))
  {
    var h := PutOnWire(g);
    SameAnswer(g, h);
    hide Answered;
    if h != g {
      assert h.toServer[|g.toServer|] == Request;
    }
  }

  lemma FinishFlow(g: Gen, ok: bool)
    requires FlowOk(g) && ControlOk(g.control)
    ensures FlowOk(FinishWrite(g, ok))
  {
    SameAnswer(g, FinishWrite(g, ok));
    hide Answered;
  }

  lemma WriteFlow(p: Pool, c: nat, g: Gen, a: Drain.Action)
    requires GenOk(p, c, g) && FlowOk(g) &&
             (a.ClientBeat? || a.StartWrite? || a.PutRequest? || a.EndWrite? || a.LoopStop?)
    ensures FlowOk(StepGen(p, c, g, a))
  {
    ControlFacts(p, c, g);
    hide GenOk;
    hide FlowOk;
    hide BeginWrite;
    hide PutOnWire;
    hide FinishWrite;
    BeatFlow(g);
    BeginWriteFlow(g);
    PutFlow(g);
    match a {
      case EndWrite(ok) => FinishFlow(g, ok);
      case _ =>
    }
  }

  lemma ControlFacts(p: Pool, c: nat, g: Gen)
    requires GenOk(p, c, g)
    ensures c in p.conns && ControlOk(g.control)
  {
  }

  lemma SameAnswer(g: Gen, h: Gen)
    requires h.toClient == g.toClient && h.control.hand == g.control.hand && h.control.slot == g.control.slot
    requires h.control.complete == g.control.complete
    ensures Answered(g) ==> Answered(h)
  {
  }

  lemma ReadFlow(p: Pool, c: nat, g: Gen, a: Drain.Action)
    requires GenOk(p, c, g) && FlowOk(g) && (a.ReaderRead? || a.ReaderSend? || a.LoopRead?)
    ensures FlowOk(StepGen(p, c, g, a))
  {
    if a.LoopRead? && g.control.up && !g.control.writing && g.control.slot.Some? {
      NeverProtests(p, c, g);
    }
    GenKnown(p, c, g);
    AnswerMoves(g, a);
    hide GenOk;
    hide Answered;
    hide Unsolicited;
  }

  /** An answer moves from the wire to the reader, to the loop, and is taken. */
  lemma AnswerMoves(g: Gen, a: Drain.Action)
    requires a.LoopRead? && HandleSlot(g) != g ==> !HandleSlot(g).control.protested
    ensures Answered(g) && a.ReaderRead? ==> Answered(ReadWire(g))
    ensures Answered(g) && a.ReaderSend? ==> Answered(SendToLoop(g))
    ensures Answered(g) && a.LoopRead? ==> Answered(HandleSlot(g))
  {
    if i :| 0 <= i < |g.toClient| && g.toClient[i].Complete? {
      if a.ReaderRead? && i > 0 {
        assert g.toClient[1..][i - 1].Complete?;
      }
    }
  }

  lemma AcceptFlow(p: Pool, c: nat, g: Gen, a: Drain.Action)
    requires GenOk(p, c, g) && FlowOk(g) && (a.AcceptTake? || a.AcceptProcess? || a.AcceptError? || a.HandlerReturn?)
    ensures FlowOk(StepGen(p, c, g, a))
  {
    hide GenOk;
    GenKnown(p, c, g);
    SameAnswer(g, StepGen(p, c, g, a));
    hide Answered;
  }

  /** The request and the answer are where they were. */
  lemma SameSent(g: Gen, h: Gen)
    requires SentOk(g) && h.server == g.server && h.toServer == g.toServer && h.toClient == g.toClient
    requires h.control.(notice := None) == g.control.(notice := None)
    ensures SentOk(h)
  {
    SameAnswer(g, h);
    hide Answered;
  }

  lemma CoordinateEpoch(g: Gen)
    requires EpochOk(g)
    ensures EpochOk(Coordinate(g))
  {
    hide FenceFits;
  }

  lemma CoordinateFlow(p: Pool, c: nat, g: Gen, a: Drain.Action)
    requires GenOk(p, c, g) && FlowOk(g) && (a.Advance? || a.Fail? || a.Force? || a.Close?)
    ensures FlowOk(StepGen(p, c, g, a))
  {
    hide GenOk;
    hide SentOk;
    GenKnown(p, c, g);
    CoordinateSame(g);
    SameSent(g, StepGen(p, c, g, a));
    CoordinateEpoch(g);
    hide Coordinate;
  }

  lemma CoordinateSame(g: Gen)
    ensures var h := Coordinate(g);
            && h.server == g.server && h.toServer == g.toServer && h.toClient == g.toClient
            && h.control.(notice := None) == g.control.(notice := None)
  {
    hide FenceFits;
    hide SetFence;
  }

  lemma StepFlow(p: Pool, c: nat, g: Gen, a: Drain.Action)
    requires GenOk(p, c, g) && FlowOk(g)
    ensures c in p.conns && FlowOk(StepGen(p, c, g, a))
  {
    hide GenOk;
    hide FlowOk;
    hide StepGen;
    GenKnown(p, c, g);
    if a.ServerBeat? || a.ServerRead? || a.ServerTell? || a.ServerStop? {
      ServerFlow(p, c, g, a);
    } else if a.ClientBeat? || a.StartWrite? || a.PutRequest? || a.EndWrite? || a.LoopStop? {
      WriteFlow(p, c, g, a);
    } else if a.ReaderRead? || a.ReaderSend? || a.LoopRead? {
      ReadFlow(p, c, g, a);
    } else if a.AcceptTake? || a.AcceptProcess? || a.AcceptError? || a.HandlerReturn? {
      AcceptFlow(p, c, g, a);
    } else {
      CoordinateFlow(p, c, g, a);
    }
  }

  // ---------------------------------------------------------------------------
  // Over runs
  // ---------------------------------------------------------------------------

  lemma RegistrationRetirements(p: Pool, a: PoolState.Action, c: nat)
    requires c in p.retirements && IsRegistration(a)
    ensures c in PoolState.Do(p, a).retirements
  {
    hide Signalled;
  }

  lemma UDPRetirements(p: Pool, a: PoolState.Action, c: nat)
    requires c in p.retirements && (a.DoReserveUDP? || a.DoReleaseUDP?)
    ensures c in PoolState.Do(p, a).retirements
  {
    hide IsRetiring;
    hide Drained;
    hide IsCurrent;
  }

  lemma BeginAdmissionRetirements(p: Pool, a: PoolState.Action, c: nat)
    requires c in p.retirements && a.DoBeginAdmission?
    ensures c in PoolState.Do(p, a).retirements
  {
    hide Lists;
    hide Filter;
    hide TakesTCP;
  }

  lemma LendRetirements(p: Pool, a: nat, l: nat, d: nat, c: nat)
    requires d in p.conns && c in p.retirements
    ensures c in Lend(p, a, l, d).retirements
  {
  }

  lemma NextRetirements(p: Pool, a: nat, l: nat, pick: nat, c: nat)
    requires c in p.retirements
    ensures c in Next(p, a, l, pick).retirements
  {
    hide Balance;
    hide Scan;
    hide Leasable;
    hide Lend;
    if a in p.admissions {
      var adm := Balance(p, p.admissions[a], pick);
      if adm.next <= |adm.candidates| {
        var k := Scan(p, adm.candidates, adm.next);
        if k < |adm.candidates| {
          LeasableConn(p, adm.candidates[k]);
          LendRetirements(p.(admissions := p.admissions[a := adm.(next := k + 1)]), a, l, adm.candidates[k], c);
        }
      }
    }
  }

  lemma LeaseRetirements(p: Pool, a: PoolState.Action, c: nat)
    requires c in p.retirements && !IsRegistration(a) && !IsAdmission(a)
    ensures c in PoolState.Do(p, a).retirements
  {
    hide Signalled;
  }

  lemma DoNextRetirements(p: Pool, a: PoolState.Action, c: nat)
    requires c in p.retirements && a.DoNext?
    ensures c in PoolState.Do(p, a).retirements
  {
    hide Next;
    NextRetirements(p, a.admission, a.lease, a.pick, c);
  }

  /** A retirement is never forgotten. */
  lemma RetirementsStay(p: Pool, a: PoolState.Action, c: nat)
    requires c in p.retirements
    ensures c in PoolState.Do(p, a).retirements
  {
    hide PoolState.Do;
    if IsRegistration(a) {
      RegistrationRetirements(p, a, c);
    } else if a.DoReserveUDP? || a.DoReleaseUDP? {
      UDPRetirements(p, a, c);
    } else if a.DoBeginAdmission? {
      BeginAdmissionRetirements(p, a, c);
    } else if a.DoNext? {
      DoNextRetirements(p, a, c);
    } else {
      LeaseRetirements(p, a, c);
    }
  }

  predicate GenFlow(p: Pool, c: nat, g: Gen) {
    FlowOk(g) && (g.server.asked ==> c in p.retirements)
  }

  predicate WorldFlow(w: World) {
    forall c :: c in w.gens ==> GenFlow(w.pool, c, w.gens[c])
  }

  lemma PoolFlow(w: World, a: PoolState.Action)
    requires WorldFlow(w)
    ensures WorldFlow(w.(pool := PoolState.Do(w.pool, a)))
  {
    hide PoolState.Do;
    hide FlowOk;
    forall c | c in w.gens
      ensures GenFlow(PoolState.Do(w.pool, a), c, w.gens[c])
    {
      assert GenFlow(w.pool, c, w.gens[c]);
      if w.gens[c].server.asked {
        RetirementsStay(w.pool, a, c);
      }
    }
  }

  /** A server that is asked has begun the retirement. */
  lemma AskedRetires(p: Pool, c: nat, g: Gen, a: Drain.Action)
    requires c in p.conns && (g.server.asked ==> c in p.retirements)
    ensures var q := if Retires(g, a) then BeginRetire(p, c) else p;
            StepGen(p, c, g, a).server.asked ==> c in q.retirements
  {
    hide Signalled;
    if a.ServerRead? {
    } else if a.ServerTell? {
    } else {
      ServerUntouched(p, c, g, a);
      hide StepGen;
    }
  }

  lemma ServerUntouched(p: Pool, c: nat, g: Gen, a: Drain.Action)
    requires c in p.conns && !a.ServerRead? && !a.ServerTell?
    ensures StepGen(p, c, g, a).server.asked == g.server.asked
  {
  }

  lemma GenStepFlow(w: World, c: nat, a: Drain.Action)
    requires WorldOk(w) && WorldFlow(w) && c in w.gens && c in w.pool.conns
    ensures WorldFlow(Drain.Do(w, GenStep(c, a)))
  {
    hide GenOk;
    hide PoolOk;
    hide FlowOk;
    hide StepGen;
    hide Retires;
    var (g, q) := (w.gens[c], if Retires(w.gens[c], a) then BeginRetire(w.pool, c) else w.pool);
    assert GenFlow(w.pool, c, g);
    StepFlow(w.pool, c, g, a);
    AskedRetires(w.pool, c, g, a);
    PoolFlow(w, DoBeginRetire(c));
    assert PoolState.Do(w.pool, DoBeginRetire(c)) == BeginRetire(w.pool, c);
    hide BeginRetire;
    hide PoolState.Do;
    forall x | x in w.gens && x != c
      ensures GenFlow(q, x, w.gens[x])
    {
      assert GenFlow(w.pool, x, w.gens[x]);
    }
  }

  lemma FreshFlow(p: Pool, c: nat)
    ensures GenFlow(p, c, FRESH)
  {
  }

  lemma DoFlow(w: World, s: Step)
    requires WorldOk(w) && WorldFlow(w)
    ensures WorldFlow(Drain.Do(w, s))
  {
    hide WorldOk;
    hide GenFlow;
    match s {
      case PoolStep(a) =>
        PoolFlow(w, a);
        hide PoolState.Do;
      case Join(c) =>
        FreshFlow(w.pool, c);
      case GenStep(c, a) =>
        if c in w.gens && c in w.pool.conns {
          GenStepFlow(w, c, a);
          hide Drain.Do;
        }
    }
  }

  lemma {:induction false} RunFlow(limits: Limits, steps: seq<Step>)
    ensures WorldFlow(Drain.Run(limits, steps))
  {
    hide Drain.Do;
    hide WorldOk;
    if steps != [] {
      hide WorldFlow;
      RunFlow(limits, steps[..|steps| - 1]);
      DrainRunOk(limits, steps[..|steps| - 1]);
      DoFlow(Drain.Run(limits, steps[..|steps| - 1]), steps[|steps| - 1]);
    }
  }
}

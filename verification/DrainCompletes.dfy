/** A drain that nothing has hurt can be completed: one useful step at a time. */
module DrainCompletes {
  import opened Basics
  import opened PoolState
  import opened PoolProof
  import opened PoolRun
  import opened Drain
  import opened DrainProof
  import opened DrainProgress

  /** No part the coordinator still needs has failed or was forced. */
  predicate Unhurt(g: Gen) {
    && !g.forced && g.phase != Failed && !g.accept.failed && g.accept.ending != Some(Silenced)
    && (Rank(g.phase) <= 6 ==> g.control.up) && (Rank(g.phase) <= 7 ==> !g.closed)
  }

  /** The server has answered, or still can: its loop is up, the generation is current or its
      retirement has begun, and all leases are back. */
  predicate ServerFine(p: Pool, c: nat, g: Gen) {
    || Rank(g.phase) >= 3 || Answered(g)
    || (g.server.up && (g.server.asked || IsCurrent(p, c)) && c in p.conns &&
        p.conns[c].pending + p.conns[c].active == 0)
  }

  predicate Fine(p: Pool, c: nat, g: Gen) {
    Unhurt(g) && ServerFine(p, c, g)
  }

  // ---------------------------------------------------------------------------
  // The next useful step, and what is left
  // ---------------------------------------------------------------------------

  function Fetch(k: Control): Drain.Action {
    if k.slot.Some? then LoopRead else if k.hand.Some? then ReaderSend else ReaderRead
  }

  ghost function Move(conn: Conn, g: Gen): Drain.Action {
    match g.phase
    case Requesting =>
      if g.control.epoch == NotRequested then StartWrite else if g.control.put then EndWrite(true) else PutRequest
    case AwaitComplete =>
      if g.control.notice.Some? then Advance
      else if Answered(g) then Fetch(g.control)
      else if g.server.asked then ServerTell(true)
      else ServerRead
    case AwaitAccept =>
      if g.accept.ending.Some? then Advance
      else if g.accept.inHand.Some? then AcceptProcess
      else if g.accept.processed < |conn.holders| then AcceptTake
      else AcceptError(false)
    case AwaitHandlers =>
      if g.accept.running == {} then Advance else var n :| n in g.accept.running; HandlerReturn(n)
    case AwaitQuiet => if g.control.pending == 0 then Advance else Fetch(g.control)
    case _ => Advance
  }

  function Inbox(g: Gen): nat {
    3 * |g.toClient| + (if g.control.hand.Some? then 2 else 0) + (if g.control.slot.Some? then 1 else 0)
  }

  function Stages(g: Gen): nat {
    match g.phase
    case Requesting => if g.control.epoch == NotRequested then 2 else if g.control.put then 0 else 1
    case AwaitComplete =>
      if g.control.notice.Some? then 0 else if Answered(g) then 1 else if g.server.asked then 2 else 3
    case _ => 0
  }

  function Items(conn: Conn, g: Gen): int {
    match g.phase
    case AwaitComplete => if Answered(g) then Inbox(g) else |g.toServer|
    case AwaitAccept =>
      if g.accept.ending.Some? then 0
      else 2 * (|conn.holders| - g.accept.processed) + 2 - if g.accept.inHand.Some? then 1 else 0
    case AwaitHandlers => |g.accept.running|
    case AwaitQuiet => (if g.control.hand.Some? then 2 else 0) + (if g.control.slot.Some? then 1 else 0)
    case _ => 0
  }

  /** Less is left after the step: a later phase, a later stage of it, or fewer items in it. */
  predicate Less(conn: Conn, h: Gen, g: Gen) {
    || Rank(h.phase) > Rank(g.phase)
    || (Rank(h.phase) == Rank(g.phase) && Stages(h) < Stages(g))
    || (Rank(h.phase) == Rank(g.phase) && Stages(h) == Stages(g) && 0 <= Items(conn, h) < Items(conn, g))
  }

  // ---------------------------------------------------------------------------
  // Each phase moves on
  // ---------------------------------------------------------------------------

  lemma WriteMoves(p: Pool, c: nat, g: Gen)
    requires GenOk(p, c, g) && FlowOk(g) && Fine(p, c, g) && (g.phase == Idle || g.phase == Requesting)
    ensures var h := StepGen(p, c, g, Move(p.conns[c], g)); Fine(p, c, h) && Less(p.conns[c], h, g)
  {
    ControlFacts(p, c, g);
    hide GenOk;
    var h := StepGen(p, c, g, Move(p.conns[c], g));
    SameAnswer(g, h);
    hide Answered;
    hide SentOk;
  }

  lemma AcceptFacts(p: Pool, c: nat, g: Gen)
    requires PoolOk(p) && GenOk(p, c, g) && g.phase == AwaitAccept
    ensures c in p.conns && AcceptOk(p.conns[c], g) && g.accept.fence == Some(LastStream(p.conns[c]))
    ensures ValidFence(LastStream(p.conns[c]))
  {
    hide PoolOk;
    hide WiresOk;
    hide RequestOk;
    hide ControlOk;
    assert Agreed(p, c, g.accept.fence.value);
    LastValid(p, c);
  }

  /** Every stream up to the fence is taken, and then the loop ends at it. */
  lemma AcceptGoesOn(conn: Conn, g: Gen)
    requires AcceptOk(conn, g) && g.accept.fence == Some(LastStream(conn)) && ValidFence(LastStream(conn))
    requires g.accept.ending.None? && !g.accept.failed
    ensures g.accept.inHand.Some? ==>
              ProcessStream(g.accept).ending.None? && ProcessStream(g.accept).inHand.None? &&
                  !ProcessStream(g.accept).failed
              && ProcessStream(g.accept).processed == g.accept.processed + 1
    ensures g.accept.inHand.None? && g.accept.processed == |conn.holders| ==>
              AcceptFails(g.accept, false).ending == Some(AtFence) && !AcceptFails(g.accept, false).failed
    ensures g.accept.inHand.None? && g.accept.processed < |conn.holders| ==>
              TakeStream(conn, g.accept) == g.accept.(inHand := Some(g.accept.processed))
  {
  }

  lemma AcceptMoves(p: Pool, c: nat, g: Gen)
    requires PoolOk(p) && GenOk(p, c, g) && Fine(p, c, g) && g.phase == AwaitAccept
    ensures c in p.conns
    ensures var h := StepGen(p, c, g, Move(p.conns[c], g)); Fine(p, c, h) && Less(p.conns[c], h, g)
  {
    hide PoolOk;
    hide GenOk;
    hide Answered;
    AcceptFacts(p, c, g);
    if g.accept.ending.None? {
      AcceptGoesOn(p.conns[c], g);
      hide ProcessStream;
      hide AcceptFails;
      hide TakeStream;
    }
    hide ValidFence;
    hide LastStream;
  }

  lemma HandlerMoves(p: Pool, c: nat, g: Gen)
    requires GenOk(p, c, g) && Fine(p, c, g) && g.phase == AwaitHandlers
    ensures var h := StepGen(p, c, g, Move(p.conns[c], g)); Fine(p, c, h) && Less(p.conns[c], h, g)
  {
    GenKnown(p, c, g);
    hide GenOk;
    hide Answered;
  }

  lemma QuietMoves(p: Pool, c: nat, g: Gen)
    requires GenOk(p, c, g) && FlowOk(g) && Fine(p, c, g) && g.phase == AwaitQuiet
    ensures var h := StepGen(p, c, g, Move(p.conns[c], g)); Fine(p, c, h) && Less(p.conns[c], h, g)
  {
    ControlFacts(p, c, g);
    if g.control.slot.Some? {
      NeverProtests(p, c, g);
    }
    hide GenOk;
    hide SentOk;
    hide Answered;
    hide Unsolicited;
  }

  lemma CheckMoves(p: Pool, c: nat, g: Gen)
    requires GenOk(p, c, g) && FlowOk(g) && Fine(p, c, g)
    requires g.phase.HasFence? || g.phase == CheckTransport || g.phase == CheckAccept
    ensures var h := StepGen(p, c, g, Move(p.conns[c], g)); Fine(p, c, h) && Less(p.conns[c], h, g)
  {
    hide SentOk;
    hide Answered;
    hide WiresOk;
    hide RequestOk;
    hide ControlOk;
  }

  // ---------------------------------------------------------------------------
  // Waiting for the answer
  // ---------------------------------------------------------------------------

  /** The answer has arrived, or is in the wire, the reader's hand or the slot. */
  lemma FetchMoves(p: Pool, c: nat, g: Gen)
    requires GenOk(p, c, g) && FlowOk(g) && Fine(p, c, g) && g.phase == AwaitComplete && g.control.notice.None? &&
             Answered(g)
    ensures var h := StepGen(p, c, g, Move(p.conns[c], g)); Fine(p, c, h) && Less(p.conns[c], h, g)
  {
    ControlFacts(p, c, g);
    var a := Fetch(g.control);
    if g.control.slot.Some? {
      NeverProtests(p, c, g);
    }
    AnswerMoves(g, a);
    InboxShrinks(g);
    hide GenOk;
    hide SentOk;
    hide Answered;
    hide Unsolicited;
    hide Inbox;
  }

  lemma InboxShrinks(g: Gen)
    requires Answered(g) && EpochOk(g) && g.phase == AwaitComplete && g.control.notice.None? && g.control.up &&
             !g.control.writing
    ensures var a := Fetch(g.control);
            var h := if a.LoopRead? then HandleSlot(g) else if a.ReaderSend? then SendToLoop(g) else ReadWire(g);
            Inbox(h) < Inbox(g)
  {
  }

  lemma NoticeMoves(p: Pool, c: nat, g: Gen)
    requires GenOk(p, c, g) && Fine(p, c, g) && g.phase == AwaitComplete && g.control.notice.Some?
    ensures var h := StepGen(p, c, g, Move(p.conns[c], g)); Fine(p, c, h) && Less(p.conns[c], h, g)
  {
    GenKnown(p, c, g);
    hide GenOk;
    hide Answered;
  }

  /** With all leases back a retirement has signalled. */
  lemma BackMeansSignalled(p: Pool, c: nat)
    requires PoolOk(p) && c in p.retirements && c in p.conns && p.conns[c].pending + p.conns[c].active == 0
    ensures Signalling(p, c) && p.retirements[c].signals == [LastStream(p.conns[c])] &&
            ValidFence(LastStream(p.conns[c]))
  {
    assert RetirementOk(p.retiring, c, p.conns[c], p.retirements[c]);
    hide PoolOk;
    SignalValue(p, c);
  }

  lemma Tells(p: Pool, c: nat, g: Gen, fence: int)
    requires g.server.up && g.server.asked && !g.server.told && Signalling(p, c)
    requires p.retirements[c].signals == [fence] && ValidFence(fence)
    ensures var h := TellClient(p, c, g, true);
            h == g.(server := g.server.(told := true), toClient := g.toClient + [Complete(fence)]) && Answered(h)
  {
    var h := TellClient(p, c, g, true);
    assert h.toClient[|g.toClient|].Complete?;
  }

  lemma TellMoves(p: Pool, c: nat, g: Gen)
    requires PoolOk(p) && GenOk(p, c, g) && GenFlow(p, c, g) && Fine(p, c, g)
    requires g.phase == AwaitComplete && g.control.notice.None? && !Answered(g) && g.server.asked
    ensures var h := StepGen(p, c, g, Move(p.conns[c], g)); Fine(p, c, h) && Less(p.conns[c], h, g)
  {
    hide PoolOk;
    hide GenOk;
    hide Answered;
    hide ValidFence;
    hide LastStream;
    hide Signalling;
    hide EpochOk;
    GenKnown(p, c, g);
    BackMeansSignalled(p, c);
    Tells(p, c, g, LastStream(p.conns[c]));
    hide TellClient;
  }

  /** The pool after a step of the generation. */
  function PoolAfter(p: Pool, c: nat, g: Gen, a: Drain.Action): Pool {
    if Retires(g, a) then BeginRetire(p, c) else p
  }

  /** Retiring leaves the leases and the streams of the generation as they are. */
  lemma RetireKeeps(p: Pool, c: nat)
    requires c in p.conns
    ensures var q := BeginRetire(p, c);
            && c in q.conns && q.conns[c].pending == p.conns[c].pending && q.conns[c].active == p.conns[c].active
            && q.conns[c].holders == p.conns[c].holders
  {
    hide Signalled;
  }

  lemma RequestMoves(p: Pool, c: nat, g: Gen)
    requires GenOk(p, c, g) && FlowOk(g) && Fine(p, c, g)
    requires g.phase == AwaitComplete && g.control.notice.None? && !Answered(g) && !g.server.asked
    ensures c in p.conns
    ensures var (q, h) := (PoolAfter(p, c, g, ServerRead), StepGen(p, c, g, ServerRead));
            Fine(q, c, h) && Less(p.conns[c], h, g) && c in q.conns && q.conns[c].holders == p.conns[c].holders
  {
    RequestWaits(p, c, g);
    hide GenOk;
    RetireKeeps(p, c);
    hide BeginRetire;
    SameAnswer(g, StepGen(p, c, g, ServerRead));
    SameAnswer(StepGen(p, c, g, ServerRead), g);
    hide Answered;
    hide EpochOk;
  }

  /** The request is in the wire, among heartbeats. */
  lemma RequestWaits(p: Pool, c: nat, g: Gen)
    requires GenOk(p, c, g) && FlowOk(g) && Fine(p, c, g)
    requires g.phase == AwaitComplete && g.control.notice.None? && !Answered(g) && !g.server.asked
    ensures c in p.conns && g.toServer != [] && (g.toServer[0].Heartbeat? || g.toServer[0].Request?)
  {
    hide Answered;
    hide FencesOk;
    hide AcceptOk;
    hide PhaseOk;
    hide MessageOk;
  }

  // ---------------------------------------------------------------------------
  // Every phase
  // ---------------------------------------------------------------------------

  lemma NoPoolStep(p: Pool, c: nat, g: Gen, a: Drain.Action)
    requires !a.ServerRead? && !a.ServerStop?
    ensures PoolAfter(p, c, g, a) == p
  {
  }

  predicate NotAskedYet(g: Gen) {
    g.phase == AwaitComplete && g.control.notice.None? && !Answered(g) && !g.server.asked
  }

  lemma MoveKind(conn: Conn, g: Gen)
    ensures NotAskedYet(g) ==> Move(conn, g) == ServerRead
    ensures !NotAskedYet(g) ==> !Move(conn, g).ServerRead? && !Move(conn, g).ServerStop?
  {
    hide Answered;
  }

  lemma MoveIsFine(p: Pool, c: nat, g: Gen)
    requires PoolOk(p) && GenOk(p, c, g) && GenFlow(p, c, g) && Fine(p, c, g) && g.phase != Succeeded
    ensures c in p.conns
    ensures var a := Move(p.conns[c], g);
            var (q, h) := (PoolAfter(p, c, g, a), StepGen(p, c, g, a));
            Fine(q, c, h) && Less(p.conns[c], h, g) && c in q.conns && q.conns[c].holders == p.conns[c].holders
  {
    hide PoolOk;
    hide GenOk;
    hide StepGen;
    hide Less;
    hide Fine;
    hide FlowOk;
    hide Move;
    hide PoolAfter;
    hide Answered;
    GenKnown(p, c, g);
    var a := Move(p.conns[c], g);
    MoveKind(p.conns[c], g);
    if NotAskedYet(g) {
      RequestMoves(p, c, g);
    } else {
      PhaseMoves(p, c, g);
      NoPoolStep(p, c, g, a);
    }
  }

  lemma PhaseMoves(p: Pool, c: nat, g: Gen)
    requires PoolOk(p) && GenOk(p, c, g) && GenFlow(p, c, g) && Fine(p, c, g) && g.phase != Succeeded && c in p.conns
    requires !NotAskedYet(g)
    ensures var h := StepGen(p, c, g, Move(p.conns[c], g)); Fine(p, c, h) && Less(p.conns[c], h, g)
  {
    hide PoolOk;
    hide GenOk;
    hide StepGen;
    hide Less;
    hide ServerFine;
    hide FlowOk;
    hide Answered;
    hide Move;
    match g.phase {
      case Idle => WriteMoves(p, c, g);
      case Requesting => WriteMoves(p, c, g);
      case AwaitComplete =>
        if g.control.notice.Some? {
          NoticeMoves(p, c, g);
        } else if Answered(g) {
          FetchMoves(p, c, g);
        } else {
          TellMoves(p, c, g);
        }
      case HasFence(_) => CheckMoves(p, c, g);
      case AwaitAccept => AcceptMoves(p, c, g);
      case AwaitHandlers => HandlerMoves(p, c, g);
      case AwaitQuiet => QuietMoves(p, c, g);
      case CheckTransport => CheckMoves(p, c, g);
      case CheckAccept => CheckMoves(p, c, g);
    }
  }

  // ---------------------------------------------------------------------------
  // Whole runs
  // ---------------------------------------------------------------------------

  function After(w: World, steps: seq<Step>): World
    decreases |steps|
  {
    if steps == [] then w else After(Drain.Do(w, steps[0]), steps[1..])
  }

  lemma {:induction false} RunThenAfter(limits: Limits, steps: seq<Step>, more: seq<Step>)
    ensures Drain.Run(limits, steps + more) == After(Drain.Run(limits, steps), more)
    decreases |more|
  {
    hide Drain.Do;
    if more == [] {
      assert steps + more == steps;
    } else {
      assert (steps + [more[0]])[..|steps|] == steps;
      assert steps + more == steps + [more[0]] + more[1..];
      RunThenAfter(limits, steps + [more[0]], more[1..]);
    }
  }

  predicate Done(w: World, c: nat) {
    c in w.gens && w.gens[c].phase == Succeeded && !w.gens[c].forced
  }

  lemma WorldMove(w: World, c: nat)
    requires WorldOk(w) && WorldFlow(w) && c in w.gens && c in w.pool.conns
    requires Fine(w.pool, c, w.gens[c]) && w.gens[c].phase != Succeeded
    ensures var g := w.gens[c];
            var q := Drain.Do(w, GenStep(c, Move(w.pool.conns[c], g)));
            && c in q.gens && c in q.pool.conns && q.pool.conns[c].holders == w.pool.conns[c].holders
            && Fine(q.pool, c, q.gens[c]) && Less(w.pool.conns[c], q.gens[c], g)
  {
    hide PoolOk;
    hide GenOk;
    hide FlowOk;
    hide StepGen;
    hide Less;
    hide Fine;
    hide Move;
    var g := w.gens[c];
    assert GenOk(w.pool, c, g);
    assert GenFlow(w.pool, c, g);
    MoveIsFine(w.pool, c, g);
    hide Retires;
    hide BeginRetire;
  }

  /** Only the streams of the generation count for what is left. */
  lemma SameItems(a: Conn, b: Conn, g: Gen)
    requires a.holders == b.holders
    ensures Items(a, g) == Items(b, g)
  {
    hide Answered;
  }

  lemma {:induction false} Completes(w: World, c: nat) returns (more: seq<Step>)
    requires WorldOk(w) && WorldFlow(w) && c in w.gens && c in w.pool.conns && Fine(w.pool, c, w.gens[c])
    ensures Done(After(w, more), c)
    decreases 10 - Rank(w.gens[c].phase), Stages(w.gens[c]), Items(w.pool.conns[c], w.gens[c])
  {
    hide PoolOk;
    hide GenOk;
    hide GenFlow;
    hide ServerFine;
    hide Move;
    var g := w.gens[c];
    if g.phase == Succeeded {
      more := [];
    } else {
      var s := GenStep(c, Move(w.pool.conns[c], g));
      WorldMove(w, c);
      DrainDoOk(w, s);
      DoFlow(w, s);
      hide WorldOk;
      hide WorldFlow;
      hide Drain.Do;
      var next := Drain.Do(w, s);
      SameItems(next.pool.conns[c], w.pool.conns[c], next.gens[c]);
      hide Stages;
      hide Items;
      var rest := Completes(next, c);
      more := [s] + rest;
      assert more[1..] == rest;
    }
  }

  /** A new generation that is current and idle is such a state. */
  lemma FreshIsFine(p: Pool, c: nat)
    requires IsCurrent(p, c) && p.conns[c].pending + p.conns[c].active == 0
    ensures Fine(p, c, FRESH)
  {
  }

  /** From every reachable state in which no needed part of the drain of a generation has failed
      and its leases are back, some continuation of the run succeeds without force; by DrainSafe
      every stream has then been served. */
  lemma DrainCanComplete(limits: Limits, steps: seq<Step>, c: nat)
    requires var w := Drain.Run(limits, steps); c in w.gens && Fine(w.pool, c, w.gens[c])
    ensures exists more: seq<Step> :: Done(Drain.Run(limits, steps + more), c)
  {
    var w := Drain.Run(limits, steps);
    DrainRunOk(limits, steps);
    RunFlow(limits, steps);
    assert GenOk(w.pool, c, w.gens[c]);
    GenKnown(w.pool, c, w.gens[c]);
    hide Fine;
    hide WorldOk;
    hide WorldFlow;
    hide GenOk;
    var more := Completes(w, c);
    RunThenAfter(limits, steps, more);
  }
}

/** The pool over whole runs. */
module PoolRun {
  import opened Basics
  import opened MapSum
  import opened PoolState
  import opened PoolProof
  import opened PoolSteps
  import opened PoolAdmit
  import opened PoolRegister

  lemma StartOk(limits: Limits)
    ensures PoolOk(NewPool(limits))
  {
    SumZero(OpenClaims(map[]));
  }

  lemma {:induction false} RunOk(limits: Limits, actions: seq<Action>)
    ensures PoolOk(Run(limits, actions)) && Run(limits, actions).limits == limits
  {
    hide PoolOk;
    hide Do;
    if actions == [] {
      StartOk(limits);
    } else {
      var before := actions[..|actions| - 1];
      RunOk(limits, before);
      DoOk(Run(limits, before), actions[|actions| - 1]);
      KeepsLimits(Run(limits, before), actions[|actions| - 1]);
    }
  }

  predicate IsRegistration(a: Action) {
    || a.DoNewConn? || a.DoBeginPending? || a.DoReserve? || a.DoCommit? || a.DoAbort? || a.DoBeginRetire?
    || a.DoRetireDone? || a.DoMarkHealth?
  }

  lemma RegistrationKeepsLimits(p: Pool, a: Action)
    requires IsRegistration(a)
    ensures Do(p, a).limits == p.limits
  {
    hide Signalled;
    hide IsRetiring;
  }

  predicate IsAdmission(a: Action) {
    a.DoReserveUDP? || a.DoReleaseUDP? || a.DoBeginAdmission? || a.DoNext?
  }

  lemma AdmissionKeepsLimits(p: Pool, a: Action)
    requires IsAdmission(a)
    ensures Do(p, a).limits == p.limits
  {
    hide Next;
    hide BeginAdmission;
    hide ReleaseUDP;
    match a
    case DoReleaseUDP(token) =>
      ReleaseUDPLimits(p, token);
    case _ =>
  }

  lemma ReleaseUDPLimits(p: Pool, token: nat)
    ensures ReleaseUDP(p, token).limits == p.limits
  {
  }

  lemma LeaseKeepsLimits(p: Pool, a: Action)
    requires !IsRegistration(a) && !IsAdmission(a)
    ensures Do(p, a).limits == p.limits
  {
    hide Signalled;
    hide IsRetiring;
  }

  lemma KeepsLimits(p: Pool, a: Action)
    ensures Do(p, a).limits == p.limits
  {
    hide Do;
    if IsRegistration(a) {
      RegistrationKeepsLimits(p, a);
    } else if IsAdmission(a) {
      AdmissionKeepsLimits(p, a);
    } else {
      LeaseKeepsLimits(p, a);
    }
  }

  /** Conservation over every run: pending registrations, generations, the counters of every
      generation, the retiring entries, the cached membership and the leases of an admission. */
  lemma Conservation(limits: Limits, actions: seq<Action>)
    ensures var p := Run(limits, actions);
            && p.serverPending == Sum(OpenClaims(p.claims)) && p.serverPending <= limits.pending
            && |p.reservations| + |p.clients| + |p.retiring| <= limits.generations
            && (forall c :: c in p.conns ==> CountsOk(limits, p.leases, p.sessions, c, p.conns[c]))
            && (forall c :: c in p.retirements ==>
                  c in p.conns && (c in p.retiring <==> !(p.retirements[c].done && Drained(p.conns[c]))))
            && (p.cached.Some? ==> Lists(p.cached.value, p.clients))
            && (forall l, m :: l in p.leases && m in p.leases && l != m ==>
                  p.leases[l].admission != p.leases[m].admission || p.leases[l].conn != p.leases[m].conn)
            && p.faults == 0
  {
    RunOk(limits, actions);
    hide Run;
    hide CountsOk;
    hide StreamsOk;
    hide Lists;
    hide Sum;
    hide AdmissionsOk;
    hide LeasesOk;
    hide Drained;
    var p := Run(limits, actions);
    forall c | c in p.retirements
      ensures c in p.conns && (c in p.retiring <==> !(p.retirements[c].done && Drained(p.conns[c])))
    {
      assert c in p.conns;
      assert RetirementOk(p.retiring, c, p.conns[c], p.retirements[c]);
    }
  }

  // ---------------------------------------------------------------------------
  // The fence
  // ---------------------------------------------------------------------------

  /** The highest stream a generation ever opened, or -1. */
  function LastStream(conn: Conn): int {
    if conn.holders == [] then -1 else StreamId(|conn.holders| - 1)
  }

  /** With no lease out every opened stream has been recorded. */
  lemma AllRecorded(p: Pool, c: nat, n: nat)
    requires PoolOk(p) && c in p.conns && p.conns[c].pending + p.conns[c].active == 0 && n < |p.conns[c].holders|
    ensures p.conns[c].streamID >= StreamId(n) && p.conns[c].marked
  {
    hide FrameOk;
    hide LentOk;
    hide SignalsOk;
    hide Sum;
    var conn := p.conns[c];
    assert CountsOk(p.limits, p.leases, p.sessions, c, conn) && StreamsOk(p.leases, c, conn);
    assert Holder(p.leases, c, conn.holders[n], n);
    CountsPositive(p.leases, c, conn.holders[n]);
    assert LeaseOk(p.conns, p.leases[conn.holders[n]]);
  }

  lemma DrainedFence(p: Pool, c: nat)
    requires PoolOk(p) && c in p.conns && p.conns[c].pending + p.conns[c].active == 0
    ensures Fence(p.conns[c]) == LastStream(p.conns[c]) && ValidFence(LastStream(p.conns[c]))
  {
    hide FrameOk;
    hide LeasesOk;
    hide LentOk;
    hide SignalsOk;
    hide CountsOk;
    var conn := p.conns[c];
    if conn.holders != [] {
      AllRecorded(p, c, |conn.holders| - 1);
    }
    assert StreamsOk(p.leases, c, conn);
    hide ConnsOk;
  }

  /** Fence exactness: a retirement has signalled iff no lease is out, at most once, and the
      value is the highest stream ever opened; nothing is finalized before the signal. */
  lemma FenceExact(limits: Limits, actions: seq<Action>, c: nat)
    requires c in Run(limits, actions).retirements
    ensures var p := Run(limits, actions);
            && c in p.conns
            && (p.retirements[c].sent <==> p.conns[c].pending + p.conns[c].active == 0)
            && p.retirements[c].signals == (if p.retirements[c].sent then [LastStream(p.conns[c])] else [])
            && ValidFence(LastStream(p.conns[c]))
            && (c !in p.retiring ==> p.retirements[c].sent)
  {
    RunOk(limits, actions);
    hide Run;
    var p := Run(limits, actions);
    RetirementKnown(p, c);
    assert RetirementOk(p.retiring, c, p.conns[c], p.retirements[c]);
    LastValid(p, c);
    if p.retirements[c].sent {
      DrainedFence(p, c);
    }
    hide PoolOk;
  }

  lemma LastValid(p: Pool, c: nat)
    requires PoolOk(p) && c in p.conns
    ensures ValidFence(LastStream(p.conns[c]))
  {
    hide FrameOk;
    hide LeasesOk;
    hide LentOk;
    hide SignalsOk;
    hide CountsOk;
    assert StreamsOk(p.leases, c, p.conns[c]);
    hide ConnsOk;
  }

  // ---------------------------------------------------------------------------
  // After the signal
  // ---------------------------------------------------------------------------

  predicate Signalling(p: Pool, c: nat) {
    c in p.conns && c in p.retirements && p.retirements[c].sent
  }

  /** The streams of a generation are as before, and so is a retirement that has signalled. */
  predicate Settled(p: Pool, q: Pool, c: nat)
    requires c in p.conns
  {
    && c in q.conns && q.conns[c].holders == p.conns[c].holders
    && (Signalling(p, c) ==> Signalling(q, c) && q.retirements[c].signals == p.retirements[c].signals)
  }

  lemma NewConnSettled(p: Pool, d: nat, id: string, tcp: bool, udp: bool, c: nat)
    requires c in p.conns
    ensures Settled(p, NewConn(p, d, id, tcp, udp), c)
  {
  }

  lemma BeginPendingSettled(p: Pool, k: nat, c: nat)
    requires c in p.conns
    ensures Settled(p, BeginPending(p, k), c)
  {
  }

  lemma ReserveSettled(p: Pool, k: nat, d: nat, c: nat)
    requires c in p.conns
    ensures Settled(p, Reserve(p, k, d), c)
  {
  }

  lemma CommitSettled(p: Pool, k: nat, c: nat)
    requires c in p.conns
    ensures Settled(p, Commit(p, k), c)
  {
  }

  lemma AbortSettled(p: Pool, k: nat, c: nat)
    requires c in p.conns
    ensures Settled(p, Abort(p, k), c)
  {
  }

  lemma BeginRetireSettled(p: Pool, d: nat, c: nat)
    requires c in p.conns && (Signalling(p, c) ==> !IsCurrent(p, c))
    ensures Settled(p, BeginRetire(p, d), c)
  {
  }

  lemma MarkHealthSettled(p: Pool, d: nat, healthy: bool, c: nat)
    requires c in p.conns
    ensures Settled(p, MarkHealth(p, d, healthy), c)
  {
  }

  lemma RetireDoneSettled(p: Pool, d: nat, c: nat)
    requires c in p.conns
    ensures Settled(p, RetireDone(p, d), c)
  {
    hide Finalize;
    if MayFinish(p, d) {
      FinalizeEffect(Finished(p, d), d, c);
    }
  }

  lemma ReserveUDPSettled(p: Pool, t: nat, d: nat, c: nat)
    requires c in p.conns
    ensures Settled(p, ReserveUDP(p, t, d), c)
  {
  }

  lemma ReleaseUDPSettled(p: Pool, t: nat, c: nat)
    requires c in p.conns
    ensures Settled(p, ReleaseUDP(p, t), c)
  {
    hide Finalize;
    if t in p.sessions && p.sessions[t] in p.conns {
      FinalizeEffect(WithoutSession(p, t), p.sessions[t], c);
    }
  }

  lemma BeginAdmissionSettled(p: Pool, b: nat, order: seq<nat>, c: nat)
    requires c in p.conns
    ensures Settled(p, BeginAdmission(p, b, order), c)
  {
    hide Filter;
    hide Lists;
    hide Slice;
  }

  lemma LeasableConn(p: Pool, c: nat)
    requires Leasable(p, c)
    ensures c in p.conns
  {
  }

  lemma LendSettled(p: Pool, b: nat, l: nat, d: nat, c: nat)
    requires c in p.conns && d in p.conns
    ensures Settled(p, Lend(p, b, l, d), c)
  {
  }

  lemma NextSettled(p: Pool, b: nat, l: nat, pick: nat, c: nat)
    requires c in p.conns
    ensures Settled(p, Next(p, b, l, pick), c)
  {
    hide Balance;
    hide Scan;
    hide Leasable;
    hide Lend;
    hide Settled;
    SameSettled(p, p, c);
    if b in p.admissions {
      var adm := Balance(p, p.admissions[b], pick);
      SameSettled(p, p.(admissions := p.admissions[b := adm]), c);
      if adm.next <= |adm.candidates| {
        var k := Scan(p, adm.candidates, adm.next);
        SameSettled(p, p.(admissions := p.admissions[b := adm.(next := k)]), c);
        if k < |adm.candidates| {
          var mid := p.(admissions := p.admissions[b := adm.(next := k + 1)]);
          LeasableConn(p, adm.candidates[k]);
          LendSettled(mid, b, l, adm.candidates[k], c);
          FromMid(p, mid, Lend(mid, b, l, adm.candidates[k]), c);
        }
      }
    }
  }

  lemma SameSettled(p: Pool, q: Pool, c: nat)
    requires c in p.conns && q.conns == p.conns && q.retirements == p.retirements
    ensures Settled(p, q, c)
  {
  }

  lemma FromMid(p: Pool, mid: Pool, q: Pool, c: nat)
    requires c in p.conns && mid.conns == p.conns && mid.retirements == p.retirements && Settled(mid, q, c)
    ensures Settled(p, q, c)
  {
  }

  lemma LoadHighSettled(p: Pool, l: nat, c: nat)
    requires c in p.conns
    ensures Settled(p, LoadHigh(p, l), c)
  {
  }

  lemma SwapHighSettled(p: Pool, l: nat, c: nat)
    requires c in p.conns
    ensures Settled(p, SwapHigh(p, l), c)
  {
  }

  lemma MarkOpenedSettled(p: Pool, l: nat, c: nat)
    requires c in p.conns
    ensures Settled(p, MarkOpened(p, l), c)
  {
  }

  lemma CommitLeaseSettled(p: Pool, l: nat, c: nat)
    requires c in p.conns
    ensures Settled(p, CommitLease(p, l), c)
  {
  }

  lemma ReleaseSettled(p: Pool, l: nat, c: nat)
    requires c in p.conns
    ensures Settled(p, ReleaseLease(p, l), c)
  {
    if MayRelease(p, l) {
      var given, d := GiveBack(p, l), p.leases[l].conn;
      SignalEffect(given, d, c);
      FinalizeEffect(Signal(given, d), d, c);
      hide Signal;
      hide Finalize;
    }
  }

  lemma OpenSettled(p: Pool, l: nat, c: nat)
    requires PoolOk(p) && c in p.conns
    ensures Signalling(p, c) ==> Settled(p, OpenStream(p, l), c)
    ensures c in OpenStream(p, l).conns && p.conns[c].holders <= OpenStream(p, l).conns[c].holders
  {
    hide PoolOk;
    hide CountsOk;
    hide StreamsOk;
    if l in p.leases && Signalling(p, c) {
      LeaseFacts(p, l);
      SignalledIsIdle(p, c);
    }
  }

  lemma NotCurrent(p: Pool, c: nat)
    requires PoolOk(p) && Signalling(p, c)
    ensures !IsCurrent(p, c)
  {
    hide CountsOk;
    hide StreamsOk;
    if IsCurrent(p, c) {
      CurrentFacts(p, c);
    }
  }

  lemma StepSettled(p: Pool, a: Action, c: nat)
    requires PoolOk(p) && c in p.conns
    ensures Signalling(p, c) || !a.DoOpenStream? ==> Settled(p, Do(p, a), c)
    ensures a.DoOpenStream? ==> c in Do(p, a).conns && p.conns[c].holders <= Do(p, a).conns[c].holders
  {
    hide Settled;
    hide Signalling;
    hide IsCurrent;
    hide PoolOk;
    hide NewConn;
    hide BeginPending;
    hide Reserve;
    hide Commit;
    hide Abort;
    hide BeginRetire;
    hide RetireDone;
    hide MarkHealth;
    hide ReserveUDP;
    hide ReleaseUDP;
    hide BeginAdmission;
    hide Next;
    hide OpenStream;
    hide LoadHigh;
    hide SwapHigh;
    hide MarkOpened;
    hide CommitLease;
    hide ReleaseLease;
    if Signalling(p, c) {
      NotCurrent(p, c);
    }
    match a {
      case DoNewConn(d, id, tcp, udp) => NewConnSettled(p, d, id, tcp, udp, c);
      case DoBeginPending(k) => BeginPendingSettled(p, k, c);
      case DoReserve(k, d) => ReserveSettled(p, k, d, c);
      case DoCommit(k) => CommitSettled(p, k, c);
      case DoAbort(k) => AbortSettled(p, k, c);
      case DoBeginRetire(d) => BeginRetireSettled(p, d, c);
      case DoMarkHealth(d, healthy) => MarkHealthSettled(p, d, healthy, c);
      case DoRetireDone(d) => RetireDoneSettled(p, d, c);
      case DoReserveUDP(t, d) => ReserveUDPSettled(p, t, d, c);
      case DoReleaseUDP(t) => ReleaseUDPSettled(p, t, c);
      case DoBeginAdmission(b, order) => BeginAdmissionSettled(p, b, order, c);
      case DoNext(b, l, pick) => NextSettled(p, b, l, pick, c);
      case DoLoadHigh(l) => LoadHighSettled(p, l, c);
      case DoSwapHigh(l) => SwapHighSettled(p, l, c);
      case DoMarkOpened(l) => MarkOpenedSettled(p, l, c);
      case DoCommitLease(l) => CommitLeaseSettled(p, l, c);
      case DoOpenStream(l) => OpenSettled(p, l, c);
      case DoReleaseLease(l) => ReleaseSettled(p, l, c);
    }
  }

  /** After its signal a generation never again has a lease or opens a stream, in any run. */
  lemma {:induction false} SilentAfterSignal(limits: Limits, actions: seq<Action>, k: nat, c: nat)
    requires k <= |actions| && Signalling(Run(limits, actions[..k]), c)
    ensures var early, late := Run(limits, actions[..k]), Run(limits, actions);
            && Signalling(late, c) && late.conns[c].pending == 0 && late.conns[c].active == 0
            && late.conns[c].holders == early.conns[c].holders
            && late.retirements[c].signals == early.retirements[c].signals
  {
    hide PoolOk;
    hide Do;
    if k == |actions| {
      assert actions[..k] == actions;
    } else {
      var before := actions[..|actions| - 1];
      assert before[..k] == actions[..k];
      SilentAfterSignal(limits, before, k, c);
      RunOk(limits, before);
      StepSettled(Run(limits, before), actions[|actions| - 1], c);
    }
    RunOk(limits, actions);
    SignalledIsIdle(Run(limits, actions), c);
  }

  lemma SignalledIsIdle(p: Pool, c: nat)
    requires PoolOk(p) && Signalling(p, c)
    ensures p.conns[c].pending == 0 && p.conns[c].active == 0
  {
    hide FrameOk;
    hide LeasesOk;
    hide LentOk;
    hide StreamsOk;
    hide Sum;
    assert RetirementOk(p.retiring, c, p.conns[c], p.retirements[c]);
    assert CountsOk(p.limits, p.leases, p.sessions, c, p.conns[c]);
  }

  /** A generation is never forgotten and its streams are only ever added to. */
  lemma StreamsGrow(p: Pool, a: Action, c: nat)
    requires PoolOk(p) && c in p.conns
    ensures c in Do(p, a).conns && p.conns[c].holders <= Do(p, a).conns[c].holders
  {
    hide PoolOk;
    hide Do;
    StepSettled(p, a, c);
  }
}

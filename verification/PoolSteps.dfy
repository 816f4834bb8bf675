/** The pool's invariant is kept by every critical section. */
module PoolSteps {
  import opened Basics
  import opened MapSum
  import opened PoolState
  import opened PoolProof

  // ---------------------------------------------------------------------------
  // Leases
  // ---------------------------------------------------------------------------

  /** A step of one lease that leaves names, slots and signals alone. */
  predicate QuietStep(p: Pool, q: Pool, l: nat) {
    && l in p.leases && LeaseStep(p, q, l, p.leases[l].conn)
    && q.leases[l].admission == p.leases[l].admission
    && q.(leases := p.leases, conns := p.conns) == p
    && q.conns[p.leases[l].conn].id == p.conns[p.leases[l].conn].id
    && q.conns[p.leases[l].conn].added == p.conns[p.leases[l].conn].added
  }

  lemma QuietFrame(p: Pool, q: Pool, l: nat)
    requires FrameOk(p) && QuietStep(p, q, l)
    ensures FrameOk(q)
  {
    hide ClaimsOk;
    hide ClientsOk;
    hide CachedOk;
    hide AdmissionsOk;
    FrameKept(p, q);
  }

  lemma QuietOk(p: Pool, q: Pool, l: nat)
    requires PoolOk(p) && QuietStep(p, q, l)
    requires var c := p.leases[l].conn;
             && CountsOk(q.limits, q.leases, q.sessions, c, q.conns[c]) && StreamsOk(q.leases, c, q.conns[c])
             && LeaseOk(q.conns, q.leases[l])
             && p.conns[c].pending + p.conns[c].active != 0 && q.conns[c].pending + q.conns[c].active != 0
    ensures PoolOk(q)
  {
    hide FrameOk;
    hide ConnsOk;
    hide LeasesOk;
    hide SignalsOk;
    hide LentOk;
    hide CountsOk;
    hide StreamsOk;
    hide LeaseOk;
    var c := p.leases[l].conn;
    QuietFrame(p, q, l);
    ConnsKept(p, q, l, c);
    LeasesKept(p, q, l, c);
    LentKept(p, q, l, c);
    OutstandingRetirement(p, q, l, c);
  }

  /** What is known of a lease that is out and of its generation. */
  lemma LeaseFacts(p: Pool, l: nat)
    requires PoolOk(p) && l in p.leases
    ensures LeaseOk(p.conns, p.leases[l])
    ensures var c := p.leases[l].conn;
            && CountsOk(p.limits, p.leases, p.sessions, c, p.conns[c]) && StreamsOk(p.leases, c, p.conns[c])
            && p.conns[c].pending >= 0 && p.conns[c].active >= 0 && p.conns[c].sessions >= 0
            && (p.leases[l].state == Waiting ==> p.conns[c].pending >= 1)
            && (p.leases[l].state == Established ==> p.conns[c].active >= 1)
  {
    hide FrameOk;
    hide SignalsOk;
    hide LentOk;
    hide StreamsOk;
    CountsPositive(p.leases, p.leases[l].conn, l);
    hide Sum;
  }

  /** The counters do not see the stage of a lease. */
  lemma StageCounts(p: Pool, l: nat, stage: Stage)
    requires l in p.leases && p.leases[l].conn in p.conns
    requires CountsOk(p.limits, p.leases, p.sessions, p.leases[l].conn, p.conns[p.leases[l].conn])
    ensures CountsOk(p.limits, p.leases[l := p.leases[l].(stage := stage)], p.sessions, p.leases[l].conn,
                     p.conns[p.leases[l].conn])
  {
    SetLeaseCounts(p.leases, l, p.leases[l].(stage := stage), p.leases[l].conn);
    hide Sum;
    hide WaitingOn;
    hide EstablishedOn;
  }

  lemma AdvanceStreams(leases: map<nat, Lease>, l: nat, c: nat, conn: Conn, stage: Stage)
    requires StreamsOk(leases, c, conn) && l in leases && !leases[l].stage.NoStream?
    requires !stage.NoStream? && stage.stream == leases[l].stage.stream
    ensures StreamsOk(leases[l := leases[l].(stage := stage)], c, conn)
  {
    forall n: nat | n < |conn.holders|
      ensures Holder(leases[l := leases[l].(stage := stage)], c, conn.holders[n], n)
    {
      assert Holder(leases, c, conn.holders[n], n);
    }
  }

  lemma OpenStreams(leases: map<nat, Lease>, l: nat, c: nat, conn: Conn)
    requires StreamsOk(leases, c, conn) && l in leases && leases[l].stage.NoStream? && leases[l].conn == c
    requires |conn.holders| < MAX_STREAMS
    ensures StreamsOk(leases[l := leases[l].(stage := Opened(|conn.holders|))], c, conn.(holders := conn.holders + [l]))
  {
    var next := conn.(holders := conn.holders + [l]);
    var now := leases[l := leases[l].(stage := Opened(|conn.holders|))];
    forall n: nat | n < |next.holders|
      ensures Holder(now, c, next.holders[n], n)
    {
      if n < |conn.holders| {
        assert Holder(leases, c, conn.holders[n], n);
      }
    }
    if conn.streamID != 0 {
      var n: nat :| n < |conn.holders| && conn.streamID == StreamId(n);
      assert n < |next.holders| && next.streamID == StreamId(n);
    }
  }

  lemma OpenStreamOk(p: Pool, l: nat)
    requires PoolOk(p)
    ensures PoolOk(OpenStream(p, l))
  {
    hide PoolOk;
    hide CountsOk;
    hide StreamsOk;
    var q := OpenStream(p, l);
    if q != p {
      var c := p.leases[l].conn;
      LeaseFacts(p, l);
      StageCounts(p, l, Opened(|p.conns[c].holders|));
      OpenStreams(p.leases, l, c, p.conns[c]);
      CountsIgnore(q.limits, q.leases, q.sessions, c, p.conns[c], q.conns[c]);
      QuietOk(p, q, l);
    }
  }

  lemma CountsIgnore(limits: Limits, leases: map<nat, Lease>, sessions: map<nat, nat>, c: nat, a: Conn, b: Conn)
    requires CountsOk(limits, leases, sessions, c, a)
    requires b.pending == a.pending && b.active == a.active && b.sessions == a.sessions && b.added == a.added
    ensures CountsOk(limits, leases, sessions, c, b)
  {
    hide Sum;
  }

  lemma LoadHighOk(p: Pool, l: nat)
    requires PoolOk(p)
    ensures PoolOk(LoadHigh(p, l))
  {
    hide PoolOk;
    hide CountsOk;
    hide StreamsOk;
    var q := LoadHigh(p, l);
    if q != p {
      LeaseFacts(p, l);
      StageCounts(p, l, q.leases[l].stage);
      AdvanceStreams(p.leases, l, p.leases[l].conn, p.conns[p.leases[l].conn], q.leases[l].stage);
      QuietOk(p, q, l);
    }
  }

  lemma RegisterStreams(leases: map<nat, Lease>, c: nat, conn: Conn, n: nat)
    requires StreamsOk(leases, c, conn) && n < |conn.holders|
    ensures StreamsOk(leases, c, conn.(streamID := StreamId(n)))
    ensures StreamsOk(leases, c, conn.(marked := true))
  {
  }

  lemma SwapHighOk(p: Pool, l: nat)
    requires PoolOk(p)
    ensures PoolOk(SwapHigh(p, l))
  {
    hide PoolOk;
    hide CountsOk;
    hide StreamsOk;
    var q := SwapHigh(p, l);
    if q != p {
      var c := p.leases[l].conn;
      LeaseFacts(p, l);
      StageCounts(p, l, q.leases[l].stage);
      AdvanceStreams(p.leases, l, c, p.conns[c], q.leases[l].stage);
      RegisterStreams(q.leases, c, p.conns[c], q.leases[l].stage.stream);
      CountsIgnore(q.limits, q.leases, q.sessions, c, p.conns[c], q.conns[c]);
      QuietOk(p, q, l);
    }
  }

  lemma MarkOpenedOk(p: Pool, l: nat)
    requires PoolOk(p)
    ensures PoolOk(MarkOpened(p, l))
  {
    hide PoolOk;
    hide CountsOk;
    hide StreamsOk;
    var q := MarkOpened(p, l);
    if q != p {
      var c := p.leases[l].conn;
      LeaseFacts(p, l);
      StageCounts(p, l, q.leases[l].stage);
      AdvanceStreams(p.leases, l, c, p.conns[c], q.leases[l].stage);
      RegisterStreams(q.leases, c, p.conns[c], q.leases[l].stage.stream);
      CountsIgnore(q.limits, q.leases, q.sessions, c, p.conns[c], q.conns[c]);
      QuietOk(p, q, l);
    }
  }

  lemma CommitCounts(p: Pool, l: nat)
    requires l in p.leases && p.leases[l].conn in p.conns && p.leases[l].state == Waiting
    requires CountsOk(p.limits, p.leases, p.sessions, p.leases[l].conn, p.conns[p.leases[l].conn])
    requires p.conns[p.leases[l].conn].pending >= 1
    ensures var c := p.leases[l].conn;
            var conn := p.conns[c].(active := p.conns[c].active + 1, pending := p.conns[c].pending - 1);
            CountsOk(p.limits, p.leases[l := p.leases[l].(state := Established)], p.sessions, c, conn)
  {
    SetLeaseCounts(p.leases, l, p.leases[l].(state := Established), p.leases[l].conn);
    hide Sum;
    hide WaitingOn;
    hide EstablishedOn;
  }

  lemma StateStreams(leases: map<nat, Lease>, l: nat, c: nat, conn: Conn, next: Conn, state: LeaseState)
    requires StreamsOk(leases, c, conn) && l in leases
    requires next.holders == conn.holders && next.marked == conn.marked && next.streamID == conn.streamID
    ensures StreamsOk(leases[l := leases[l].(state := state)], c, next)
  {
    forall n: nat | n < |conn.holders|
      ensures Holder(leases[l := leases[l].(state := state)], c, conn.holders[n], n)
    {
      assert Holder(leases, c, conn.holders[n], n);
    }
  }

  lemma CommitLeaseOk(p: Pool, l: nat)
    requires PoolOk(p)
    ensures PoolOk(CommitLease(p, l))
  {
    hide PoolOk;
    hide CountsOk;
    hide StreamsOk;
    var q := CommitLease(p, l);
    if q != p {
      var c := p.leases[l].conn;
      LeaseFacts(p, l);
      CommitCounts(p, l);
      StateStreams(p.leases, l, c, p.conns[c], q.conns[c], Established);
      QuietOk(p, q, l);
    }
  }

  lemma GiveBackCounts(p: Pool, l: nat)
    requires Holds(p, l) && p.leases[l].state != Released
    requires CountsOk(p.limits, p.leases, p.sessions, p.leases[l].conn, p.conns[p.leases[l].conn])
    requires p.leases[l].state == Waiting ==> p.conns[p.leases[l].conn].pending >= 1
    requires p.leases[l].state == Established ==> p.conns[p.leases[l].conn].active >= 1
    ensures var q, c := GiveBack(p, l), p.leases[l].conn;
            CountsOk(q.limits, q.leases, q.sessions, c, q.conns[c])
  {
    SetLeaseCounts(p.leases, l, p.leases[l].(state := Released), p.leases[l].conn);
    hide Sum;
    hide WaitingOn;
    hide EstablishedOn;
  }

  /** Everything but the signal holds once the lease is given back. */
  lemma GiveBackCore(p: Pool, l: nat)
    requires PoolOk(p) && MayRelease(p, l)
    ensures var q := GiveBack(p, l);
            FrameOk(q) && TrafficOk(q)
  {
    hide CountsOk;
    hide StreamsOk;
    hide ConnsOk;
    hide LeasesOk;
    hide LentOk;
    hide FrameOk;
    hide SignalsOk;
    var q, c := GiveBack(p, l), p.leases[l].conn;
    LeaseFacts(p, l);
    GiveBackCounts(p, l);
    StateStreams(p.leases, l, c, p.conns[c], q.conns[c], Released);
    QuietFrame(p, q, l);
    ConnsKept(p, q, l, c);
    LeasesKept(p, q, l, c);
    LentKept(p, q, l, c);
  }

  lemma SignalFrame(p: Pool, c: nat)
    requires FrameOk(p)
    ensures FrameOk(Signal(p, c))
  {
    hide ClaimsOk;
    hide ClientsOk;
    hide CachedOk;
    hide AdmissionsOk;
    FrameKept(p, Signal(p, c));
  }

  lemma FinalizeFrame(p: Pool, c: nat)
    requires FrameOk(p)
    ensures FrameOk(Finalize(p, c))
  {
    hide ClaimsOk;
    hide ClientsOk;
    hide CachedOk;
    hide AdmissionsOk;
    FrameKept(p, Finalize(p, c));
  }

  /** Signalling and finalizing touch retirements alone. */
  lemma SettleParts(p: Pool, c: nat)
    requires FrameOk(p) && TrafficOk(p)
    ensures FrameOk(Finalize(Signal(p, c), c)) && TrafficOk(Finalize(Signal(p, c), c))
  {
    hide ConnsOk;
    hide LeasesOk;
    hide SessionsOk;
    hide LentOk;
    hide FrameOk;
    SignalFrame(p, c);
    FinalizeFrame(Signal(p, c), c);
  }

  lemma SignalEffect(p: Pool, c: nat, x: nat)
    ensures Signal(p, c).conns == p.conns && Signal(p, c).retiring == p.retiring
    ensures x in Signal(p, c).retirements <==> x in p.retirements
    ensures x in p.retirements ==>
              Signal(p, c).retirements[x] ==
              if x == c && IsRetiring(p, c) then Signalled(p.conns[c], p.retirements[c]) else p.retirements[x]
  {
  }

  lemma FinalizeEffect(p: Pool, c: nat, x: nat)
    ensures Finalize(p, c).conns == p.conns && Finalize(p, c).retirements == p.retirements
    ensures x in Finalize(p, c).retiring <==>
              x in p.retiring && !(x == c && IsRetiring(p, c) && p.retirements[c].done && Drained(p.conns[c]))
  {
  }

  /** A generation whose last reference may just have been given back. */
  lemma SettleOne(p: Pool, c: nat, x: nat, before: Conn)
    requires x in p.conns && x in p.retirements && RetirementOk(p.retiring, x, before, p.retirements[x])
    requires x == c ==> !Drained(before) && Fence(before) == Fence(p.conns[x])
                        && (before.pending + before.active == 0 ==> p.conns[x].pending + p.conns[x].active == 0)
                        && p.conns[x].pending >= 0 && p.conns[x].active >= 0 && p.conns[x].sessions >= 0
    requires x != c ==> before == p.conns[x]
    ensures var q := Finalize(Signal(p, c), c);
            x in q.conns && x in q.retirements && RetirementOk(q.retiring, x, q.conns[x], q.retirements[x])
  {
    SignalEffect(p, c, x);
    FinalizeEffect(Signal(p, c), c, x);
    hide Signal;
    hide Finalize;
  }

  /** The signal is sent with the last lease, and the entry goes with the last reference. */
  lemma ReleaseSignals(p: Pool, l: nat)
    requires PoolOk(p) && MayRelease(p, l)
    ensures SignalsOk(ReleaseLease(p, l))
  {
    hide FrameOk;
    hide TrafficOk;
    hide CountsOk;
    hide StreamsOk;
    hide RetirementOk;
    hide Signal;
    hide Finalize;
    LeaseFacts(p, l);
    hide LeaseOk;
    var q, c := ReleaseLease(p, l), p.leases[l].conn;
    var given := GiveBack(p, l);
    forall x | x in q.retirements && x in q.conns
      ensures RetirementOk(q.retiring, x, q.conns[x], q.retirements[x])
    {
      SignalEffect(given, c, x);
      FinalizeEffect(Signal(given, c), c, x);
      assert RetirementOk(p.retiring, x, p.conns[x], p.retirements[x]);
      SettleOne(given, c, x, p.conns[x]);
    }
  }

  lemma ReleaseLeaseOk(p: Pool, l: nat)
    requires PoolOk(p)
    ensures PoolOk(ReleaseLease(p, l))
  {
    hide FrameOk;
    hide TrafficOk;
    hide SignalsOk;
    if MayRelease(p, l) {
      ReleaseSignals(p, l);
      GiveBackCore(p, l);
      SettleParts(GiveBack(p, l), p.leases[l].conn);
    }
  }
}

/** Registration and retirement keep the pool's invariant. */
module PoolRegister {
  import opened Basics
  import opened MapSum
  import opened PoolState
  import opened PoolProof
  import opened PoolSteps
  import opened PoolAdmit

  // ---------------------------------------------------------------------------
  // Claims
  // ---------------------------------------------------------------------------

  lemma ClaimTraffic(p: Pool, q: Pool)
    requires TrafficOk(p) && SignalsOk(p)
    requires q.limits == p.limits && q.leases == p.leases && q.sessions == p.sessions && q.conns == p.conns
    requires q.admissions == p.admissions && q.faults == p.faults && q.retiring == p.retiring &&
             q.retirements == p.retirements
    ensures TrafficOk(q) && SignalsOk(q)
  {
    hide ConnsOk;
    hide LeasesOk;
    hide SessionsOk;
    hide LentOk;
    hide RetirementsOk;
  }

  lemma ClaimClients(p: Pool, q: Pool)
    requires ClientsOk(p) && q.conns == p.conns && q.clients == p.clients && q.retirements == p.retirements &&
             q.retiring == p.retiring
    ensures ClientsOk(q)
  {
    forall id | id in q.clients
      ensures CurrentOk(q, id)
    {
      assert CurrentOk(p, id);
    }
  }

  lemma BeginClaims(limits: Limits, claims: map<nat, Claim>, reservations: map<string, nat>, pending: int, k: nat)
    requires ClaimsOk(limits, claims, reservations, pending) && k !in claims && pending < limits.pending
    ensures ClaimsOk(limits, claims[k := Claim(Pending, 0, "")], reservations, pending + 1)
  {
    SetClaimCounts(claims, k, Claim(Pending, 0, ""));
    hide Sum;
    hide OpenClaims;
    forall id | id in reservations
      ensures ReservedBy(claims[k := Claim(Pending, 0, "")], id, reservations[id])
    {
      assert ReservedBy(claims, id, reservations[id]);
    }
  }

  lemma BeginPendingOk(p: Pool, k: nat)
    requires PoolOk(p)
    ensures PoolOk(BeginPending(p, k))
  {
    hide TrafficOk;
    hide SignalsOk;
    hide ClaimsOk;
    hide ClientsOk;
    hide AdmissionsOk;
    hide Lists;
    if !(k in p.claims || !MayBegin(p)) {
      var q := BeginPending(p, k);
      ClaimTraffic(p, q);
      ClaimClients(p, q);
      BeginClaims(p.limits, p.claims, p.reservations, p.serverPending, k);
    }
  }

  lemma ReserveClaims(limits: Limits, claims: map<nat, Claim>, reservations: map<string, nat>, pending: int, k: nat,
      c: nat, id: string)
    requires ClaimsOk(limits, claims, reservations, pending) && k in claims && claims[k].state == Pending &&
             id !in reservations
    ensures ClaimsOk(limits, claims[k := Claim(Reserved, c, id)], reservations[id := k], pending)
  {
    var now, names := claims[k := Claim(Reserved, c, id)], reservations[id := k];
    SetClaimCounts(claims, k, Claim(Reserved, c, id));
    hide Sum;
    hide OpenClaims;
    forall x | x in names
      ensures ReservedBy(now, x, names[x])
    {
      if x != id {
        assert ReservedBy(claims, x, reservations[x]);
      }
    }
  }

  lemma ReserveOk(p: Pool, k: nat, c: nat)
    requires PoolOk(p)
    ensures PoolOk(Reserve(p, k, c))
  {
    hide TrafficOk;
    hide SignalsOk;
    hide ClaimsOk;
    hide ClientsOk;
    hide AdmissionsOk;
    hide Lists;
    if MayReserve(p, k, c) {
      var q := Reserve(p, k, c);
      ClaimTraffic(p, q);
      ClaimClients(p, q);
      ReserveClaims(p.limits, p.claims, p.reservations, p.serverPending, k, c, p.conns[c].id);
      SizeUpdate(p.reservations, p.conns[c].id, k);
    }
  }

  /** A claim that ends gives its pending slot back, and its name if it had one. */
  lemma EndClaims(limits: Limits, claims: map<nat, Claim>, reservations: map<string, nat>, pending: int, k: nat,
      state: ClaimState)
    requires ClaimsOk(limits, claims, reservations, pending) && k in claims && (state == Committed || state == Aborted)
    requires claims[k].state == Pending || claims[k].state == Reserved
    ensures ClaimsOk(limits, claims[k := claims[k].(state := state)],
                     if claims[k].state == Reserved then reservations - {claims[k].id} else reservations, pending - 1)
  {
    var now := claims[k := claims[k].(state := state)];
    var left := if claims[k].state == Reserved then reservations - {claims[k].id} else reservations;
    SetClaimCounts(claims, k, now[k]);
    hide Sum;
    hide OpenClaims;
    forall x | x in left
      ensures ReservedBy(now, x, left[x])
    {
      assert ReservedBy(claims, x, reservations[x]);
    }
  }

  lemma AbortOk(p: Pool, k: nat)
    requires PoolOk(p)
    ensures PoolOk(Abort(p, k))
  {
    hide TrafficOk;
    hide SignalsOk;
    hide ClaimsOk;
    hide ClientsOk;
    hide AdmissionsOk;
    hide Lists;
    if MayAbort(p, k) {
      var q := Abort(p, k);
      ClaimTraffic(p, q);
      ClaimClients(p, q);
      EndClaims(p.limits, p.claims, p.reservations, p.serverPending, k, Aborted);
      if p.claims[k].state == Reserved {
        SizeRemove(p.reservations, p.claims[k].id);
      }
    }
  }

  // ---------------------------------------------------------------------------
  // One generation changes its standing, not its traffic
  // ---------------------------------------------------------------------------

  predicate SameTraffic(a: Conn, b: Conn) {
    && b.pending == a.pending && b.active == a.active && b.sessions == a.sessions && b.id == a.id
    && b.streamID == a.streamID && b.marked == a.marked && b.holders == a.holders
  }

  lemma StandingConns(limits: Limits, leases: map<nat, Lease>, sessions: map<nat, nat>, conns: map<nat, Conn>, c: nat,
      conn: Conn)
    requires ConnsOk(limits, leases, sessions, conns) && c in conns && SameTraffic(conns[c], conn) &&
             (conns[c].added ==> conn.added)
    ensures ConnsOk(limits, leases, sessions, conns[c := conn])
  {
    hide Sum;
    forall x | x in conns
      ensures CountsOk(limits, leases, sessions, x, conns[c := conn][x]) && StreamsOk(leases, x, conns[c := conn][x])
    {
      assert CountsOk(limits, leases, sessions, x, conns[x]) && StreamsOk(leases, x, conns[x]);
    }
  }

  lemma StandingLeases(conns: map<nat, Conn>, leases: map<nat, Lease>, c: nat, conn: Conn)
    requires LeasesOk(conns, leases) && c in conns && SameTraffic(conns[c], conn)
    ensures LeasesOk(conns[c := conn], leases)
  {
    forall l | l in leases
      ensures LeaseOk(conns[c := conn], leases[l])
    {
      assert LeaseOk(conns, leases[l]);
    }
  }

  lemma StandingTraffic(p: Pool, q: Pool, c: nat)
    requires TrafficOk(p) && c in p.conns && c in q.conns && q.conns == p.conns[c := q.conns[c]]
    requires SameTraffic(p.conns[c], q.conns[c]) && (p.conns[c].added ==> q.conns[c].added)
    requires q.limits == p.limits && q.leases == p.leases && q.sessions == p.sessions && q.admissions == p.admissions &&
             q.faults == p.faults
    ensures TrafficOk(q)
  {
    hide ConnsOk;
    hide LeasesOk;
    hide LentOk;
    StandingConns(p.limits, p.leases, p.sessions, p.conns, c, q.conns[c]);
    StandingLeases(p.conns, p.leases, c, q.conns[c]);
  }

  lemma CommitClients(p: Pool, k: nat)
    requires ClientsOk(p) && MayCommit(p, k) && NamedConn(p.conns, p.claims[k].conn, p.claims[k].id)
    ensures ClientsOk(Commit(p, k))
  {
    var q := Commit(p, k);
    forall id | id in q.clients
      ensures CurrentOk(q, id)
    {
      if id in p.clients {
        assert CurrentOk(p, id);
      }
    }
  }

  lemma CommitNames(claims: map<nat, Claim>, conns: map<nat, Conn>, k: nat)
    requires ReservedConns(claims, conns) && k in claims && claims[k].state == Reserved
    ensures NamedConn(conns, claims[k].conn, claims[k].id)
    ensures ReservedConns(claims[k := claims[k].(state := Committed)],
                          conns[claims[k].conn := conns[claims[k].conn].(added := true, healthy := true)])
  {
  }

  lemma CommitFrame(p: Pool, k: nat)
    requires FrameOk(p) && MayCommit(p, k)
    ensures FrameOk(Commit(p, k))
  {
    hide ClaimsOk;
    hide ClientsOk;
    hide ReservedConns;
    hide AdmissionsOk;
    hide Lists;
    var claim := p.claims[k];
    CommitNames(p.claims, p.conns, k);
    CommitClients(p, k);
    EndClaims(p.limits, p.claims, p.reservations, p.serverPending, k, Committed);
    SizeRemove(p.reservations, claim.id);
    SizeUpdate(p.clients, claim.id, claim.conn);
  }

  lemma CommitSignals(p: Pool, k: nat)
    requires FrameOk(p) && SignalsOk(p) && MayCommit(p, k)
    ensures SignalsOk(Commit(p, k))
  {
    assert p.claims[k].conn !in p.retirements;
    hide FrameOk;
    LendSignals(p, p.claims[k].conn, Commit(p, k).conns[p.claims[k].conn]);
  }

  lemma CommitOk(p: Pool, k: nat)
    requires PoolOk(p)
    ensures PoolOk(Commit(p, k))
  {
    hide FrameOk;
    hide TrafficOk;
    hide SignalsOk;
    if MayCommit(p, k) {
      CommitFrame(p, k);
      CommitSignals(p, k);
      StandingTraffic(p, Commit(p, k), p.claims[k].conn);
    }
  }

  lemma MarkHealthOk(p: Pool, c: nat, healthy: bool)
    requires PoolOk(p)
    ensures PoolOk(MarkHealth(p, c, healthy))
  {
    hide TrafficOk;
    hide RetirementsOk;
    hide ClaimsOk;
    hide ClientsOk;
    hide AdmissionsOk;
    hide Lists;
    if IsCurrent(p, c) {
      var q := MarkHealth(p, c, healthy);
      CurrentFacts(p, c);
      StandingTraffic(p, q, c);
      LendSignals(p, c, q.conns[c]);
      ClientsKept(p, q);
    }
  }

  // ---------------------------------------------------------------------------
  // Retirement
  // ---------------------------------------------------------------------------

  /** The generation moves from the client map to the retiring set. */
  function Moved(p: Pool, c: nat): Pool
    requires c in p.conns
  {
    var conn := p.conns[c];
    p.(conns := p.conns[c := conn.(healthy := false)], clients := p.clients - {conn.id},
       retirements := p.retirements[c := Retirement(false, false, [])], retiring := p.retiring + {c}, cached := None)
  }

  lemma MovedClients(p: Pool, c: nat)
    requires ClientsOk(p) && IsCurrent(p, c)
    ensures ClientsOk(Moved(p, c))
  {
    var q := Moved(p, c);
    assert CurrentOk(p, p.conns[c].id);
    forall id | id in q.clients
      ensures CurrentOk(q, id)
    {
      assert CurrentOk(p, id);
    }
  }

  lemma MovedFrame(p: Pool, c: nat)
    requires FrameOk(p) && IsCurrent(p, c) && c !in p.retiring
    ensures FrameOk(Moved(p, c))
  {
    hide ClaimsOk;
    hide ClientsOk;
    hide AdmissionsOk;
    hide Lists;
    MovedClients(p, c);
    SizeRemove(p.clients, p.conns[c].id);
  }

  lemma RetireSignals(p: Pool, c: nat)
    requires SignalsOk(p) && IsCurrent(p, c) && c !in p.retirements
    ensures SignalsOk(Signal(Moved(p, c), c))
  {
    var m := Moved(p, c);
    var q := Signal(m, c);
    forall x | x in q.retirements && x in q.conns
      ensures RetirementOk(q.retiring, x, q.conns[x], q.retirements[x])
    {
      SignalEffect(m, c, x);
      if x != c {
        assert RetirementOk(p.retiring, x, p.conns[x], p.retirements[x]);
      }
    }
  }

  lemma SignalTraffic(p: Pool, c: nat)
    requires TrafficOk(p)
    ensures TrafficOk(Signal(p, c))
  {
    hide ConnsOk;
    hide LeasesOk;
    hide SessionsOk;
    hide LentOk;
  }

  lemma BeginRetireOk(p: Pool, c: nat)
    requires PoolOk(p)
    ensures PoolOk(BeginRetire(p, c))
  {
    hide FrameOk;
    hide TrafficOk;
    hide SignalsOk;
    hide CountsOk;
    hide StreamsOk;
    hide Signal;
    if IsCurrent(p, c) {
      CurrentFacts(p, c);
      MovedFrame(p, c);
      StandingTraffic(p, Moved(p, c), c);
      SignalFrame(Moved(p, c), c);
      SignalTraffic(Moved(p, c), c);
      RetireSignals(p, c);
    }
  }

  function Finished(p: Pool, c: nat): Pool
    requires c in p.retirements
  {
    p.(retirements := p.retirements[c := p.retirements[c].(done := true)])
  }

  lemma FinishedFrame(p: Pool, c: nat)
    requires FrameOk(p) && c in p.retirements
    ensures FrameOk(Finished(p, c))
  {
    hide ClaimsOk;
    hide ClientsOk;
    hide CachedOk;
    hide AdmissionsOk;
    FrameKept(p, Finished(p, c));
  }

  lemma DoneSignals(p: Pool, c: nat)
    requires SignalsOk(p) && MayFinish(p, c) && c in p.conns
    ensures SignalsOk(Finalize(Finished(p, c), c))
  {
    hide Finalize;
    var m := Finished(p, c);
    var q := Finalize(m, c);
    forall x | x in q.retirements && x in q.conns
      ensures RetirementOk(q.retiring, x, q.conns[x], q.retirements[x])
    {
      FinalizeEffect(m, c, x);
      assert RetirementOk(p.retiring, x, p.conns[x], p.retirements[x]);
    }
  }

  lemma RetirementKnown(p: Pool, c: nat)
    requires FrameOk(p) && c in p.retirements
    ensures c in p.conns
  {
  }

  lemma RetireDoneOk(p: Pool, c: nat)
    requires PoolOk(p)
    ensures PoolOk(RetireDone(p, c))
  {
    hide FrameOk;
    hide TrafficOk;
    hide SignalsOk;
    hide Finalize;
    if MayFinish(p, c) {
      RetirementKnown(p, c);
      FinishedFrame(p, c);
      FinalizeFrame(Finished(p, c), c);
      StandingTraffic(p, Finished(p, c), c);
      FinalizeTraffic(Finished(p, c), c);
      DoneSignals(p, c);
    }
  }

  // ---------------------------------------------------------------------------
  // A new generation
  // ---------------------------------------------------------------------------

  lemma NewConnCounts(p: Pool, c: nat, conn: Conn)
    requires LeasesOk(p.conns, p.leases) && SessionsOk(p.conns, p.sessions) && c !in p.conns
    requires conn.pending == 0 && conn.active == 0 && conn.sessions == 0
    ensures CountsOk(p.limits, p.leases, p.sessions, c, conn)
  {
    forall l | l in p.leases
      ensures p.leases[l].conn != c
    {
      assert LeaseOk(p.conns, p.leases[l]);
    }
    SumZero(WaitingOn(p.leases, c));
    SumZero(EstablishedOn(p.leases, c));
    SumZero(SessionsOn(p.sessions, c));
    hide Sum;
  }

  lemma NewConnTraffic(p: Pool, c: nat, conn: Conn)
    requires TrafficOk(p) && c !in p.conns && conn.pending == 0 && conn.active == 0 && conn.sessions == 0
    requires conn.streamID == 0 && !conn.marked && conn.holders == []
    ensures TrafficOk(SetConn(p, c, conn))
  {
    hide LentOk;
    hide CountsOk;
    hide Sum;
    NewConnCounts(p, c, conn);
    var q := SetConn(p, c, conn);
    forall l | l in q.leases
      ensures LeaseOk(q.conns, q.leases[l])
    {
      assert LeaseOk(p.conns, p.leases[l]);
    }
  }

  lemma NewConnClients(p: Pool, c: nat, conn: Conn)
    requires ClientsOk(p) && c !in p.conns && !conn.added
    ensures ClientsOk(SetConn(p, c, conn))
  {
    var q := SetConn(p, c, conn);
    forall id | id in q.clients
      ensures CurrentOk(q, id)
    {
      assert CurrentOk(p, id);
    }
  }

  lemma NewConnOk(p: Pool, c: nat, id: string, tcp: bool, udp: bool)
    requires PoolOk(p)
    ensures PoolOk(NewConn(p, c, id, tcp, udp))
  {
    hide TrafficOk;
    hide ClaimsOk;
    hide AdmissionsOk;
    hide Lists;
    if c !in p.conns {
      var conn := Conn(id, tcp, udp, 0, 0, 0, 0, false, [], false, false);
      NewConnTraffic(p, c, conn);
      NewConnClients(p, c, conn);
      assert c !in p.retirements;
      hide ClientsOk;
      hide RetirementOk;
    }
  }

  // ---------------------------------------------------------------------------
  // Whole runs
  // ---------------------------------------------------------------------------

  lemma DoOk(p: Pool, a: Action)
    requires PoolOk(p)
    ensures PoolOk(Do(p, a))
  {
    hide PoolOk;
    hide NewConn;
    hide BeginPending;
    hide Reserve;
    hide Commit;
    hide Abort;
    hide BeginRetire;
    hide RetireDone;
    hide MarkHealth;
    hide ReserveUDP;
    hide ReleaseUDP;
    hide BeginAdmission;
    hide Next;
    hide OpenStream;
    hide LoadHigh;
    hide SwapHigh;
    hide MarkOpened;
    hide CommitLease;
    hide ReleaseLease;
    match a {
      case DoNewConn(c, id, tcp, udp) => NewConnOk(p, c, id, tcp, udp);
      case DoBeginPending(k) => BeginPendingOk(p, k);
      case DoReserve(k, c) => ReserveOk(p, k, c);
      case DoCommit(k) => CommitOk(p, k);
      case DoAbort(k) => AbortOk(p, k);
      case DoBeginRetire(c) => BeginRetireOk(p, c);
      case DoRetireDone(c) => RetireDoneOk(p, c);
      case DoMarkHealth(c, healthy) => MarkHealthOk(p, c, healthy);
      case DoReserveUDP(token, c) => ReserveUDPOk(p, token, c);
      case DoReleaseUDP(token) => ReleaseUDPOk(p, token);
      case DoBeginAdmission(a, order) => BeginAdmissionOk(p, a, order);
      case DoNext(a, l, pick) => NextOk(p, a, l, pick);
      case DoOpenStream(l) => OpenStreamOk(p, l);
      case DoLoadHigh(l) => LoadHighOk(p, l);
      case DoSwapHigh(l) => SwapHighOk(p, l);
      case DoMarkOpened(l) => MarkOpenedOk(p, l);
      case DoCommitLease(l) => CommitLeaseOk(p, l);
      case DoReleaseLease(l) => ReleaseLeaseOk(p, l);
    }
  }
}

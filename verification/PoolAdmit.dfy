/** Admission, sessions, registration and retirement keep the pool's invariant. */
module PoolAdmit {
  import opened Basics
  import opened MapSum
  import opened PoolState
  import opened PoolProof
  import opened PoolSteps

  // ---------------------------------------------------------------------------
  // Admission
  // ---------------------------------------------------------------------------

  lemma SwapNoRepeats(l: seq<nat>, i: nat)
    requires NoRepeats(l) && i < |l|
    ensures NoRepeats(Swap(l, i))
  {
    var s := Swap(l, i);
    forall j, k | 0 <= j < k < |s|
      ensures s[j] != s[k]
    {
      assert s[j] == l[if j == 0 then i else if j == i then 0 else j];
      assert s[k] == l[if k == i then 0 else k];
    }
  }

  lemma BalanceOk(p: Pool, adm: Admission, pick: nat)
    requires AdmissionOk(adm)
    ensures AdmissionOk(Balance(p, adm, pick)) && Balance(p, adm, pick).balanced
    ensures Balance(p, adm, pick).next == adm.next && Passed(Balance(p, adm, pick)) == Passed(adm)
  {
    hide NoRepeats;
    hide Leasable;
    hide Filter;
    hide Swap;
    var index := IndexOf(adm.candidates, pick);
    hide IndexOf;
    if index < |adm.candidates| {
      SwapNoRepeats(adm.candidates, index);
      assert |Swap(adm.candidates, index)| == |adm.candidates| by { SwapLength(adm.candidates, index); }
    }
  }

  lemma SwapLength(l: seq<nat>, i: nat)
    requires i < |l|
    ensures |Swap(l, i)| == |l|
  {
  }

  lemma PassedGrows(adm: Admission, next: nat)
    requires adm.next <= next <= |adm.candidates|
    ensures forall x :: x in Passed(adm) ==> x in Passed(adm.(next := next))
  {
    var now := adm.(next := next);
    forall i | 0 <= i < adm.next
      ensures Passed(adm)[i] in Passed(now)
    {
      assert Passed(adm)[i] == Passed(now)[i];
    }
  }

  lemma SetAdmissionLent(admissions: map<nat, Admission>, leases: map<nat, Lease>, a: nat, adm: Admission)
    requires LentOk(admissions, leases)
    requires a in admissions ==> forall x :: x in Passed(admissions[a]) ==> x in Passed(adm)
    ensures LentOk(admissions[a := adm], leases)
  {
    hide Passed;
    forall l | l in leases
      ensures FromPassed(admissions[a := adm], leases[l])
    {
      assert FromPassed(admissions, leases[l]);
    }
  }

  lemma SetAdmissionOk(p: Pool, a: nat, adm: Admission)
    requires PoolOk(p) && AdmissionOk(adm)
    requires a in p.admissions ==> forall x :: x in Passed(p.admissions[a]) ==> x in Passed(adm)
    ensures PoolOk(p.(admissions := p.admissions[a := adm]))
  {
    hide Passed;
    hide AdmissionOk;
    hide ConnsOk;
    hide LeasesOk;
    hide SessionsOk;
    hide LentOk;
    hide RetirementsOk;
    var q := p.(admissions := p.admissions[a := adm]);
    SetAdmissionLent(p.admissions, p.leases, a, adm);
    SetAdmissionFrame(p, a, adm);
    hide FrameOk;
  }

  lemma SetAdmissionFrame(p: Pool, a: nat, adm: Admission)
    requires FrameOk(p) && AdmissionOk(adm)
    ensures FrameOk(p.(admissions := p.admissions[a := adm]))
  {
    hide AdmissionOk;
    hide ClaimsOk;
    hide ClientsOk;
    hide CachedOk;
    FrameKept(p, p.(admissions := p.admissions[a := adm]));
  }

  lemma LendCounts(p: Pool, a: nat, l: nat, c: nat)
    requires l !in p.leases && Leasable(p, c) && p.conns[c].added &&
             CountsOk(p.limits, p.leases, p.sessions, c, p.conns[c])
    ensures var q := Lend(p, a, l, c);
            CountsOk(q.limits, q.leases, q.sessions, c, q.conns[c])
  {
    SetLeaseCounts(p.leases, l, Lease(c, a, Waiting, NoStream), c);
    hide Sum;
    hide WaitingOn;
    hide EstablishedOn;
  }

  lemma LendStreams(leases: map<nat, Lease>, l: nat, lease: Lease, c: nat, conn: Conn, next: Conn)
    requires StreamsOk(leases, c, conn) && l !in leases
    requires next.holders == conn.holders && next.marked == conn.marked && next.streamID == conn.streamID
    ensures StreamsOk(leases[l := lease], c, next)
  {
    forall n: nat | n < |conn.holders|
      ensures Holder(leases[l := lease], c, conn.holders[n], n)
    {
      assert Holder(leases, c, conn.holders[n], n);
    }
  }

  /** The admission has passed c only now, so none of its leases is on c. */
  lemma LendOnce(admissions: map<nat, Admission>, leases: map<nat, Lease>, a: nat, k: nat, l: nat)
    requires LentOk(admissions, leases) && a in admissions && l !in leases
    requires AdmissionOk(admissions[a]) && admissions[a].next <= k < |admissions[a].candidates|
    ensures var adm := admissions[a].(next := k + 1);
            LentOk(admissions[a := adm], leases[l := Lease(adm.candidates[k], a, Waiting, NoStream)])
  {
    var adm := admissions[a].(next := k + 1);
    var c := adm.candidates[k];
    PassedGrows(admissions[a], k + 1);
    assert Passed(adm)[k] == c;
    assert c !in Passed(admissions[a]);
    hide Passed;
    var now := leases[l := Lease(c, a, Waiting, NoStream)];
    forall m | m in now
      ensures FromPassed(admissions[a := adm], now[m])
    {
      if m != l {
        assert FromPassed(admissions, leases[m]);
      }
    }
    forall m | m in leases && leases[m].admission == a
      ensures leases[m].conn != c
    {
      assert FromPassed(admissions, leases[m]);
    }
  }

  lemma CurrentFacts(p: Pool, c: nat)
    requires PoolOk(p) && IsCurrent(p, c)
    ensures c in p.conns && p.conns[c].added && c !in p.retirements && c !in p.retiring
    ensures CountsOk(p.limits, p.leases, p.sessions, c, p.conns[c]) && StreamsOk(p.leases, c, p.conns[c])
  {
    hide CountsOk;
    hide StreamsOk;
    hide LeasesOk;
    hide LentOk;
    assert CurrentOk(p, p.conns[c].id);
  }

  /** Lending a current generation, seen from the state with the admission already advanced. */
  lemma LendTraffic(p: Pool, a: nat, k: nat, l: nat, c: nat)
    requires PoolOk(p) && a in p.admissions && l !in p.leases && Leasable(p, c)
    requires p.admissions[a].next <= k < |p.admissions[a].candidates| && p.admissions[a].candidates[k] == c
    ensures var q := Lend(p.(admissions := p.admissions[a := p.admissions[a].(next := k + 1)]), a, l, c);
            TrafficOk(q)
  {
    hide FrameOk;
    hide SignalsOk;
    hide CountsOk;
    hide StreamsOk;
    hide ConnsOk;
    hide LeasesOk;
    hide LentOk;
    var q := Lend(p.(admissions := p.admissions[a := p.admissions[a].(next := k + 1)]), a, l, c);
    CurrentFacts(p, c);
    LendFacts(p, a);
    LendCounts(p, a, l, c);
    LendStreams(p.leases, l, Lease(c, a, Waiting, NoStream), c, p.conns[c], q.conns[c]);
    ConnsKept(p, q, l, c);
    LeasesKept(p, q, l, c);
    LendOnce(p.admissions, p.leases, a, k, l);
  }

  lemma LendFacts(p: Pool, a: nat)
    requires PoolOk(p) && a in p.admissions
    ensures AdmissionOk(p.admissions[a])
  {
  }

  lemma LendSignals(p: Pool, c: nat, conn: Conn)
    requires SignalsOk(p) && c in p.conns && c !in p.retirements
    ensures RetirementsOk(p.conns[c := conn], p.retiring, p.retirements)
  {
    hide RetirementOk;
  }

  lemma LendOk(p: Pool, a: nat, k: nat, l: nat, c: nat)
    requires PoolOk(p) && a in p.admissions && l !in p.leases && Leasable(p, c) && p.admissions[a].balanced
    requires p.admissions[a].next <= k < |p.admissions[a].candidates| && p.admissions[a].candidates[k] == c
    ensures PoolOk(Lend(p.(admissions := p.admissions[a := p.admissions[a].(next := k + 1)]), a, l, c))
  {
    hide TrafficOk;
    hide RetirementsOk;
    hide CountsOk;
    hide StreamsOk;
    hide FrameOk;
    var adm := p.admissions[a].(next := k + 1);
    var q := Lend(p.(admissions := p.admissions[a := adm]), a, l, c);
    LendTraffic(p, a, k, l, c);
    CurrentFacts(p, c);
    LendFacts(p, a);
    LendSignals(p, c, q.conns[c]);
    LendFrame(p, a, adm, q, c);
  }

  lemma LendFrame(p: Pool, a: nat, adm: Admission, q: Pool, c: nat)
    requires FrameOk(p) && AdmissionOk(adm) && c in p.conns && SameConns(p, q) && SameSlots(p, q)
    requires q.cached == p.cached && q.admissions == p.admissions[a := adm]
    ensures FrameOk(q)
  {
    hide AdmissionOk;
    hide ClaimsOk;
    hide ClientsOk;
    hide CachedOk;
    FrameKept(p, q);
  }

  lemma NextOk(p: Pool, a: nat, l: nat, pick: nat)
    requires PoolOk(p)
    ensures PoolOk(Next(p, a, l, pick))
  {
    hide PoolOk;
    hide Balance;
    hide Scan;
    hide Leasable;
    hide Lend;
    if a in p.admissions && l !in p.leases && p.faults == 0 {
      var adm := Balance(p, p.admissions[a], pick);
      LendFacts(p, a);
      BalanceOk(p, p.admissions[a], pick);
      SetAdmissionOk(p, a, adm);
      if !adm.failed {
        var b := p.(admissions := p.admissions[a := adm]);
        var k := Scan(p, adm.candidates, adm.next);
        if k == |adm.candidates| {
          PassedGrows(adm, k);
          SetAdmissionOk(b, a, adm.(next := k));
          assert b.(admissions := b.admissions[a := adm.(next := k)]) ==
                 p.(admissions := p.admissions[a := adm.(next := k)]);
        } else {
          SameLeasable(p, b, adm.candidates[k]);
          LendOk(b, a, k, l, adm.candidates[k]);
          assert b.(admissions := b.admissions[a := adm.(next := k + 1)]) ==
                 p.(admissions := p.admissions[a := adm.(next := k + 1)]);
        }
      }
    }
  }

  lemma SameLeasable(p: Pool, b: Pool, c: nat)
    requires Leasable(p, c) && b.conns == p.conns && b.clients == p.clients && b.limits == p.limits
    ensures Leasable(b, c)
  {
  }

  lemma FilterNoRepeats(l: seq<nat>, keep: nat -> bool)
    requires NoRepeats(l)
    ensures NoRepeats(Filter(l, keep))
  {
    if l != [] {
      FilterNoRepeats(l[1..], keep);
      assert l[0] !in l[1..];
      var rest := Filter(l[1..], keep);
      assert forall i :: 0 <= i < |rest| ==> rest[i] in l[1..];
    }
  }

  lemma CacheOk(p: Pool, slice: seq<nat>)
    requires PoolOk(p) && Lists(slice, p.clients)
    ensures PoolOk(p.(cached := Some(slice)))
  {
    hide TrafficOk;
    hide ClaimsOk;
    hide ReservedConns;
    hide AdmissionsOk;
    hide RetirementsOk;
    hide Lists;
    var q := p.(cached := Some(slice));
    CacheTraffic(p, q);
    CacheClients(p, q);
    hide ClientsOk;
  }

  lemma CacheTraffic(p: Pool, q: Pool)
    requires TrafficOk(p) && q.(cached := p.cached) == p
    ensures TrafficOk(q)
  {
    hide ConnsOk;
    hide LeasesOk;
    hide LentOk;
  }

  lemma CacheClients(p: Pool, q: Pool)
    requires ClientsOk(p) && q.(cached := p.cached) == p
    ensures ClientsOk(q)
  {
    ClientsKept(p, q);
  }

  lemma SliceLists(p: Pool, order: seq<nat>)
    requires PoolOk(p) && Lists(order, p.clients)
    ensures Lists(Slice(p, order), p.clients) && NoRepeats(Slice(p, order))
  {
  }

  lemma BeginAdmissionOk(p: Pool, a: nat, order: seq<nat>)
    requires PoolOk(p)
    ensures PoolOk(BeginAdmission(p, a, order))
  {
    hide PoolOk;
    hide Filter;
    hide Lists;
    hide NoRepeats;
    if !(a in p.admissions || p.faults != 0 || p.clients == map[] || !Lists(order, p.clients)) {
      var slice := Slice(p, order);
      SliceLists(p, order);
      CacheOk(p, slice);
      FilterNoRepeats(slice, (c: nat) => TakesTCP(p, c));
      var candidates := Filter(slice, (c: nat) => TakesTCP(p, c));
      SetAdmissionOk(p.(cached := Some(slice)), a, Admission(candidates, 0, false, false));
    }
  }

  // ---------------------------------------------------------------------------
  // UDP sessions
  // ---------------------------------------------------------------------------

  /** q differs from p in one generation's session count and in one session on it. */
  predicate SessionStep(p: Pool, q: Pool, c: nat) {
    && c in p.conns && c in q.conns && q.conns == p.conns[c := p.conns[c].(sessions := q.conns[c].sessions)]
    && q.leases == p.leases && q.limits == p.limits && q.admissions == p.admissions && q.faults == p.faults
  }

  lemma SessionConns(p: Pool, q: Pool, c: nat)
    requires ConnsOk(p.limits, p.leases, p.sessions, p.conns) && SessionStep(p, q, c)
    requires forall x :: x != c ==> Sum(SessionsOn(q.sessions, x)) == Sum(SessionsOn(p.sessions, x))
    requires q.conns[c].sessions == Sum(SessionsOn(q.sessions, c)) && 0 <= q.conns[c].sessions <= q.limits.udp
    requires p.conns[c].added
    ensures ConnsOk(q.limits, q.leases, q.sessions, q.conns)
  {
    hide Sum;
    hide SessionsOn;
    hide WaitingOn;
    hide EstablishedOn;
    forall x | x in q.conns
      ensures CountsOk(q.limits, q.leases, q.sessions, x, q.conns[x]) && StreamsOk(q.leases, x, q.conns[x])
    {
      assert CountsOk(p.limits, p.leases, p.sessions, x, p.conns[x]) && StreamsOk(p.leases, x, p.conns[x]);
    }
  }

  lemma SessionLeases(p: Pool, q: Pool, c: nat)
    requires LeasesOk(p.conns, p.leases) && SessionStep(p, q, c)
    ensures LeasesOk(q.conns, q.leases)
  {
    forall l | l in q.leases
      ensures LeaseOk(q.conns, q.leases[l])
    {
      assert LeaseOk(p.conns, p.leases[l]);
    }
  }

  lemma ReserveUDPTraffic(p: Pool, token: nat, c: nat)
    requires PoolOk(p) && token !in p.sessions && p.faults == 0 && TakesUDP(p, c)
    ensures TrafficOk(ReserveUDP(p, token, c))
  {
    hide FrameOk;
    hide SignalsOk;
    hide StreamsOk;
    hide LentOk;
    hide LeasesOk;
    hide Sum;
    hide SessionsOn;
    hide WaitingOn;
    hide EstablishedOn;
    var q := ReserveUDP(p, token, c);
    CurrentFacts(p, c);
    forall x: nat
      ensures Sum(SessionsOn(q.sessions, x)) == Sum(SessionsOn(p.sessions, x)) + One(c == x)
    {
      AddSessionCounts(p.sessions, token, c, x);
    }
    hide ConnsOk;
    SessionConns(p, q, c);
    SessionLeases(p, q, c);
  }

  lemma SessionFrame(p: Pool, q: Pool, c: nat)
    requires FrameOk(p) && SessionStep(p, q, c) && SameSlots(p, q) && q.cached == p.cached
    ensures FrameOk(q)
  {
    hide ClaimsOk;
    hide ClientsOk;
    hide CachedOk;
    hide AdmissionsOk;
    FrameKept(p, q);
  }

  lemma ReserveUDPOk(p: Pool, token: nat, c: nat)
    requires PoolOk(p)
    ensures PoolOk(ReserveUDP(p, token, c))
  {
    hide FrameOk;
    hide TrafficOk;
    hide RetirementsOk;
    hide CountsOk;
    hide StreamsOk;
    if !(token in p.sessions || p.faults != 0 || !TakesUDP(p, c)) {
      var q := ReserveUDP(p, token, c);
      CurrentFacts(p, c);
      ReserveUDPTraffic(p, token, c);
      LendSignals(p, c, q.conns[c]);
      SessionFrame(p, q, c);
    }
  }

  lemma SessionCounted(p: Pool, token: nat)
    requires PoolOk(p) && token in p.sessions
    ensures var c := p.sessions[token];
            && c in p.conns && p.conns[c].sessions == Sum(SessionsOn(p.sessions, c)) &&
               1 <= p.conns[c].sessions <= p.limits.udp
            && p.conns[c].added && p.conns[c].pending >= 0 && p.conns[c].active >= 0
  {
    hide FrameOk;
    hide LeasesOk;
    hide LentOk;
    hide StreamsOk;
    hide SignalsOk;
    hide WaitingOn;
    hide EstablishedOn;
    hide Sum;
    var c := p.sessions[token];
    assert CountsOk(p.limits, p.leases, p.sessions, c, p.conns[c]);
    SumBounds(SessionsOn(p.sessions, c), token);
  }

  function WithoutSession(p: Pool, token: nat): Pool
    requires token in p.sessions && p.sessions[token] in p.conns
  {
    var c := p.sessions[token];
    SetConn(p, c, p.conns[c].(sessions := p.conns[c].sessions - 1)).(sessions := p.sessions - {token})
  }

  lemma ReleaseUDPTraffic(p: Pool, token: nat)
    requires PoolOk(p) && token in p.sessions
    ensures p.sessions[token] in p.conns && TrafficOk(WithoutSession(p, token))
  {
    hide FrameOk;
    hide SignalsOk;
    hide StreamsOk;
    hide CountsOk;
    hide LentOk;
    hide LeasesOk;
    hide ConnsOk;
    hide Sum;
    hide SessionsOn;
    SessionCounted(p, token);
    var q, c := WithoutSession(p, token), p.sessions[token];
    forall x: nat
      ensures Sum(SessionsOn(q.sessions, x)) == Sum(SessionsOn(p.sessions, x)) - One(c == x)
    {
      RemoveSessionCounts(p.sessions, token, x);
    }
    SessionConns(p, q, c);
    SessionLeases(p, q, c);
  }

  lemma FinalizeTraffic(p: Pool, c: nat)
    requires TrafficOk(p)
    ensures TrafficOk(Finalize(p, c))
  {
    hide ConnsOk;
    hide LeasesOk;
    hide SessionsOk;
    hide LentOk;
  }

  /** A generation that lost its last session may be finalized; it has signalled before. */
  lemma ReleaseUDPSignals(p: Pool, token: nat)
    requires PoolOk(p) && token in p.sessions && p.sessions[token] in p.conns
    ensures SignalsOk(Finalize(WithoutSession(p, token), p.sessions[token]))
  {
    hide FrameOk;
    hide TrafficOk;
    hide Finalize;
    SessionCounted(p, token);
    hide Sum;
    var c := p.sessions[token];
    var given := WithoutSession(p, token);
    var q := Finalize(given, c);
    forall x | x in q.retirements && x in q.conns
      ensures RetirementOk(q.retiring, x, q.conns[x], q.retirements[x])
    {
      FinalizeEffect(given, c, x);
      assert RetirementOk(p.retiring, x, p.conns[x], p.retirements[x]);
    }
  }

  lemma ReleaseUDPOk(p: Pool, token: nat)
    requires PoolOk(p)
    ensures PoolOk(ReleaseUDP(p, token))
  {
    hide FrameOk;
    hide TrafficOk;
    hide SignalsOk;
    hide Finalize;
    if token in p.sessions {
      SessionCounted(p, token);
      ReleaseUDPTraffic(p, token);
      var given, c := WithoutSession(p, token), p.sessions[token];
      FinalizeTraffic(given, c);
      SessionFrame(p, given, c);
      FinalizeFrame(given, c);
      ReleaseUDPSignals(p, token);
    }
  }
}

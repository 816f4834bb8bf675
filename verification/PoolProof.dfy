/** What every critical section of the pool keeps. */
module PoolProof {
  import opened Basics
  import opened MapSum
  import opened PoolState

  // ---------------------------------------------------------------------------
  // Counting
  // ---------------------------------------------------------------------------

  ghost function WaitingOn(leases: map<nat, Lease>, c: nat): map<nat, int> {
    map l | l in leases :: if leases[l].conn == c && leases[l].state == Waiting then 1 else 0
  }

  ghost function EstablishedOn(leases: map<nat, Lease>, c: nat): map<nat, int> {
    map l | l in leases :: if leases[l].conn == c && leases[l].state == Established then 1 else 0
  }

  ghost function SessionsOn(sessions: map<nat, nat>, c: nat): map<nat, int> {
    map t | t in sessions :: if sessions[t] == c then 1 else 0
  }

  ghost function OpenClaims(claims: map<nat, Claim>): map<nat, int> {
    map k | k in claims :: if claims[k].state == Pending || claims[k].state == Reserved then 1 else 0
  }

  lemma SetLeaseCounts(leases: map<nat, Lease>, l: nat, lease: Lease, c: nat)
    ensures Sum(WaitingOn(leases[l := lease], c)) == Sum(WaitingOn(leases, c))
              + One(lease.conn == c && lease.state == Waiting)
              - One(l in leases && leases[l].conn == c && leases[l].state == Waiting)
    ensures Sum(EstablishedOn(leases[l := lease], c)) == Sum(EstablishedOn(leases, c))
              + One(lease.conn == c && lease.state == Established)
              - One(l in leases && leases[l].conn == c && leases[l].state == Established)
  {
    var waiting := One(lease.conn == c && lease.state == Waiting);
    var established := One(lease.conn == c && lease.state == Established);
    assert WaitingOn(leases[l := lease], c) == WaitingOn(leases, c)[l := waiting];
    assert EstablishedOn(leases[l := lease], c) == EstablishedOn(leases, c)[l := established];
    SumUpdate(WaitingOn(leases, c), l, waiting);
    SumUpdate(EstablishedOn(leases, c), l, established);
  }

  lemma SetClaimCounts(claims: map<nat, Claim>, k: nat, claim: Claim)
    ensures Sum(OpenClaims(claims[k := claim])) == Sum(OpenClaims(claims))
              + One(claim.state == Pending || claim.state == Reserved)
              - One(k in claims && (claims[k].state == Pending || claims[k].state == Reserved))
  {
    var now := One(claim.state == Pending || claim.state == Reserved);
    assert OpenClaims(claims[k := claim]) == OpenClaims(claims)[k := now];
    SumUpdate(OpenClaims(claims), k, now);
  }

  lemma AddSessionCounts(sessions: map<nat, nat>, t: nat, c: nat, q: nat)
    requires t !in sessions
    ensures Sum(SessionsOn(sessions[t := c], q)) == Sum(SessionsOn(sessions, q)) + One(c == q)
  {
    assert SessionsOn(sessions[t := c], q) == SessionsOn(sessions, q)[t := One(c == q)];
    SumUpdate(SessionsOn(sessions, q), t, One(c == q));
  }

  lemma RemoveSessionCounts(sessions: map<nat, nat>, t: nat, q: nat)
    requires t in sessions
    ensures Sum(SessionsOn(sessions - {t}, q)) == Sum(SessionsOn(sessions, q)) - One(sessions[t] == q)
  {
    assert SessionsOn(sessions - {t}, q) == SessionsOn(sessions, q) - {t};
    SumRemove(SessionsOn(sessions, q), t);
  }

  lemma CountsPositive(leases: map<nat, Lease>, c: nat, l: nat)
    requires l in leases && leases[l].conn == c
    ensures leases[l].state == Waiting ==> Sum(WaitingOn(leases, c)) >= 1
    ensures leases[l].state == Established ==> Sum(EstablishedOn(leases, c)) >= 1
    ensures Sum(WaitingOn(leases, c)) >= 0 && Sum(EstablishedOn(leases, c)) >= 0
  {
    SumBounds(WaitingOn(leases, c), l);
    SumBounds(EstablishedOn(leases, c), l);
  }

  // ---------------------------------------------------------------------------
  // The invariant
  // ---------------------------------------------------------------------------

  /** serverPending counts the open claims; the reservation map is exactly the reserved ones. */
  ghost predicate ClaimsOk(limits: Limits, claims: map<nat, Claim>, reservations: map<string, nat>,
      serverPending: int) {
    && serverPending == Sum(OpenClaims(claims)) && serverPending <= limits.pending
    && (forall id :: id in reservations ==> ReservedBy(claims, id, reservations[id]))
    && (forall k :: k in claims && claims[k].state == Reserved ==>
          claims[k].id in reservations && reservations[claims[k].id] == k)
  }

  predicate ReservedBy(claims: map<nat, Claim>, id: string, k: nat) {
    k in claims && claims[k].state == Reserved && claims[k].id == id
  }

  predicate ReservedConns(claims: map<nat, Claim>, conns: map<nat, Conn>) {
    forall k :: k in claims && claims[k].state == Reserved ==> NamedConn(conns, claims[k].conn, claims[k].id)
  }

  predicate NamedConn(conns: map<nat, Conn>, c: nat, id: string) {
    c in conns && id != "" && conns[c].id == id
  }

  predicate CurrentOk(p: Pool, id: string)
    requires id in p.clients
  {
    NamedConn(p.conns, p.clients[id], id) && p.conns[p.clients[id]].added && p.clients[id] !in p.retirements
  }

  /** Each generation is not yet added, current, or retired; the client map holds the current ones. */
  predicate ClientsOk(p: Pool) {
    && (forall id :: id in p.clients ==> CurrentOk(p, id))
    && (forall c :: c in p.retirements ==> c in p.conns && p.conns[c].added)
    && (forall c :: c in p.conns && p.conns[c].added ==> c in p.retirements || IsCurrent(p, c))
    && (forall c :: c in p.retiring ==> c in p.retirements)
  }

  /** The counters of one generation are its outstanding leases and sessions, within the limits. */
  ghost predicate CountsOk(limits: Limits, leases: map<nat, Lease>, sessions: map<nat, nat>, c: nat, conn: Conn) {
    && conn.pending == Sum(WaitingOn(leases, c)) && conn.active == Sum(EstablishedOn(leases, c))
    && conn.sessions == Sum(SessionsOn(sessions, c))
    && 0 <= conn.pending <= limits.setups && 0 <= conn.active && conn.pending + conn.active <= limits.tcp
    && 0 <= conn.sessions <= limits.udp
    && (!conn.added ==> conn.pending == 0 && conn.active == 0 && conn.sessions == 0)
  }

  /** The stream register of one generation: its value is that of an opened stream, and every
      stream is held by the lease that opened it. */
  predicate StreamsOk(leases: map<nat, Lease>, c: nat, conn: Conn) {
    && (conn.streamID == 0 || (exists n: nat :: n < |conn.holders| && conn.streamID == StreamId(n)))
    && (conn.marked ==> conn.holders != [])
    && |conn.holders| <= MAX_STREAMS
    && (forall n: nat :: n < |conn.holders| ==> Holder(leases, c, conn.holders[n], n))
  }

  predicate Holder(leases: map<nat, Lease>, c: nat, l: nat, n: nat) {
    l in leases && leases[l].conn == c && !leases[l].stage.NoStream? && leases[l].stage.stream == n
  }

  predicate LeaseOk(conns: map<nat, Conn>, lease: Lease) {
    && lease.conn in conns
    && (!lease.stage.NoStream? ==> lease.stage.stream < |conns[lease.conn].holders|)
    && (lease.stage.Stored? || lease.stage.Recorded? ==> conns[lease.conn].streamID >= StreamId(lease.stage.stream))
    && (lease.stage.Loaded? ==> lease.stage.seen <= conns[lease.conn].streamID)
    && (lease.stage.Recorded? ==> conns[lease.conn].marked)
    && (lease.state != Waiting ==> lease.stage.NoStream? || lease.stage.Recorded?)
  }

  /** A retirement has signalled exactly when no lease is out, once, with the fence; its entry
      is kept until the owner is done and everything is given back. */
  predicate RetirementOk(retiring: set<nat>, c: nat, conn: Conn, r: Retirement) {
    && (c in retiring <==> !(r.done && Drained(conn)))
    && (r.sent <==> conn.pending + conn.active == 0)
    && r.signals == if r.sent then [Fence(conn)] else []
  }

  predicate CachedOk(p: Pool) {
    p.cached.Some? ==> Lists(p.cached.value, p.clients)
  }

  predicate NoRepeats(l: seq<nat>) {
    forall i, j :: 0 <= i < j < |l| ==> l[i] != l[j]
  }

  predicate AdmissionOk(adm: Admission) {
    NoRepeats(adm.candidates) && adm.next <= |adm.candidates| && (!adm.balanced ==> adm.next == 0)
  }

  /** A lease comes from a candidate its admission has passed, and each candidate is lent once. */
  predicate LentOk(admissions: map<nat, Admission>, leases: map<nat, Lease>) {
    && (forall l :: l in leases ==> FromPassed(admissions, leases[l]))
    && (forall l, m :: l in leases && m in leases && l != m && leases[l].admission == leases[m].admission
          ==> leases[l].conn != leases[m].conn)
  }

  predicate FromPassed(admissions: map<nat, Admission>, lease: Lease) {
    lease.admission in admissions && lease.conn in Passed(admissions[lease.admission])
  }

  function Passed(adm: Admission): seq<nat> {
    if adm.next <= |adm.candidates| then adm.candidates[..adm.next] else []
  }

  predicate AdmissionsOk(admissions: map<nat, Admission>) {
    forall a :: a in admissions ==> AdmissionOk(admissions[a])
  }

  ghost predicate ConnsOk(limits: Limits, leases: map<nat, Lease>, sessions: map<nat, nat>, conns: map<nat, Conn>) {
    forall c :: c in conns ==> CountsOk(limits, leases, sessions, c, conns[c]) && StreamsOk(leases, c, conns[c])
  }

  predicate LeasesOk(conns: map<nat, Conn>, leases: map<nat, Lease>) {
    forall l :: l in leases ==> LeaseOk(conns, leases[l])
  }

  predicate SessionsOk(conns: map<nat, Conn>, sessions: map<nat, nat>) {
    forall t :: t in sessions ==> sessions[t] in conns
  }

  predicate RetirementsOk(conns: map<nat, Conn>, retiring: set<nat>, retirements: map<nat, Retirement>) {
    forall c :: c in retirements && c in conns ==> RetirementOk(retiring, c, conns[c], retirements[c])
  }

  /** Counters, streams and leases agree. */
  ghost predicate TrafficOk(p: Pool) {
    && ConnsOk(p.limits, p.leases, p.sessions, p.conns) && LeasesOk(p.conns, p.leases) &&
       SessionsOk(p.conns, p.sessions)
    && LentOk(p.admissions, p.leases) && p.faults == 0
  }

  predicate SignalsOk(p: Pool) {
    RetirementsOk(p.conns, p.retiring, p.retirements)
  }

  /** Names, slots, the cache and the admissions. */
  ghost predicate FrameOk(p: Pool) {
    && ClaimsOk(p.limits, p.claims, p.reservations, p.serverPending) && ReservedConns(p.claims, p.conns)
    && ClientsOk(p) && Generations(p) <= p.limits.generations && CachedOk(p) && AdmissionsOk(p.admissions)
  }

  ghost predicate PoolOk(p: Pool) {
    FrameOk(p) && TrafficOk(p) && SignalsOk(p)
  }

  // ---------------------------------------------------------------------------
  // Steps that keep every generation's identity
  // ---------------------------------------------------------------------------

  predicate SameConns(p: Pool, q: Pool) {
    && p.conns.Keys == q.conns.Keys
    && (forall c :: c in p.conns ==> p.conns[c].id == q.conns[c].id && p.conns[c].added == q.conns[c].added)
  }

  predicate SameSlots(p: Pool, q: Pool) {
    && q.limits == p.limits && q.clients == p.clients && q.reservations == p.reservations && q.claims == p.claims
    && q.serverPending == p.serverPending && q.retirements.Keys == p.retirements.Keys && q.retiring <= p.retiring
  }

  lemma SubsetSize(a: set<nat>, b: set<nat>)
    requires a <= b
    ensures |a| <= |b|
  {
    assert b == a + (b - a);
  }

  lemma ClientsKept(p: Pool, q: Pool)
    requires ClientsOk(p) && SameConns(p, q) && SameSlots(p, q)
    ensures ClientsOk(q)
  {
    forall id | id in q.clients
      ensures CurrentOk(q, id)
    {
      assert CurrentOk(p, id);
    }
  }

  lemma FrameKept(p: Pool, q: Pool)
    requires FrameOk(p) && SameConns(p, q) && SameSlots(p, q) && q.cached == p.cached && AdmissionsOk(q.admissions)
    ensures FrameOk(q)
  {
    SubsetSize(q.retiring, p.retiring);
    ClientsKept(p, q);
    hide ClientsOk;
    hide ClaimsOk;
    hide AdmissionsOk;
    hide Lists;
  }

  // ---------------------------------------------------------------------------
  // A step of one lease
  // ---------------------------------------------------------------------------

  predicate Grows(a: Conn, b: Conn) {
    a.streamID <= b.streamID && (a.marked ==> b.marked) && a.holders <= b.holders
  }

  /** q differs from p in one lease and in the generation it is on. */
  predicate LeaseStep(p: Pool, q: Pool, l: nat, c: nat) {
    && c in p.conns && l in q.leases && c in q.conns && q.leases[l].conn == c
    && (l in p.leases ==> p.leases[l].conn == c)
    && q.leases == p.leases[l := q.leases[l]] && q.conns == p.conns[c := q.conns[c]]
    && q.sessions == p.sessions && q.limits == p.limits && Grows(p.conns[c], q.conns[c])
  }

  lemma OtherCounts(p: Pool, q: Pool, l: nat, c: nat, x: nat)
    requires LeaseStep(p, q, l, c) && x != c && x in p.conns && CountsOk(p.limits, p.leases, p.sessions, x, p.conns[x])
    ensures CountsOk(q.limits, q.leases, q.sessions, x, q.conns[x])
  {
    SetLeaseCounts(p.leases, l, q.leases[l], x);
    hide Sum;
    hide WaitingOn;
    hide EstablishedOn;
  }

  lemma OtherStreams(p: Pool, q: Pool, l: nat, c: nat, x: nat)
    requires LeaseStep(p, q, l, c) && x != c && x in p.conns && StreamsOk(p.leases, x, p.conns[x])
    ensures StreamsOk(q.leases, x, q.conns[x])
  {
    forall n: nat | n < |q.conns[x].holders|
      ensures Holder(q.leases, x, q.conns[x].holders[n], n)
    {
      assert Holder(p.leases, x, p.conns[x].holders[n], n);
    }
  }

  lemma ConnsKept(p: Pool, q: Pool, l: nat, c: nat)
    requires ConnsOk(p.limits, p.leases, p.sessions, p.conns) && LeaseStep(p, q, l, c)
    requires CountsOk(q.limits, q.leases, q.sessions, c, q.conns[c]) && StreamsOk(q.leases, c, q.conns[c])
    ensures ConnsOk(q.limits, q.leases, q.sessions, q.conns)
  {
    hide CountsOk;
    hide StreamsOk;
    forall x | x in q.conns
      ensures CountsOk(q.limits, q.leases, q.sessions, x, q.conns[x]) && StreamsOk(q.leases, x, q.conns[x])
    {
      if x != c {
        OtherCounts(p, q, l, c, x);
        OtherStreams(p, q, l, c, x);
      }
    }
  }

  lemma LeasesKept(p: Pool, q: Pool, l: nat, c: nat)
    requires LeasesOk(p.conns, p.leases) && LeaseStep(p, q, l, c) && LeaseOk(q.conns, q.leases[l])
    ensures LeasesOk(q.conns, q.leases)
  {
    forall m | m in q.leases
      ensures LeaseOk(q.conns, q.leases[m])
    {
      if m != l {
        assert LeaseOk(p.conns, p.leases[m]);
      }
    }
  }

  lemma LentKept(p: Pool, q: Pool, l: nat, c: nat)
    requires LentOk(p.admissions, p.leases) && LeaseStep(p, q, l, c) && q.admissions == p.admissions
    requires l in p.leases && q.leases[l].admission == p.leases[l].admission
    ensures LentOk(q.admissions, q.leases)
  {
    forall m | m in q.leases
      ensures FromPassed(q.admissions, q.leases[m])
    {
      assert FromPassed(p.admissions, p.leases[m]);
    }
  }

  /** While one of its leases is out, a generation has not signalled and is not drained. */
  lemma OutstandingRetirement(p: Pool, q: Pool, l: nat, c: nat)
    requires SignalsOk(p) && LeaseStep(p, q, l, c) && q.retirements == p.retirements && q.retiring == p.retiring
    requires p.conns[c].pending + p.conns[c].active != 0 && q.conns[c].pending + q.conns[c].active != 0
    ensures SignalsOk(q)
  {
    forall x | x in q.retirements && x in q.conns
      ensures RetirementOk(q.retiring, x, q.conns[x], q.retirements[x])
    {
      assert RetirementOk(p.retiring, x, p.conns[x], p.retirements[x]);
    }
  }
}

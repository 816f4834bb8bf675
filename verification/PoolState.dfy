/** The server's connection pool: reservations, current and retiring generations, TCP
    admissions and leases, UDP sessions. Each critical section is one function. */
module PoolState {
  import opened Basics

  datatype Limits = Limits(generations: nat, pending: nat, tcp: nat, setups: nat, udp: nat)

  /** One generation. `holders` lists, in stream order, the leases that opened its streams;
      stream n has identifier 4n + 1. */
  datatype Conn = Conn(
    id: string, tcp: bool, udp: bool,
    pending: int, active: int, sessions: int,
    streamID: int, marked: bool, holders: seq<nat>,
    healthy: bool, added: bool)

  datatype ClaimState = Pending | Reserved | Committed | Aborted

  datatype Claim = Claim(state: ClaimState, conn: nat, id: string)

  datatype LeaseState = Waiting | Established | Released

  /** How far opening and recording a stream has come; recording is lock-free. */
  datatype Stage =
    | NoStream
    | Opened(stream: nat)
    | Loaded(stream: nat, seen: int)
    | Stored(stream: nat)
    | Recorded(stream: nat)

  datatype Lease = Lease(conn: nat, admission: nat, state: LeaseState, stage: Stage)

  /** `signals` is everything ever sent on the drained channel. */
  datatype Retirement = Retirement(done: bool, sent: bool, signals: seq<int>)

  datatype Admission = Admission(candidates: seq<nat>, next: nat, balanced: bool, failed: bool)

  datatype Pool = Pool(
    limits: Limits,
    conns: map<nat, Conn>, clients: map<string, nat>, reservations: map<string, nat>,
    retiring: set<nat>, retirements: map<nat, Retirement>,
    serverPending: int, faults: nat, cached: Option<seq<nat>>,
    claims: map<nat, Claim>, leases: map<nat, Lease>, sessions: map<nat, nat>, admissions: map<nat, Admission>)

  function NewPool(limits: Limits): Pool {
    Pool(limits, map[], map[], map[], {}, map[], 0, 0, None, map[], map[], map[], map[])
  }

  /** RFC 9000 section 2.1: server-initiated bidirectional streams, in order. */
  function StreamId(n: nat): int { 4 * n + 1 }

  /** RFC 9000 sections 4.6 and 16: at most 2^60 streams, identifiers below 2^62. */
  const MAX_STREAMS: nat := 0x1000_0000_0000_0000
  const VARINT_MAX: int := 0x3fff_ffff_ffff_ffff

  predicate ValidFence(fence: int) {
    fence == -1 || (1 <= fence <= VARINT_MAX && fence % 4 == 1)
  }

  predicate IsCurrent(p: Pool, c: nat) {
    c in p.conns && p.conns[c].id != "" && p.conns[c].id in p.clients && p.clients[p.conns[c].id] == c
  }

  function Generations(p: Pool): nat {
    |p.reservations| + |p.clients| + |p.retiring|
  }

  function SetConn(p: Pool, c: nat, conn: Conn): Pool {
    p.(conns := p.conns[c := conn])
  }

  // ---------------------------------------------------------------------------
  // Registration
  // ---------------------------------------------------------------------------

  function NewConn(p: Pool, c: nat, id: string, tcp: bool, udp: bool): Pool {
    if c in p.conns then p
    else SetConn(p, c, Conn(id, tcp, udp, 0, 0, 0, 0, false, [], false, false))
  }

  predicate MayBegin(p: Pool) {
    p.faults == 0 && p.serverPending < p.limits.pending
  }

  function BeginPending(p: Pool, k: nat): Pool {
    if k in p.claims || !MayBegin(p) then p
    else p.(serverPending := p.serverPending + 1, claims := p.claims[k := Claim(Pending, 0, "")])
  }

  predicate MayReserve(p: Pool, k: nat, c: nat) {
    && k in p.claims && c in p.conns && p.conns[c].id != ""
    && p.claims[k].state == Pending && p.faults == 0
    && p.conns[c].id !in p.clients && p.conns[c].id !in p.reservations
    && !p.conns[c].added && Generations(p) < p.limits.generations
  }

  function Reserve(p: Pool, k: nat, c: nat): Pool {
    if !MayReserve(p, k, c) then p
    else p.(claims := p.claims[k := Claim(Reserved, c, p.conns[c].id)],
            reservations := p.reservations[p.conns[c].id := k])
  }

  predicate MayCommit(p: Pool, k: nat) {
    && k in p.claims && p.claims[k].state == Reserved
    && p.claims[k].id in p.reservations && p.reservations[p.claims[k].id] == k
    && p.faults == 0 && p.claims[k].conn in p.conns
    && p.claims[k].id !in p.clients && !p.conns[p.claims[k].conn].added
  }

  function Commit(p: Pool, k: nat): Pool {
    if !MayCommit(p, k) then p
    else
      var claim := p.claims[k];
      p.(conns := p.conns[claim.conn := p.conns[claim.conn].(added := true, healthy := true)],
         clients := p.clients[claim.id := claim.conn], reservations := p.reservations - {claim.id},
         serverPending := p.serverPending - 1, claims := p.claims[k := claim.(state := Committed)], cached := None)
  }

  predicate MayAbort(p: Pool, k: nat) {
    && k in p.claims
    && (p.claims[k].state == Pending ||
        (p.claims[k].state == Reserved && p.claims[k].id in p.reservations && p.reservations[p.claims[k].id] == k))
  }

  function Abort(p: Pool, k: nat): Pool {
    if !MayAbort(p, k) then p
    else
      var claim := p.claims[k];
      p.(reservations := if claim.state == Reserved then p.reservations - {claim.id} else p.reservations,
         serverPending := p.serverPending - 1, claims := p.claims[k := claim.(state := Aborted)])
  }

  // ---------------------------------------------------------------------------
  // Retirement
  // ---------------------------------------------------------------------------

  /** The accept fence: the highest recorded stream, or -1. */
  function Fence(conn: Conn): int {
    if conn.marked then conn.streamID else -1
  }

  /** A retirement signals when no lease is out, at most once. */
  function Signalled(conn: Conn, r: Retirement): Retirement {
    if r.sent || conn.pending + conn.active != 0 then r
    else r.(sent := true, signals := r.signals + [Fence(conn)])
  }

  predicate IsRetiring(p: Pool, c: nat) {
    c in p.retiring && c in p.retirements && c in p.conns
  }

  function Signal(p: Pool, c: nat): Pool {
    if !IsRetiring(p, c) then p
    else p.(retirements := p.retirements[c := Signalled(p.conns[c], p.retirements[c])])
  }

  predicate Drained(conn: Conn) {
    conn.pending == 0 && conn.active == 0 && conn.sessions == 0
  }

  function Finalize(p: Pool, c: nat): Pool {
    if IsRetiring(p, c) && p.retirements[c].done && Drained(p.conns[c]) then p.(retiring := p.retiring - {c}) else p
  }

  function BeginRetire(p: Pool, c: nat): Pool {
    if !IsCurrent(p, c) then p
    else
      var conn := p.conns[c];
      Signal(p.(conns := p.conns[c := conn.(healthy := false)], clients := p.clients - {conn.id},
                retirements := p.retirements[c := Retirement(false, false, [])], retiring := p.retiring + {c},
                cached := None), c)
  }

  predicate MayFinish(p: Pool, c: nat) {
    c in p.retirements && c in p.retiring && !p.retirements[c].done
  }

  function RetireDone(p: Pool, c: nat): Pool {
    if !MayFinish(p, c) then p
    else Finalize(p.(retirements := p.retirements[c := p.retirements[c].(done := true)]), c)
  }

  function MarkHealth(p: Pool, c: nat, healthy: bool): Pool {
    if !IsCurrent(p, c) then p
    else SetConn(p, c, p.conns[c].(healthy := healthy)).(cached := None)
  }

  // ---------------------------------------------------------------------------
  // UDP sessions
  // ---------------------------------------------------------------------------

  predicate TakesUDP(p: Pool, c: nat) {
    IsCurrent(p, c) && p.conns[c].healthy && p.conns[c].udp && p.conns[c].sessions < p.limits.udp
  }

  function ReserveUDP(p: Pool, token: nat, c: nat): Pool {
    if token in p.sessions || p.faults != 0 || !TakesUDP(p, c) then p
    else SetConn(p, c, p.conns[c].(sessions := p.conns[c].sessions + 1)).(sessions := p.sessions[token := c])
  }

  /** Each session gives its reservation back once. */
  function ReleaseUDP(p: Pool, token: nat): Pool {
    if token !in p.sessions || p.sessions[token] !in p.conns then p
    else
      var c := p.sessions[token];
      if p.conns[c].sessions <= 0 then p.(faults := p.faults + 1)
      else Finalize(SetConn(p, c,
                            p.conns[c].(sessions := p.conns[c].sessions - 1)).(sessions := p.sessions - {token}), c)
  }

  // ---------------------------------------------------------------------------
  // TCP admission
  // ---------------------------------------------------------------------------

  predicate TakesTCP(p: Pool, c: nat) {
    c in p.conns && p.conns[c].healthy && p.conns[c].tcp
  }

  function Filter(l: seq<nat>, keep: nat -> bool): (r: seq<nat>)
    ensures forall x :: x in r <==> x in l && keep(x)
    ensures |r| <= |l|
  {
    if l == [] then [] else (if keep(l[0]) then [l[0]] else []) + Filter(l[1..], keep)
  }

  /** A listing of the current generations, each once. */
  predicate Lists(l: seq<nat>, clients: map<string, nat>) {
    && (forall i, j :: 0 <= i < j < |l| ==> l[i] != l[j])
    && (forall i :: 0 <= i < |l| ==> l[i] in clients.Values)
    && (forall id :: id in clients ==> clients[id] in l)
  }

  /** clientSliceLocked; `order` is the iteration order of the map. */
  function Slice(p: Pool, order: seq<nat>): seq<nat> {
    if p.cached.Some? then p.cached.value else order
  }

  function BeginAdmission(p: Pool, a: nat, order: seq<nat>): (q: Pool)
    ensures q.limits == p.limits
  {
    if a in p.admissions || p.faults != 0 || p.clients == map[] || !Lists(order, p.clients) then p
    else
      var slice := Slice(p, order);
      var candidates := Filter(slice, (c: nat) => TakesTCP(p, c));
      var cached := p.(cached := Some(slice));
      if candidates == [] then cached
      else cached.(admissions := p.admissions[a := Admission(candidates, 0, false, false)])
  }

  predicate HasRoom(p: Pool, c: nat) {
    && c in p.conns && p.conns[c].pending + p.conns[c].active < p.limits.tcp && p.conns[c].pending < p.limits.setups
  }

  predicate Leasable(p: Pool, c: nat) {
    IsCurrent(p, c) && TakesTCP(p, c) && HasRoom(p, c)
  }

  function IndexOf(l: seq<nat>, x: nat): (i: nat)
    ensures i <= |l| && (i < |l| ==> l[i] == x) && (x in l ==> i < |l|)
  {
    if l == [] || l[0] == x then 0 else 1 + IndexOf(l[1..], x)
  }

  function Swap(l: seq<nat>, i: nat): seq<nat>
    requires i < |l|
  {
    l[0 := l[i]][i := l[0]]
  }

  /** The balancer runs once; what it picks moves to the front. */
  function Balance(p: Pool, adm: Admission, pick: nat): Admission {
    if adm.balanced then adm
    else
      var eligible := Filter(adm.candidates, (c: nat) => Leasable(p, c));
      var index := IndexOf(adm.candidates, pick);
      if eligible == [] then adm.(balanced := true)
      else if pick in eligible && index < |adm.candidates|
      then adm.(balanced := true, candidates := Swap(adm.candidates, index))
      else adm.(balanced := true, failed := true)
  }

  function Scan(p: Pool, candidates: seq<nat>, i: nat): (k: nat)
    requires i <= |candidates|
    ensures i <= k <= |candidates| && (k < |candidates| ==> Leasable(p, candidates[k]))
    decreases |candidates| - i
  {
    if i == |candidates| || Leasable(p, candidates[i]) then i else Scan(p, candidates, i + 1)
  }

  function Lend(p: Pool, a: nat, l: nat, c: nat): Pool
    requires c in p.conns
  {
    SetConn(p, c, p.conns[c].(pending := p.conns[c].pending + 1))
      .(leases := p.leases[l := Lease(c, a, Waiting, NoStream)])
  }

  function Next(p: Pool, a: nat, l: nat, pick: nat): (q: Pool)
    ensures q.limits == p.limits
  {
    if a !in p.admissions || l in p.leases || p.faults != 0 then p
    else
      var adm := Balance(p, p.admissions[a], pick);
      if adm.failed || adm.next > |adm.candidates| then p.(admissions := p.admissions[a := adm])
      else
        var k := Scan(p, adm.candidates, adm.next);
        if k == |adm.candidates| then p.(admissions := p.admissions[a := adm.(next := k)])
        else Lend(p.(admissions := p.admissions[a := adm.(next := k + 1)]), a, l, adm.candidates[k])
  }

  // ---------------------------------------------------------------------------
  // Leases: the stream is opened and recorded before the lease is committed or released
  // ---------------------------------------------------------------------------

  function SetLease(p: Pool, l: nat, lease: Lease): Pool {
    p.(leases := p.leases[l := lease])
  }

  predicate Holds(p: Pool, l: nat) {
    l in p.leases && p.leases[l].conn in p.conns
  }

  function OpenStream(p: Pool, l: nat): Pool {
    if !Holds(p, l) || p.leases[l].state != Waiting || p.leases[l].stage != NoStream then p
    else
      var lease := p.leases[l];
      var conn := p.conns[lease.conn];
      if |conn.holders| >= MAX_STREAMS then p
      else SetConn(SetLease(p, l, lease.(stage := Opened(|conn.holders|))), lease.conn,
                   conn.(holders := conn.holders + [l]))
  }

  /** One iteration of the compare-and-swap loop of RecordStream, in two steps. */
  function LoadHigh(p: Pool, l: nat): Pool {
    if !Holds(p, l) || !p.leases[l].stage.Opened? then p
    else SetLease(p, l, p.leases[l].(stage := Loaded(p.leases[l].stage.stream, p.conns[p.leases[l].conn].streamID)))
  }

  function SwapHigh(p: Pool, l: nat): Pool {
    if !Holds(p, l) || !p.leases[l].stage.Loaded? then p
    else
      var lease := p.leases[l];
      var n := lease.stage.stream;
      var conn := p.conns[lease.conn];
      var swapped := StreamId(n) > lease.stage.seen && conn.streamID == lease.stage.seen;
      var stage := if swapped || StreamId(n) <= lease.stage.seen then Stored(n) else Opened(n);
      SetConn(SetLease(p, l, lease.(stage := stage)), lease.conn,
              if swapped then conn.(streamID := StreamId(n)) else conn)
  }

  function MarkOpened(p: Pool, l: nat): Pool {
    if !Holds(p, l) || !p.leases[l].stage.Stored? then p
    else
      var lease := p.leases[l];
      SetConn(SetLease(p, l, lease.(stage := Recorded(lease.stage.stream))), lease.conn,
              p.conns[lease.conn].(marked := true))
  }

  function CommitLease(p: Pool, l: nat): Pool {
    if !Holds(p, l) || p.leases[l].state != Waiting || !p.leases[l].stage.Recorded? then p
    else
      var lease := p.leases[l];
      var conn := p.conns[lease.conn];
      SetConn(SetLease(p, l, lease.(state := Established)), lease.conn,
              conn.(active := conn.active + 1, pending := conn.pending - 1))
  }

  predicate MayRelease(p: Pool, l: nat) {
    Holds(p, l) && p.leases[l].state != Released && (p.leases[l].stage.NoStream? || p.leases[l].stage.Recorded?)
  }

  function GiveBack(p: Pool, l: nat): Pool
    requires Holds(p, l)
  {
    var lease := p.leases[l];
    var conn := p.conns[lease.conn];
    SetConn(SetLease(p, l, lease.(state := Released)), lease.conn,
            if lease.state == Waiting then conn.(pending := conn.pending - 1) else conn.(active := conn.active - 1))
  }

  function ReleaseLease(p: Pool, l: nat): Pool {
    if !MayRelease(p, l) then p
    else Finalize(Signal(GiveBack(p, l), p.leases[l].conn), p.leases[l].conn)
  }

  // ---------------------------------------------------------------------------
  // Runs
  // ---------------------------------------------------------------------------

  datatype Action =
    | DoNewConn(conn: nat, id: string, tcp: bool, udp: bool)
    | DoBeginPending(claim: nat)
    | DoReserve(claim: nat, conn: nat)
    | DoCommit(claim: nat)
    | DoAbort(claim: nat)
    | DoBeginRetire(conn: nat)
    | DoRetireDone(conn: nat)
    | DoMarkHealth(conn: nat, healthy: bool)
    | DoReserveUDP(session: nat, conn: nat)
    | DoReleaseUDP(session: nat)
    | DoBeginAdmission(admission: nat, order: seq<nat>)
    | DoNext(admission: nat, lease: nat, pick: nat)
    | DoOpenStream(lease: nat)
    | DoLoadHigh(lease: nat)
    | DoSwapHigh(lease: nat)
    | DoMarkOpened(lease: nat)
    | DoCommitLease(lease: nat)
    | DoReleaseLease(lease: nat)

  function Do(p: Pool, a: Action): Pool {
    match a
    case DoNewConn(c, id, tcp, udp) => NewConn(p, c, id, tcp, udp)
    case DoBeginPending(k) => BeginPending(p, k)
    case DoReserve(k, c) => Reserve(p, k, c)
    case DoCommit(k) => Commit(p, k)
    case DoAbort(k) => Abort(p, k)
    case DoBeginRetire(c) => BeginRetire(p, c)
    case DoRetireDone(c) => RetireDone(p, c)
    case DoMarkHealth(c, healthy) => MarkHealth(p, c, healthy)
    case DoReserveUDP(token, c) => ReserveUDP(p, token, c)
    case DoReleaseUDP(token) => ReleaseUDP(p, token)
    case DoBeginAdmission(a, order) => BeginAdmission(p, a, order)
    case DoNext(a, l, pick) => Next(p, a, l, pick)
    case DoOpenStream(l) => OpenStream(p, l)
    case DoLoadHigh(l) => LoadHigh(p, l)
    case DoSwapHigh(l) => SwapHigh(p, l)
    case DoMarkOpened(l) => MarkOpened(p, l)
    case DoCommitLease(l) => CommitLease(p, l)
    case DoReleaseLease(l) => ReleaseLease(p, l)
  }

  function Run(limits: Limits, actions: seq<Action>): Pool {
    if actions == [] then NewPool(limits) else Do(Run(limits, actions[..|actions| - 1]), actions[|actions| - 1])
  }
}

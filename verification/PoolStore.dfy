/** The pool object: its critical sections, proved against the functions of PoolState. */
module PoolStore {
  import opened Basics
  import opened PoolState
  import Spec = PoolState
  import opened PoolProof

  datatype NextResult = Lent(lease: nat) | Exhausted | ConnectionCapacity | SetupCapacity | Refused

  /** What Next reports when no candidate from i on can be lent. */
  function Blocked(p: Pool, candidates: seq<nat>, i: nat, tcpFull: bool, setupFull: bool): NextResult
    decreases |candidates| - i
  {
    if i >= |candidates| then if tcpFull then ConnectionCapacity else if setupFull then SetupCapacity else Exhausted
    else
      var c := candidates[i];
      if !IsCurrent(p, c) || !TakesTCP(p, c) then Blocked(p, candidates, i + 1, tcpFull, setupFull)
      else if p.conns[c].pending + p.conns[c].active >= p.limits.tcp then Blocked(p, candidates, i + 1, true, setupFull)
      else Blocked(p, candidates, i + 1, tcpFull, true)
  }

  predicate HasUDPRoom(p: Pool, c: nat) {
    c in p.conns && p.conns[c].healthy && p.conns[c].udp && p.conns[c].sessions < p.limits.udp
  }

  lemma ListedIsCurrent(p: Pool, order: seq<nat>, c: nat)
    requires Lists(order, p.clients) && ClientsOk(p)
    ensures c in order <==> IsCurrent(p, c)
  {
    if c in order {
      var id :| id in p.clients && p.clients[id] == c;
      assert CurrentOk(p, id);
    }
  }

  class ConnectionPool {
    const limits: Limits
    var conns: map<nat, Conn>
    var clients: map<string, nat>
    var reservations: map<string, nat>
    var retiring: set<nat>
    var retirements: map<nat, Retirement>
    var serverPending: int
    var faults: nat
    var cached: Option<seq<nat>>
    var claims: map<nat, Claim>
    var leases: map<nat, Lease>
    var sessions: map<nat, nat>
    var admissions: map<nat, Admission>

    constructor (limits: Limits)
      ensures View() == NewPool(limits)
    {
      this.limits := limits;
      conns, clients, reservations, retiring, retirements := map[], map[], map[], {}, map[];
      serverPending, faults, cached := 0, 0, None;
      claims, leases, sessions, admissions := map[], map[], map[], map[];
    }

    function View(): Pool
      reads this
    {
      Pool(limits, conns, clients, reservations, retiring, retirements, serverPending, faults, cached,
           claims, leases, sessions, admissions)
    }

    method BeginPending(k: nat) returns (ok: bool)
      requires k !in claims
      modifies this
      ensures View() == Spec.BeginPending(old(View()), k) && ok == MayBegin(old(View()))
    {
      ok := faults == 0 && serverPending < limits.pending;
      if ok {
        serverPending, claims := serverPending + 1, claims[k := Claim(Pending, 0, "")];
      }
    }

    method Reserve(k: nat, c: nat) returns (ok: bool)
      requires k in claims && c in conns
      modifies this
      ensures View() == Spec.Reserve(old(View()), k, c) && ok == MayReserve(old(View()), k, c)
    {
      var id := conns[c].id;
      ok := false;
      if id == "" || claims[k].state != Pending || faults != 0 || id in clients || id in reservations ||
         conns[c].added {
        return;
      }
      if |reservations| + |clients| + |retiring| >= limits.generations {
        return;
      }
      claims, reservations := claims[k := Claim(Reserved, c, id)], reservations[id := k];
      ok := true;
    }

    /** The checks of Commit. */
    method CheckCommit(k: nat) returns (ok: bool)
      ensures ok == MayCommit(View(), k)
    {
      if k !in claims || claims[k].state != Reserved {
        return false;
      }
      var claim := claims[k];
      if claim.id !in reservations || reservations[claim.id] != k || faults != 0 {
        return false;
      }
      return claim.conn in conns && claim.id !in clients && !conns[claim.conn].added;
    }

    method Commit(k: nat) returns (ok: bool)
      modifies this`conns, this`clients, this`reservations, this`serverPending, this`claims, this`cached
      ensures View() == Spec.Commit(old(View()), k) && ok == MayCommit(old(View()), k)
    {
      ok := CheckCommit(k);
      if ok {
        var claim := claims[k];
        var conn := conns[claim.conn];
        conns, clients, reservations, serverPending, claims, cached :=
          conns[claim.conn := conn.(added := true, healthy := true)], clients[claim.id := claim.conn],
          reservations - {claim.id}, serverPending - 1, claims[k := claim.(state := Committed)], None;
      }
    }

    method Abort(k: nat) returns (ok: bool)
      modifies this
      ensures View() == Spec.Abort(old(View()), k) && ok == MayAbort(old(View()), k)
    {
      if k !in claims || (claims[k].state != Pending && claims[k].state != Reserved) {
        return false;
      }
      if claims[k].state == Reserved {
        if !(claims[k].id in reservations && reservations[claims[k].id] == k) {
          return false;
        }
        reservations := reservations - {claims[k].id};
      }
      serverPending, claims := serverPending - 1, claims[k := claims[k].(state := Aborted)];
      return true;
    }

    method SignalDrained(c: nat)
      modifies this`retirements
      ensures View() == Signal(old(View()), c)
    {
      if c !in retiring || c !in retirements || c !in conns || retirements[c].sent
         || conns[c].pending + conns[c].active != 0 {
        assert c in retirements ==> retirements == retirements[c := retirements[c]];
        return;
      }
      var fence := -1;
      if conns[c].marked {
        fence := conns[c].streamID;
      }
      retirements := retirements[c := retirements[c].(sent := true, signals := retirements[c].signals + [fence])];
    }

    method FinalizeRetirement(c: nat)
      modifies this`retiring
      ensures View() == Finalize(old(View()), c)
    {
      if c in retiring && c in retirements && c in conns && retirements[c].done
         && conns[c].pending == 0 && conns[c].active == 0 && conns[c].sessions == 0 {
        retiring := retiring - {c};
      }
    }

    method BeginRetire(c: nat) returns (ok: bool)
      modifies this`conns, this`clients, this`retirements, this`retiring, this`cached
      ensures View() == Spec.BeginRetire(old(View()), c) && ok == IsCurrent(old(View()), c)
    {
      ok := c in conns && conns[c].id != "" && conns[c].id in clients && clients[conns[c].id] == c;
      if ok {
        var conn := conns[c];
        conns, clients := conns[c := conn.(healthy := false)], clients - {conn.id};
        retirements, retiring, cached := retirements[c := Retirement(false, false, [])], retiring + {c}, None;
        SignalDrained(c);
      }
    }

    method Done(c: nat) returns (ok: bool)
      modifies this
      ensures View() == RetireDone(old(View()), c) && ok == MayFinish(old(View()), c)
    {
      ok := c in retirements && c in retiring && !retirements[c].done;
      if ok {
        retirements := retirements[c := retirements[c].(done := true)];
        FinalizeRetirement(c);
      }
    }

    method MarkHealth(c: nat, healthy: bool) returns (ok: bool)
      modifies this
      ensures View() == Spec.MarkHealth(old(View()), c, healthy) && ok == IsCurrent(old(View()), c)
    {
      ok := c in conns && conns[c].id != "" && conns[c].id in clients && clients[conns[c].id] == c;
      if ok {
        conns, cached := conns[c := conns[c].(healthy := healthy)], None;
      }
    }

    method KeepUDP(order: seq<nat>) returns (eligible: seq<nat>)
      ensures forall c :: c in eligible <==> c in order && HasUDPRoom(View(), c)
    {
      eligible := [];
      for i := 0 to |order|
        invariant forall c :: c in eligible <==> c in order[..i] && HasUDPRoom(View(), c)
      {
        var c := order[i];
        assert order[..i + 1] == order[..i] + [c];
        if c in conns && conns[c].healthy && conns[c].udp && conns[c].sessions < limits.udp {
          eligible := eligible + [c];
        }
      }
      assert order[..|order|] == order;
    }

    /** `order` is the iteration order of the client map, `pick` the balancer's choice. */
    method ReserveUDP(token: nat, order: seq<nat>, pick: nat) returns (ok: bool)
      requires token !in sessions && Lists(order, clients) && ClientsOk(View())
      modifies this
      ensures View() == Spec.ReserveUDP(old(View()), token, pick)
      ensures ok == (old(faults) == 0 && TakesUDP(old(View()), pick))
    {
      hide ClientsOk;
      hide Lists;
      ListedIsCurrent(View(), order, pick);
      if faults != 0 {
        return false;
      }
      var eligible := KeepUDP(order);
      if pick !in eligible {
        return false;
      }
      conns, sessions := conns[pick := conns[pick].(sessions := conns[pick].sessions + 1)], sessions[token := pick];
      return true;
    }

    method ReleaseUDP(token: nat) returns (ok: bool)
      requires token in sessions && sessions[token] in conns
      modifies this
      ensures View() == Spec.ReleaseUDP(old(View()), token) && ok == (old(conns[sessions[token]].sessions) > 0)
    {
      var c := sessions[token];
      if conns[c].sessions <= 0 {
        faults := faults + 1;
        return false;
      }
      conns, sessions := conns[c := conns[c].(sessions := conns[c].sessions - 1)], sessions - {token};
      FinalizeRetirement(c);
      return true;
    }

    method KeepTCP(slice: seq<nat>) returns (candidates: seq<nat>)
      ensures var p := View(); candidates == Filter(slice, (c: nat) => TakesTCP(p, c))
    {
      var p := View();
      ghost var keep := (c: nat) => TakesTCP(p, c);
      hide Filter;
      candidates := [];
      var i := 0;
      FilterEmpty(keep);
      while i < |slice|
        invariant i <= |slice| && candidates == Filter(slice[..i], keep)
      {
        FilterSnoc(slice[..i], slice[i], keep);
        assert slice[..i + 1] == slice[..i] + [slice[i]];
        if TakesTCP(p, slice[i]) {
          candidates := candidates + [slice[i]];
        }
        i := i + 1;
      }
      assert slice[..i] == slice;
    }

    method KeepLeasable(slice: seq<nat>) returns (eligible: seq<nat>)
      ensures var p := View(); eligible == Filter(slice, (c: nat) => Leasable(p, c))
    {
      var p := View();
      ghost var keep := (c: nat) => Leasable(p, c);
      hide Filter;
      hide Leasable;
      eligible := [];
      var i := 0;
      FilterEmpty(keep);
      while i < |slice|
        invariant i <= |slice| && eligible == Filter(slice[..i], keep)
      {
        FilterSnoc(slice[..i], slice[i], keep);
        assert slice[..i + 1] == slice[..i] + [slice[i]];
        if Leasable(p, slice[i]) {
          eligible := eligible + [slice[i]];
        }
        i := i + 1;
      }
      assert slice[..i] == slice;
    }

    method BeginTCPAdmission(a: nat, order: seq<nat>) returns (ok: bool)
      requires a !in admissions && Lists(order, clients)
      modifies this
      ensures View() == BeginAdmission(old(View()), a, order)
      ensures ok == (a in admissions)
    {
      hide Filter;
      if faults != 0 || clients == map[] {
        return false;
      }
      var slice := if cached.Some? then cached.value else order;
      var candidates := KeepTCP(slice);
      cached := Some(slice);
      if candidates == [] {
        return false;
      }
      admissions := admissions[a := Admission(candidates, 0, false, false)];
      return true;
    }

    /** The balancer's part of Next. */
    method BalanceOnce(adm: Admission, pick: nat) returns (next: Admission)
      ensures next == Balance(View(), adm, pick)
    {
      hide Filter;
      hide IndexOf;
      next := adm;
      if !adm.balanced {
        next := adm.(balanced := true);
        var eligible := KeepLeasable(adm.candidates);
        if eligible != [] {
          var index := IndexOf(adm.candidates, pick);
          if pick in eligible && index < |adm.candidates| {
            next := next.(candidates := adm.candidates[0 := adm.candidates[index]][index := adm.candidates[0]]);
          } else {
            next := next.(failed := true);
          }
        }
      }
    }

    /** The candidate loop of Next. */
    method FindLeasable(candidates: seq<nat>, from: nat) returns (k: nat, blocked: NextResult)
      requires from <= |candidates|
      ensures k == Scan(View(), candidates, from)
      ensures k == |candidates| ==> blocked == Blocked(View(), candidates, from, false, false)
    {
      k := from;
      var tcpFull, setupFull := false, false;
      while k < |candidates| && !Leasable(View(), candidates[k])
        invariant from <= k <= |candidates|
        invariant Scan(View(), candidates, from) == Scan(View(), candidates, k)
        invariant Blocked(View(), candidates, from, false, false) == Blocked(View(), candidates, k, tcpFull, setupFull)
      {
        var c := candidates[k];
        if IsCurrent(View(), c) && TakesTCP(View(), c) {
          if conns[c].pending + conns[c].active >= limits.tcp {
            tcpFull := true;
          } else {
            setupFull := true;
          }
        }
        k := k + 1;
      }
      blocked := if tcpFull then ConnectionCapacity else if setupFull then SetupCapacity else Exhausted;
    }

    method NextLease(a: nat, l: nat, pick: nat) returns (result: NextResult)
      requires a in admissions && l !in leases && admissions[a].next <= |admissions[a].candidates|
      modifies this
      ensures View() == Next(old(View()), a, l, pick)
      ensures (result == Lent(l) <==> l in leases) && (result.Lent? ==> result.lease == l)
      ensures !result.Lent? && !result.Refused? ==>
                var adm := Balance(old(View()), old(admissions[a]), pick);
                result == Blocked(old(View()), adm.candidates, adm.next, false, false)
    {
      hide Balance;
      hide Scan;
      hide Blocked;
      hide Leasable;
      if faults != 0 {
        return Refused;
      }
      var adm := BalanceOnce(admissions[a], pick);
      BalanceKeepsLength(View(), admissions[a], pick);
      if adm.failed {
        admissions := admissions[a := adm];
        return Refused;
      }
      var k, blocked := FindLeasable(adm.candidates, adm.next);
      if k == |adm.candidates| {
        BlockedVerdict(View(), adm.candidates, adm.next, false, false);
        admissions := admissions[a := adm.(next := k)];
        return blocked;
      }
      var c := adm.candidates[k];
      LeasableKnown(View(), c);
      admissions := admissions[a := adm.(next := k + 1)];
      conns := conns[c := conns[c].(pending := conns[c].pending + 1)];
      leases := leases[l := Lease(c, a, Waiting, NoStream)];
      return Lent(l);
    }

    /** RecordStream with nobody racing: the register becomes the maximum. */
    method RecordStream(l: nat)
      requires l in leases && leases[l].conn in conns && leases[l].stage.Opened?
      modifies this`conns, this`leases
      ensures View() == MarkOpened(SwapHigh(LoadHigh(old(View()), l), l), l)
      ensures var c := old(leases[l].conn);
              var id := StreamId(old(leases[l].stage.stream));
              conns[c].streamID == (if id > old(conns[c].streamID) then id else old(conns[c].streamID)) &&
                  conns[c].marked
    {
      var lease := leases[l];
      var c, n := lease.conn, lease.stage.stream;
      if StreamId(n) > conns[c].streamID {
        conns := conns[c := conns[c].(streamID := StreamId(n))];
      }
      conns, leases := conns[c := conns[c].(marked := true)], leases[l := lease.(stage := Recorded(n))];
    }

    method CommitLease(l: nat) returns (ok: bool)
      requires l in leases && leases[l].conn in conns && leases[l].stage.Recorded?
      modifies this
      ensures View() == Spec.CommitLease(old(View()), l) && ok == (old(leases[l].state) == Waiting)
    {
      var lease := leases[l];
      if lease.state != Waiting {
        return false;
      }
      var conn := conns[lease.conn];
      conns := conns[lease.conn := conn.(active := conn.active + 1, pending := conn.pending - 1)];
      leases := leases[l := lease.(state := Established)];
      return true;
    }

    method Release(l: nat) returns (ok: bool)
      requires l in leases && leases[l].conn in conns && (leases[l].stage.NoStream? || leases[l].stage.Recorded?)
      modifies this
      ensures View() == ReleaseLease(old(View()), l) && ok == (old(leases[l].state) != Released)
    {
      hide Signal;
      hide Finalize;
      var lease := leases[l];
      var conn := conns[lease.conn];
      match lease.state {
        case Waiting => conns := conns[lease.conn := conn.(pending := conn.pending - 1)];
        case Established => conns := conns[lease.conn := conn.(active := conn.active - 1)];
        case Released => return false;
      }
      leases := leases[l := lease.(state := Released)];
      SignalDrained(lease.conn);
      FinalizeRetirement(lease.conn);
      return true;
    }
  }

  lemma FilterEmpty(keep: nat -> bool)
    ensures Filter([], keep) == []
  {
  }

  lemma {:induction false} FilterSnoc(l: seq<nat>, x: nat, keep: nat -> bool)
    ensures Filter(l + [x], keep) == Filter(l, keep) + if keep(x) then [x] else []
  {
    if l == [] {
      assert [x][1..] == [];
    } else {
      assert (l + [x])[1..] == l[1..] + [x];
      FilterSnoc(l[1..], x, keep);
    }
  }

  lemma BalanceKeepsLength(p: Pool, adm: Admission, pick: nat)
    ensures |Balance(p, adm, pick).candidates| == |adm.candidates| && Balance(p, adm, pick).next == adm.next
  {
  }

  lemma LeasableKnown(p: Pool, c: nat)
    requires Leasable(p, c)
    ensures c in p.conns
  {
  }

  lemma {:induction false} BlockedVerdict(p: Pool, candidates: seq<nat>, i: nat, tcpFull: bool, setupFull: bool)
    ensures !Blocked(p, candidates, i, tcpFull, setupFull).Lent? &&
            !Blocked(p, candidates, i, tcpFull, setupFull).Refused?
    decreases |candidates| - i
  {
    if i < |candidates| {
      BlockedVerdict(p, candidates, i + 1, tcpFull, setupFull);
      BlockedVerdict(p, candidates, i + 1, true, setupFull);
      BlockedVerdict(p, candidates, i + 1, tcpFull, true);
    }
  }
}

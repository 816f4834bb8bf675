/** Conservation of source slots and generation leases under every interleaving. */
module LeasesProof {
  import opened Basics
  import opened MapSum
  import opened Leases

  // ---------------------------------------------------------------------------
  // Counting
  // ---------------------------------------------------------------------------

  ghost function FlowsOn(flows: map<nat, Flow>, s: nat): map<nat, int> {
    map f | f in flows :: One(flows[f].source == s && !flows[f].released)
  }

  ghost function RequestsOn(requests: map<nat, Request>, s: nat): map<nat, int> {
    map q | q in requests :: One(requests[q].source == s && !requests[q].released)
  }

  /** A setup holds its slot until it is released, or claimed and then settled. */
  predicate HoldsSlot(u: Setup) {
    !u.claimed || u.settling
  }

  ghost function SetupsOn(setups: map<nat, Setup>, s: nat): map<nat, int> {
    map u | u in setups :: One(setups[u].source == s && HoldsSlot(setups[u]))
  }

  predicate IsOn(lease: Lease, g: nat, s: nat) {
    lease.generation == g && lease.source == s
  }

  ghost function PendingOn(leases: map<nat, Lease>, g: nat, s: nat): map<nat, int> {
    map l | l in leases :: One(IsOn(leases[l], g, s) && leases[l].state == Pending)
  }

  ghost function ActiveOn(leases: map<nat, Lease>, g: nat, s: nat): map<nat, int> {
    map l | l in leases :: One(IsOn(leases[l], g, s) && leases[l].state == Active)
  }

  predicate InFlight(lease: Lease, g: nat) {
    lease.generation == g && lease.terminal && lease.state != Released
  }

  ghost function InFlightOn(leases: map<nat, Lease>, g: nat): map<nat, int> {
    map l | l in leases :: One(InFlight(leases[l], g))
  }

  // ---------------------------------------------------------------------------
  // The invariant
  // ---------------------------------------------------------------------------

  ghost predicate SourceOk(flows: map<nat, Flow>, setups: map<nat, Setup>, requests: map<nat, Request>, s: nat,
      source: Source) {
    && source.flows == Sum(FlowsOn(flows, s)) <= source.capacity.flows
    && source.setups == Sum(SetupsOn(setups, s)) <= source.capacity.setups
    && source.requests == Sum(RequestsOn(requests, s)) <= source.capacity.requests
  }

  /** The slot of a setup has been given back once if it was released or settled, and not before. */
  predicate SetupOk(u: Setup) {
    (u.settling ==> u.claimed) && u.returned == One(!HoldsSlot(u))
  }

  ghost predicate SlotsOk(w: World) {
    && (forall s :: s in w.sources ==> SourceOk(w.flows, w.setups, w.requests, s, w.sources[s]))
    && (forall f :: f in w.flows ==> w.flows[f].source in w.sources)
    && (forall u :: u in w.setups ==> w.setups[u].source in w.sources && SetupOk(w.setups[u]))
    && (forall q :: q in w.requests ==> w.requests[q].source in w.sources)
  }

  ghost predicate UsageOk(leases: map<nat, Lease>, g: nat, s: nat, use: Traffic, capacity: Capacity) {
    && use.pending == Sum(PendingOn(leases, g, s)) && use.active == Sum(ActiveOn(leases, g, s))
    && 0 <= use.pending <= capacity.setupsPerGeneration && 0 <= use.active &&
       use.pending + use.active <= capacity.perGeneration
  }

  ghost predicate TrafficOk(w: World) {
    && (forall g: nat, s: nat :: s in w.sources ==> UsageOk(w.leases, g, s, Usage(w, g, s), w.sources[s].capacity))
    && (forall g :: g in w.generations ==> w.generations[g].inflight == Sum(InFlightOn(w.leases, g)))
    && (forall l :: l in w.leases ==> w.leases[l].generation in w.generations && w.leases[l].source in w.sources)
    && (forall pair :: pair in w.traffic ==> pair.1 in w.sources)
  }

  ghost predicate LeasesOk(w: World) {
    SlotsOk(w) && TrafficOk(w)
  }

  // ---------------------------------------------------------------------------
  // Setting one entry
  // ---------------------------------------------------------------------------

  lemma SetFlow(flows: map<nat, Flow>, f: nat, flow: Flow, s: nat)
    ensures Sum(FlowsOn(flows[f := flow], s)) == Sum(FlowsOn(flows, s)) + One(flow.source == s && !flow.released)
              - One(f in flows && flows[f].source == s && !flows[f].released)
  {
    var v := One(flow.source == s && !flow.released);
    assert FlowsOn(flows[f := flow], s) == FlowsOn(flows, s)[f := v];
    SumUpdate(FlowsOn(flows, s), f, v);
  }

  lemma SetRequest(requests: map<nat, Request>, q: nat, request: Request, s: nat)
    ensures Sum(RequestsOn(requests[q := request], s)) ==
            Sum(RequestsOn(requests, s)) + One(request.source == s && !request.released)
              - One(q in requests && requests[q].source == s && !requests[q].released)
  {
    var v := One(request.source == s && !request.released);
    assert RequestsOn(requests[q := request], s) == RequestsOn(requests, s)[q := v];
    SumUpdate(RequestsOn(requests, s), q, v);
  }

  lemma SetSetup(setups: map<nat, Setup>, u: nat, setup: Setup, s: nat)
    ensures Sum(SetupsOn(setups[u := setup], s)) ==
            Sum(SetupsOn(setups, s)) + One(setup.source == s && HoldsSlot(setup))
              - One(u in setups && setups[u].source == s && HoldsSlot(setups[u]))
  {
    var v := One(setup.source == s && HoldsSlot(setup));
    assert SetupsOn(setups[u := setup], s) == SetupsOn(setups, s)[u := v];
    SumUpdate(SetupsOn(setups, s), u, v);
  }

  lemma SetLease(leases: map<nat, Lease>, l: nat, lease: Lease, g: nat, s: nat)
    ensures Sum(PendingOn(leases[l := lease], g, s)) ==
            Sum(PendingOn(leases, g, s)) + One(IsOn(lease, g, s) && lease.state == Pending)
              - One(l in leases && IsOn(leases[l], g, s) && leases[l].state == Pending)
    ensures Sum(ActiveOn(leases[l := lease], g, s)) ==
            Sum(ActiveOn(leases, g, s)) + One(IsOn(lease, g, s) && lease.state == Active)
              - One(l in leases && IsOn(leases[l], g, s) && leases[l].state == Active)
  {
    var p := One(IsOn(lease, g, s) && lease.state == Pending);
    var a := One(IsOn(lease, g, s) && lease.state == Active);
    assert PendingOn(leases[l := lease], g, s) == PendingOn(leases, g, s)[l := p];
    assert ActiveOn(leases[l := lease], g, s) == ActiveOn(leases, g, s)[l := a];
    SumUpdate(PendingOn(leases, g, s), l, p);
    SumUpdate(ActiveOn(leases, g, s), l, a);
  }

  lemma SetInFlight(leases: map<nat, Lease>, l: nat, lease: Lease, g: nat)
    ensures Sum(InFlightOn(leases[l := lease], g)) == Sum(InFlightOn(leases, g)) + One(InFlight(lease, g))
              - One(l in leases && InFlight(leases[l], g))
  {
    var v := One(InFlight(lease, g));
    assert InFlightOn(leases[l := lease], g) == InFlightOn(leases, g)[l := v];
    SumUpdate(InFlightOn(leases, g), l, v);
  }

  lemma LeaseCounted(leases: map<nat, Lease>, l: nat)
    requires l in leases
    ensures leases[l].state == Pending ==> Sum(PendingOn(leases, leases[l].generation, leases[l].source)) >= 1
    ensures leases[l].state == Active ==> Sum(ActiveOn(leases, leases[l].generation, leases[l].source)) >= 1
  {
    SumBounds(PendingOn(leases, leases[l].generation, leases[l].source), l);
    SumBounds(ActiveOn(leases, leases[l].generation, leases[l].source), l);
  }

  // ---------------------------------------------------------------------------
  // Steps of a source
  // ---------------------------------------------------------------------------

  /** Steps of a source leave generation traffic alone, if capacities stay. */
  lemma SourceTraffic(w: World, q: World)
    requires TrafficOk(w)
    requires q.leases == w.leases && q.generations == w.generations && q.traffic == w.traffic
    requires q.sources.Keys == w.sources.Keys
    requires forall s :: s in w.sources ==> q.sources[s].capacity == w.sources[s].capacity
    ensures TrafficOk(q)
  {
    hide UsageOk;
    hide Sum;
    forall g: nat, s: nat | s in q.sources
      ensures UsageOk(q.leases, g, s, Usage(q, g, s), q.sources[s].capacity)
    {
      assert UsageOk(w.leases, g, s, Usage(w, g, s), w.sources[s].capacity);
    }
  }

  lemma NewSourceSlots(w: World, s: nat, capacity: Capacity)
    requires SlotsOk(w)
    ensures SlotsOk(NewSource(w, s, capacity))
  {
    hide Sum;
    hide FlowsOn;
    hide SetupsOn;
    hide RequestsOn;
    hide SetupOk;
    if s !in w.sources {
      NewSourceCounts(w, s);
      assert SourceOk(w.flows, w.setups, w.requests, s, NewSource(w, s, capacity).sources[s]);
    }
    hide SourceOk;
  }

  lemma CloseSourceSlots(w: World, s: nat)
    requires SlotsOk(w)
    ensures SlotsOk(CloseSource(w, s))
  {
    hide Sum;
    hide FlowsOn;
    hide SetupsOn;
    hide RequestsOn;
    hide SetupOk;
    hide SourceOk;
    if s in w.sources {
      assert SourceOk(w.flows, w.setups, w.requests, s, w.sources[s]);
      ClosedSameCounts(w.flows, w.setups, w.requests, s, w.sources[s]);
    }
  }

  lemma ClosedSameCounts(flows: map<nat, Flow>, setups: map<nat, Setup>, requests: map<nat, Request>, s: nat,
      source: Source)
    requires SourceOk(flows, setups, requests, s, source)
    ensures SourceOk(flows, setups, requests, s, source.(closed := true))
  {
    hide Sum;
  }

  lemma NewSourceCounts(w: World, s: nat)
    requires SlotsOk(w)
    ensures s !in w.sources ==>
            Sum(FlowsOn(w.flows, s)) == 0 && Sum(SetupsOn(w.setups, s)) == 0 && Sum(RequestsOn(w.requests, s)) == 0
  {
    if s !in w.sources {
      hide SourceOk;
      SumZero(FlowsOn(w.flows, s));
      SumZero(SetupsOn(w.setups, s));
      SumZero(RequestsOn(w.requests, s));
    }
  }

  lemma BeginFlowSlots(w: World, s: nat, f: nat)
    requires SlotsOk(w)
    ensures SlotsOk(BeginFlow(w, s, f))
  {
    hide Sum;
    hide FlowsOn;
    hide SetupsOn;
    hide RequestsOn;
    var q := BeginFlow(w, s, f);
    if q != w {
      forall x | x in q.sources
        ensures SourceOk(q.flows, q.setups, q.requests, x, q.sources[x])
      {
        assert SourceOk(w.flows, w.setups, w.requests, x, w.sources[x]);
        SetFlow(w.flows, f, Flow(s, false), x);
      }
    }
  }

  lemma ReleaseFlowSlots(w: World, f: nat)
    requires SlotsOk(w)
    ensures SlotsOk(ReleaseFlow(w, f))
  {
    hide Sum;
    hide FlowsOn;
    hide SetupsOn;
    hide RequestsOn;
    var q := ReleaseFlow(w, f);
    if q != w {
      forall x | x in q.sources
        ensures SourceOk(q.flows, q.setups, q.requests, x, q.sources[x])
      {
        assert SourceOk(w.flows, w.setups, w.requests, x, w.sources[x]);
        SetFlow(w.flows, f, q.flows[f], x);
      }
    }
  }

  lemma BeginSetupSlots(w: World, f: nat, u: nat)
    requires SlotsOk(w)
    ensures SlotsOk(BeginSetup(w, f, u))
  {
    hide Sum;
    hide FlowsOn;
    hide SetupsOn;
    hide RequestsOn;
    var q := BeginSetup(w, f, u);
    if q != w {
      forall x | x in q.sources
        ensures SourceOk(q.flows, q.setups, q.requests, x, q.sources[x])
      {
        assert SourceOk(w.flows, w.setups, w.requests, x, w.sources[x]);
        SetSetup(w.setups, u, q.setups[u], x);
      }
    }
  }

  lemma ReleaseSetupSlots(w: World, u: nat)
    requires SlotsOk(w)
    ensures SlotsOk(ReleaseSetup(w, u))
  {
    hide Sum;
    hide FlowsOn;
    hide SetupsOn;
    hide RequestsOn;
    var q := ReleaseSetup(w, u);
    if q != w {
      forall x | x in q.sources
        ensures SourceOk(q.flows, q.setups, q.requests, x, q.sources[x])
      {
        assert SourceOk(w.flows, w.setups, w.requests, x, w.sources[x]);
        SetSetup(w.setups, u, q.setups[u], x);
      }
    }
  }

  lemma BeginRequestSlots(w: World, f: nat, r: nat)
    requires SlotsOk(w)
    ensures SlotsOk(BeginRequest(w, f, r))
  {
    hide Sum;
    hide FlowsOn;
    hide SetupsOn;
    hide RequestsOn;
    var q := BeginRequest(w, f, r);
    if q != w {
      forall x | x in q.sources
        ensures SourceOk(q.flows, q.setups, q.requests, x, q.sources[x])
      {
        assert SourceOk(w.flows, w.setups, w.requests, x, w.sources[x]);
        SetRequest(w.requests, r, q.requests[r], x);
      }
    }
  }

  lemma ReleaseRequestSlots(w: World, r: nat)
    requires SlotsOk(w)
    ensures SlotsOk(ReleaseRequest(w, r))
  {
    hide Sum;
    hide FlowsOn;
    hide SetupsOn;
    hide RequestsOn;
    var q := ReleaseRequest(w, r);
    if q != w {
      forall x | x in q.sources
        ensures SourceOk(q.flows, q.setups, q.requests, x, q.sources[x])
      {
        assert SourceOk(w.flows, w.setups, w.requests, x, w.sources[x]);
        SetRequest(w.requests, r, q.requests[r], x);
      }
    }
  }

  lemma SettleSlots(w: World, u: nat)
    requires SlotsOk(w)
    ensures SlotsOk(Settle(w, u))
  {
    hide Sum;
    hide FlowsOn;
    hide SetupsOn;
    hide RequestsOn;
    var q := Settle(w, u);
    if q != w {
      forall x | x in q.sources
        ensures SourceOk(q.flows, q.setups, q.requests, x, q.sources[x])
      {
        assert SourceOk(w.flows, w.setups, w.requests, x, w.sources[x]);
        SetSetup(w.setups, u, q.setups[u], x);
      }
    }
  }

  lemma AcknowledgeSlots(w: World, l: nat)
    requires SlotsOk(w)
    ensures SlotsOk(Acknowledge(w, l))
  {
    hide Sum;
    hide FlowsOn;
    hide SetupsOn;
    hide RequestsOn;
    var q := Acknowledge(w, l);
    if q != w {
      forall x | x in q.sources
        ensures SourceOk(q.flows, q.setups, q.requests, x, q.sources[x])
      {
        assert SourceOk(w.flows, w.setups, w.requests, x, w.sources[x]);
        SetSetup(w.setups, w.leases[l].setup.value, q.setups[w.leases[l].setup.value], x);
      }
    }
  }

  // ---------------------------------------------------------------------------
  // Steps of a lease
  // ---------------------------------------------------------------------------

  /** q differs from w in one lease, the usage of its pair and the load of its generation. */
  lemma LeaseUsages(w: World, q: World, l: nat, g: nat, s: nat)
    requires TrafficOk(w) && l in q.leases && IsOn(q.leases[l], g, s) && (l in w.leases ==> IsOn(w.leases[l], g, s))
    requires q.leases == w.leases[l := q.leases[l]] && q.sources == w.sources && s in w.sources
    requires (g, s) in q.traffic && q.traffic == w.traffic[(g, s) := q.traffic[(g, s)]]
    requires UsageOk(q.leases, g, s, Usage(q, g, s), w.sources[s].capacity)
    ensures forall x: nat, y: nat :: y in q.sources ==> UsageOk(q.leases, x, y, Usage(q, x, y), q.sources[y].capacity)
  {
    hide Sum;
    hide PendingOn;
    hide ActiveOn;
    forall x: nat, y: nat | y in q.sources
      ensures UsageOk(q.leases, x, y, Usage(q, x, y), q.sources[y].capacity)
    {
      assert UsageOk(w.leases, x, y, Usage(w, x, y), w.sources[y].capacity);
      SetLease(w.leases, l, q.leases[l], x, y);
    }
  }

  lemma LeaseLoads(w: World, q: World, l: nat, g: nat)
    requires TrafficOk(w) && l in q.leases && q.leases[l].generation == g &&
             (l in w.leases ==> w.leases[l].generation == g)
    requires q.leases == w.leases[l := q.leases[l]] && g in w.generations && g in q.generations
    requires q.generations == w.generations[g := q.generations[g]]
    requires q.generations[g].inflight ==
             w.generations[g].inflight + One(InFlight(q.leases[l], g)) - One(l in w.leases && InFlight(w.leases[l], g))
    ensures forall x :: x in q.generations ==> q.generations[x].inflight == Sum(InFlightOn(q.leases, x))
  {
    hide Sum;
    hide InFlightOn;
    hide UsageOk;
    forall x | x in q.generations
      ensures q.generations[x].inflight == Sum(InFlightOn(q.leases, x))
    {
      SetInFlight(w.leases, l, q.leases[l], x);
    }
  }

  lemma ReserveTraffic(w: World, l: nat, g: nat, s: nat, setup: Option<nat>, terminal: bool)
    requires TrafficOk(w)
    ensures TrafficOk(Reserve(w, l, g, s, setup, terminal))
  {
    hide Sum;
    hide PendingOn;
    hide ActiveOn;
    hide InFlightOn;
    var q := Reserve(w, l, g, s, setup, terminal);
    if l !in w.leases && MayReserve(w, g, s, setup) {
      assert UsageOk(w.leases, g, s, Usage(w, g, s), w.sources[s].capacity);
      SetLease(w.leases, l, q.leases[l], g, s);
      LeaseUsages(w, q, l, g, s);
      LeaseLoads(w, q, l, g);
    }
  }

  lemma ActivateTraffic(w: World, l: nat)
    requires TrafficOk(w) && l in w.leases && w.leases[l].state == Pending
    ensures TrafficOk(Activate(w, l))
  {
    hide Sum;
    hide PendingOn;
    hide ActiveOn;
    hide InFlightOn;
    var q, g, s := Activate(w, l), w.leases[l].generation, w.leases[l].source;
    assert UsageOk(w.leases, g, s, Usage(w, g, s), w.sources[s].capacity);
    LeaseCounted(w.leases, l);
    SetLease(w.leases, l, q.leases[l], g, s);
    LeaseUsages(w, q, l, g, s);
    LeaseLoads(w, q, l, g);
  }

  lemma ReleaseTraffic(w: World, l: nat)
    requires TrafficOk(w)
    ensures TrafficOk(ReleaseLease(w, l))
  {
    hide Sum;
    hide PendingOn;
    hide ActiveOn;
    hide InFlightOn;
    var q := ReleaseLease(w, l);
    if l in w.leases && w.leases[l].state != Released {
      var g, s := w.leases[l].generation, w.leases[l].source;
      assert UsageOk(w.leases, g, s, Usage(w, g, s), w.sources[s].capacity);
      LeaseCounted(w.leases, l);
      SetLease(w.leases, l, q.leases[l], g, s);
      LeaseUsages(w, q, l, g, s);
      LeaseLoads(w, q, l, g);
    }
  }

  /** Marking a setup does not touch traffic. */
  lemma SetupTraffic(w: World, setups: map<nat, Setup>)
    requires TrafficOk(w)
    ensures TrafficOk(w.(setups := setups))
  {
    hide UsageOk;
    hide Sum;
    var q := w.(setups := setups);
    forall g: nat, s: nat | s in q.sources
      ensures UsageOk(q.leases, g, s, Usage(q, g, s), q.sources[s].capacity)
    {
      assert UsageOk(w.leases, g, s, Usage(w, g, s), w.sources[s].capacity);
    }
  }

  lemma AcknowledgeTraffic(w: World, l: nat)
    requires TrafficOk(w)
    ensures TrafficOk(Acknowledge(w, l)) && TrafficOk(AcknowledgeProbe(w, l))
  {
    hide TrafficOk;
    if l in w.leases && w.leases[l].state == Pending {
      ActivateTraffic(w, l);
      SetupTraffic(Activate(w, l), Acknowledge(w, l).setups);
    }
  }

  lemma NothingOn(w: World, g: nat, s: nat)
    requires TrafficOk(w)
    ensures s !in w.sources ==> Sum(PendingOn(w.leases, g, s)) == 0 && Sum(ActiveOn(w.leases, g, s)) == 0
    ensures g !in w.generations ==> Sum(InFlightOn(w.leases, g)) == 0
  {
    if s !in w.sources {
      SumZero(PendingOn(w.leases, g, s));
      SumZero(ActiveOn(w.leases, g, s));
    }
    if g !in w.generations {
      SumZero(InFlightOn(w.leases, g));
    }
  }

  lemma NewSourceTraffic(w: World, s: nat, capacity: Capacity)
    requires TrafficOk(w)
    ensures TrafficOk(NewSource(w, s, capacity))
  {
    hide Sum;
    hide PendingOn;
    hide ActiveOn;
    var q := NewSource(w, s, capacity);
    forall g: nat, x: nat | x in q.sources
      ensures UsageOk(q.leases, g, x, Usage(q, g, x), q.sources[x].capacity)
    {
      if x in w.sources {
        assert UsageOk(w.leases, g, x, Usage(w, g, x), w.sources[x].capacity);
      } else {
        NothingOn(w, g, x);
      }
    }
  }

  /** Generations come and change readiness without touching any count. */
  lemma GenerationTraffic(w: World, q: World, g: nat)
    requires TrafficOk(w) && q.(generations := w.generations) == w && g in q.generations
    requires q.generations == w.generations[g := q.generations[g]]
    requires q.generations[g].inflight == if g in w.generations then w.generations[g].inflight else 0
    ensures TrafficOk(q)
  {
    hide Sum;
    hide PendingOn;
    hide ActiveOn;
    hide InFlightOn;
    forall x: nat, y: nat | y in q.sources
      ensures UsageOk(q.leases, x, y, Usage(q, x, y), q.sources[y].capacity)
    {
      assert UsageOk(w.leases, x, y, Usage(w, x, y), w.sources[y].capacity);
    }
    NothingOn(w, g, 0);
  }

  // ---------------------------------------------------------------------------
  // Whole runs
  // ---------------------------------------------------------------------------

  /** Slots are not touched by steps that change neither sources nor their owners. */
  lemma SameSlots(w: World, q: World)
    requires SlotsOk(w) && q.sources == w.sources && q.flows == w.flows && q.setups == w.setups &&
             q.requests == w.requests
    ensures SlotsOk(q)
  {
    hide SourceOk;
    hide SetupOk;
  }

  lemma SourceStepOk(w: World, a: Action)
    requires LeasesOk(w)
    requires a.DoCloseSource? || a.DoBeginFlow? || a.DoReleaseFlow? || a.DoBeginSetup? || a.DoReleaseSetup?
             || a.DoBeginRequest? || a.DoReleaseRequest? || a.DoSettle?
    ensures LeasesOk(Do(w, a))
  {
    hide Do;
    hide SlotsOk;
    hide UsageOk;
    SourceSlots(w, a);
    if a.DoCloseSource? {
      CloseFrame(w, a.source);
    } else if a.DoBeginFlow? || a.DoReleaseFlow? || a.DoReleaseSetup? {
      FlowFrame(w, a);
    } else {
      RequestFrame(w, a);
    }
    SourceTraffic(w, Do(w, a));
  }

  lemma SourceSlots(w: World, a: Action)
    requires SlotsOk(w)
    requires a.DoCloseSource? || a.DoBeginFlow? || a.DoReleaseFlow? || a.DoBeginSetup? || a.DoReleaseSetup?
             || a.DoBeginRequest? || a.DoReleaseRequest? || a.DoSettle?
    ensures SlotsOk(Do(w, a))
  {
    hide SlotsOk;
    match a {
      case DoCloseSource(s) => CloseSourceSlots(w, s);
      case DoBeginFlow(s, f) => BeginFlowSlots(w, s, f);
      case DoReleaseFlow(f) => ReleaseFlowSlots(w, f);
      case DoBeginSetup(f, u) => BeginSetupSlots(w, f, u);
      case DoReleaseSetup(u) => ReleaseSetupSlots(w, u);
      case DoBeginRequest(f, r) => BeginRequestSlots(w, f, r);
      case DoReleaseRequest(r) => ReleaseRequestSlots(w, r);
      case DoSettle(u) => SettleSlots(w, u);
    }
  }

  predicate SameTraffic(w: World, q: World) {
    && q.leases == w.leases && q.generations == w.generations && q.traffic == w.traffic
    && q.sources.Keys == w.sources.Keys && forall s :: s in w.sources ==> q.sources[s].capacity == w.sources[s].capacity
  }

  lemma CloseFrame(w: World, s: nat)
    ensures SameTraffic(w, Do(w, DoCloseSource(s)))
  {
  }

  lemma FlowFrame(w: World, a: Action)
    requires a.DoBeginFlow? || a.DoReleaseFlow? || a.DoReleaseSetup?
    ensures SameTraffic(w, Do(w, a))
  {
  }

  lemma RequestFrame(w: World, a: Action)
    requires a.DoBeginSetup? || a.DoBeginRequest? || a.DoReleaseRequest? || a.DoSettle?
    ensures SameTraffic(w, Do(w, a))
  {
  }

  lemma DoOk(w: World, a: Action)
    requires LeasesOk(w)
    ensures LeasesOk(Do(w, a))
  {
    hide SlotsOk;
    hide TrafficOk;
    match a {
      case DoNewSource(s, capacity) =>
        NewSourceSlots(w, s, capacity);
        NewSourceTraffic(w, s, capacity);
      case DoNewGeneration(g) =>
        if g !in w.generations {
          GenerationTraffic(w, NewGeneration(w, g), g);
          SameSlots(w, NewGeneration(w, g));
        }
      case DoSetReady(g, ready, failed) =>
        if g in w.generations {
          GenerationTraffic(w, SetReady(w, g, ready, failed), g);
          SameSlots(w, SetReady(w, g, ready, failed));
        }
      case DoReserve(l, g, s, shared, terminal) =>
        ReserveTraffic(w, l, g, s, shared, terminal);
        SameSlots(w, Reserve(w, l, g, s, shared, terminal));
      case DoAcknowledge(l) =>
        AcknowledgeSlots(w, l);
        AcknowledgeTraffic(w, l);
      case DoAcknowledgeProbe(l) =>
        AcknowledgeTraffic(w, l);
        SameSlots(w, AcknowledgeProbe(w, l));
      case DoReleaseLease(l) =>
        ReleaseTraffic(w, l);
        SameSlots(w, ReleaseLease(w, l));
      case _ => SourceStepOk(w, a);
    }
  }

  lemma StartOk()
    ensures LeasesOk(START)
  {
    forall g: nat
      ensures Sum(InFlightOn(START.leases, g)) == 0
    {
      SumZero(InFlightOn(START.leases, g));
    }
  }

  lemma {:induction false} RunOk(actions: seq<Action>)
    ensures LeasesOk(Run(actions))
  {
    hide Do;
    if actions == [] {
      StartOk();
    } else {
      hide LeasesOk;
      RunOk(actions[..|actions| - 1]);
      DoOk(Run(actions[..|actions| - 1]), actions[|actions| - 1]);
    }
  }

  /** Conservation: in every interleaving each counter is the number of leases that hold it, and
      within its limit. */
  lemma Conservation(actions: seq<Action>)
    ensures var w := Run(actions);
            && (forall s :: s in w.sources ==> SourceOk(w.flows, w.setups, w.requests, s, w.sources[s]))
            && (forall g: nat, s: nat :: s in w.sources ==>
                  UsageOk(w.leases, g, s, Usage(w, g, s), w.sources[s].capacity))
            && (forall g :: g in w.generations ==> w.generations[g].inflight == Sum(InFlightOn(w.leases, g)))
  {
    RunOk(actions);
    hide Run;
    hide SourceOk;
    hide UsageOk;
    hide Sum;
  }

  /** The slot of a setup is given back exactly once: never before it is released or claimed, and
      once it is claimed and nobody is settling it has been given back, whoever did it. */
  lemma SlotReturnedOnce(actions: seq<Action>, u: nat)
    requires u in Run(actions).setups
    ensures var setup := Run(actions).setups[u];
            && setup.returned <= 1 && (setup.returned == 1 <==> setup.claimed && !setup.settling)
            && (setup.settling ==> setup.claimed)
  {
    RunOk(actions);
    hide Run;
    var w := Run(actions);
    hide TrafficOk;
    hide SourceOk;
    assert SetupOk(w.setups[u]);
  }

  /** Of two leases that share a setup only one acknowledges. */
  lemma OneAcknowledges(w: World, l: nat, m: nat)
    requires l in w.leases && m in w.leases && l != m && w.leases[l].setup.Some? &&
             w.leases[m].setup == w.leases[l].setup
    requires Acknowledge(w, l) != w
    ensures Acknowledge(Acknowledge(w, l), m) == Acknowledge(w, l)
    ensures ReleaseSetup(Acknowledge(w, l), w.leases[l].setup.value) == Acknowledge(w, l)
  {
  }

  predicate AllReleased(w: World) {
    && (forall f :: f in w.flows ==> w.flows[f].released) && (forall q :: q in w.requests ==> w.requests[q].released)
    && (forall u :: u in w.setups ==> !HoldsSlot(w.setups[u])) &&
       (forall l :: l in w.leases ==> w.leases[l].state == Released)
  }

  /** Once everything has been released, every counter is zero. */
  lemma ZeroOnceReleased(actions: seq<Action>, g: nat, s: nat)
    requires AllReleased(Run(actions)) && s in Run(actions).sources
    ensures var w := Run(actions);
            && w.sources[s].flows == 0 && w.sources[s].setups == 0 && w.sources[s].requests == 0
            && Usage(w, g, s) == Traffic(0, 0) && (g in w.generations ==> w.generations[g].inflight == 0)
  {
    var w := Run(actions);
    Conservation(actions);
    hide Run;
    assert SourceOk(w.flows, w.setups, w.requests, s, w.sources[s]);
    assert UsageOk(w.leases, g, s, Usage(w, g, s), w.sources[s].capacity);
    SumZero(FlowsOn(w.flows, s));
    SumZero(SetupsOn(w.setups, s));
    SumZero(RequestsOn(w.requests, s));
    SumZero(PendingOn(w.leases, g, s));
    SumZero(ActiveOn(w.leases, g, s));
    SumZero(InFlightOn(w.leases, g));
    hide Sum;
  }
}

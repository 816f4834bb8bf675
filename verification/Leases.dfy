/** Mesh TCP admission: source slots under one lock, generation leases under another, and the
    setup slot that several leases may share. Each critical section or atomic access is one step. */
module Leases {
  import opened Basics
  import opened MapSum

  datatype Capacity = Capacity(flows: nat, setups: nat, perGeneration: nat, setupsPerGeneration: nat, requests: nat)

  datatype Source = Source(capacity: Capacity, closed: bool, flows: int, setups: int, requests: int)

  datatype Flow = Flow(source: nat, released: bool)
  datatype Request = Request(source: nat, released: bool)

  /** `claimed` is the released flag; `settling` holds between the claim of an acknowledge and its
      settle; `returned` counts how often the slot was given back. */
  datatype Setup = Setup(source: nat, claimed: bool, settling: bool, returned: nat)

  datatype LeaseState = Pending | Active | Released

  datatype Lease = Lease(generation: nat, source: nat, setup: Option<nat>, terminal: bool, state: LeaseState)

  datatype Traffic = Traffic(pending: int, active: int)

  /** `ready` stands for isForwardingReadyLocked, which the registry decides; `failed` for a failed L7 health. */
  datatype Generation = Generation(ready: bool, failed: bool, inflight: int)

  datatype World = World(
    sources: map<nat, Source>, flows: map<nat, Flow>, setups: map<nat, Setup>, requests: map<nat, Request>,
    generations: map<nat, Generation>, traffic: map<(nat, nat), Traffic>, leases: map<nat, Lease>)

  const START := World(map[], map[], map[], map[], map[], map[], map[])

  function Usage(w: World, g: nat, s: nat): Traffic {
    if (g, s) in w.traffic then w.traffic[(g, s)] else Traffic(0, 0)
  }

  function SetSource(w: World, s: nat, source: Source): World {
    w.(sources := w.sources[s := source])
  }

  // ---------------------------------------------------------------------------
  // Source slots
  // ---------------------------------------------------------------------------

  function NewSource(w: World, s: nat, capacity: Capacity): World {
    if s in w.sources then w else SetSource(w, s, Source(capacity, false, 0, 0, 0))
  }

  function CloseSource(w: World, s: nat): World {
    if s !in w.sources then w else SetSource(w, s, w.sources[s].(closed := true))
  }

  function BeginFlow(w: World, s: nat, f: nat): World {
    if f in w.flows || s !in w.sources || w.sources[s].closed || w.sources[s].flows >= w.sources[s].capacity.flows
    then w
    else SetSource(w, s, w.sources[s].(flows := w.sources[s].flows + 1)).(flows := w.flows[f := Flow(s, false)])
  }

  function ReleaseFlow(w: World, f: nat): World {
    if f !in w.flows || w.flows[f].released || w.flows[f].source !in w.sources then w
    else
      var s := w.flows[f].source;
      SetSource(w, s, w.sources[s].(flows := w.sources[s].flows - 1)).(flows := w.flows[f := Flow(s, true)])
  }

  predicate LiveFlow(w: World, f: nat) {
    f in w.flows && !w.flows[f].released && w.flows[f].source in w.sources && !w.sources[w.flows[f].source].closed
  }

  function BeginSetup(w: World, f: nat, u: nat): World {
    if u in w.setups || !LiveFlow(w, f) then w
    else
      var s := w.flows[f].source;
      if w.sources[s].setups >= w.sources[s].capacity.setups then w
      else
        SetSource(w, s, w.sources[s].(setups := w.sources[s].setups + 1))
          .(setups := w.setups[u := Setup(s, false, false, 0)])
  }

  /** setupLease.release: swap and give back under the source lock. */
  function ReleaseSetup(w: World, u: nat): World {
    if u !in w.setups || w.setups[u].claimed || w.setups[u].source !in w.sources then w
    else
      var s := w.setups[u].source;
      SetSource(w, s, w.sources[s].(setups := w.sources[s].setups - 1))
        .(setups := w.setups[u := w.setups[u].(claimed := true, returned := w.setups[u].returned + 1)])
  }

  function BeginRequest(w: World, f: nat, q: nat): World {
    if q in w.requests || !LiveFlow(w, f) then w
    else
      var s := w.flows[f].source;
      if w.sources[s].capacity.requests == 0 || w.sources[s].requests >= w.sources[s].capacity.requests then w
      else
        SetSource(w, s, w.sources[s].(requests := w.sources[s].requests + 1))
          .(requests := w.requests[q := Request(s, false)])
  }

  function ReleaseRequest(w: World, q: nat): World {
    if q !in w.requests || w.requests[q].released || w.requests[q].source !in w.sources then w
    else
      var s := w.requests[q].source;
      SetSource(w, s, w.sources[s].(requests := w.sources[s].requests - 1))
        .(requests := w.requests[q := Request(s, true)])
  }

  // ---------------------------------------------------------------------------
  // Generation leases
  // ---------------------------------------------------------------------------

  function NewGeneration(w: World, g: nat): World {
    if g in w.generations then w else w.(generations := w.generations[g := Generation(false, false, 0)])
  }

  function SetReady(w: World, g: nat, ready: bool, failed: bool): World {
    if g !in w.generations then w
    else w.(generations := w.generations[g := w.generations[g].(ready := ready, failed := failed)])
  }

  /** A probe has no setup; every other lease needs a live one of the same source. */
  predicate MayReserve(w: World, g: nat, s: nat, setup: Option<nat>) {
    && s in w.sources && !w.sources[s].closed
    && (setup.Some? ==> setup.value in w.setups && w.setups[setup.value].source == s && !w.setups[setup.value].claimed)
    && g in w.generations && w.generations[g].ready
    && Usage(w, g, s).pending + Usage(w, g, s).active < w.sources[s].capacity.perGeneration
    && Usage(w, g, s).pending < w.sources[s].capacity.setupsPerGeneration
  }

  /** The generations with the load of one changed. */
  function Loaded(generations: map<nat, Generation>, g: nat, change: int): map<nat, Generation>
    requires g in generations
  {
    generations[g := generations[g].(inflight := generations[g].inflight + change)]
  }

  function Reserve(w: World, l: nat, g: nat, s: nat, setup: Option<nat>, terminal: bool): World {
    if l in w.leases || !MayReserve(w, g, s, setup) then w
    else
      var use := Usage(w, g, s);
      w.(traffic := w.traffic[(g, s) := use.(pending := use.pending + 1)],
         generations := if terminal then Loaded(w.generations, g, 1) else w.generations,
         leases := w.leases[l := Lease(g, s, setup, terminal, Pending)])
  }

  function Activate(w: World, l: nat): World
    requires l in w.leases
  {
    var lease := w.leases[l];
    var use := Usage(w, lease.generation, lease.source);
    w.(traffic := w.traffic[(lease.generation, lease.source) := Traffic(use.pending - 1, use.active + 1)],
       leases := w.leases[l := lease.(state := Active)])
  }

  /** acknowledge, up to the unlock: the claim wins once per setup, whichever lease makes it. */
  function Acknowledge(w: World, l: nat): World {
    if l !in w.leases || w.leases[l].state != Pending || w.leases[l].setup.None? then w
    else
      var u := w.leases[l].setup.value;
      if u !in w.setups || w.setups[u].claimed then w
      else Activate(w, l).(setups := w.setups[u := w.setups[u].(claimed := true, settling := true)])
  }

  /** The settle that follows, under the source lock. */
  function Settle(w: World, u: nat): World {
    if u !in w.setups || !w.setups[u].settling || w.setups[u].source !in w.sources then w
    else
      var s := w.setups[u].source;
      SetSource(w, s, w.sources[s].(setups := w.sources[s].setups - 1))
        .(setups := w.setups[u := w.setups[u].(settling := false, returned := w.setups[u].returned + 1)])
  }

  function AcknowledgeProbe(w: World, l: nat): World {
    if l !in w.leases || w.leases[l].state != Pending || w.leases[l].setup.Some? then w else Activate(w, l)
  }

  function ReleaseLease(w: World, l: nat): World {
    if l !in w.leases || w.leases[l].state == Released then w
    else
      var lease := w.leases[l];
      var use := Usage(w, lease.generation, lease.source);
      w.(traffic := w.traffic[(lease.generation, lease.source) :=
           if lease.state == Pending then use.(pending := use.pending - 1) else use.(active := use.active - 1)],
         generations := if lease.terminal && lease.generation in w.generations
                        then Loaded(w.generations, lease.generation, -1) else w.generations,
         leases := w.leases[l := lease.(state := Released)])
  }

  datatype Action =
    | DoNewSource(source: nat, capacity: Capacity)
    | DoCloseSource(source: nat)
    | DoBeginFlow(source: nat, flow: nat)
    | DoReleaseFlow(flow: nat)
    | DoBeginSetup(flow: nat, setup: nat)
    | DoReleaseSetup(setup: nat)
    | DoBeginRequest(flow: nat, request: nat)
    | DoReleaseRequest(request: nat)
    | DoNewGeneration(generation: nat)
    | DoSetReady(generation: nat, ready: bool, failed: bool)
    | DoReserve(lease: nat, generation: nat, source: nat, shared: Option<nat>, terminal: bool)
    | DoAcknowledge(lease: nat)
    | DoSettle(setup: nat)
    | DoAcknowledgeProbe(lease: nat)
    | DoReleaseLease(lease: nat)

  function Do(w: World, a: Action): World {
    match a
    case DoNewSource(s, capacity) => NewSource(w, s, capacity)
    case DoCloseSource(s) => CloseSource(w, s)
    case DoBeginFlow(s, f) => BeginFlow(w, s, f)
    case DoReleaseFlow(f) => ReleaseFlow(w, f)
    case DoBeginSetup(f, u) => BeginSetup(w, f, u)
    case DoReleaseSetup(u) => ReleaseSetup(w, u)
    case DoBeginRequest(f, q) => BeginRequest(w, f, q)
    case DoReleaseRequest(q) => ReleaseRequest(w, q)
    case DoNewGeneration(g) => NewGeneration(w, g)
    case DoSetReady(g, ready, failed) => SetReady(w, g, ready, failed)
    case DoReserve(l, g, s, shared, terminal) => Reserve(w, l, g, s, shared, terminal)
    case DoAcknowledge(l) => Acknowledge(w, l)
    case DoSettle(u) => Settle(w, u)
    case DoAcknowledgeProbe(l) => AcknowledgeProbe(w, l)
    case DoReleaseLease(l) => ReleaseLease(w, l)
  }

  function Run(actions: seq<Action>): World {
    if actions == [] then START else Do(Run(actions[..|actions| - 1]), actions[|actions| - 1])
  }
}

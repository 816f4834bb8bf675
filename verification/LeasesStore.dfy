/** Sources, setup slots and generation leases as objects, proved against the steps of Leases. */
module LeasesStore {
  import opened Basics
  import opened Leases

  class TCPSource {
    const capacity: Capacity
    var closed: bool
    var flows: int
    var setups: int
    var requests: int

    constructor (capacity: Capacity)
      ensures View() == Source(capacity, false, 0, 0, 0)
    {
      this.capacity := capacity;
      closed, flows, setups, requests := false, 0, 0, 0;
    }

    function View(): Source
      reads this
    {
      Source(capacity, closed, flows, setups, requests)
    }

    /** This object is source s of w. */
    ghost predicate Is(w: World, s: nat)
      reads this
    {
      s in w.sources && w.sources[s] == View()
    }

    method OpenFlow(ghost w: World, ghost s: nat, ghost f: nat) returns (ok: bool)
      requires Is(w, s) && f !in w.flows
      modifies this
      ensures Is(BeginFlow(w, s, f), s)
      ensures ok <==> f in BeginFlow(w, s, f).flows
    {
      ok := !closed && flows < capacity.flows;
      if ok {
        flows := flows + 1;
      }
    }

    method OpenSetup(ghost w: World, ghost s: nat, ghost f: nat, ghost u: nat) returns (setup: SetupLease?)
      requires Is(w, s) && u !in w.setups && f in w.flows && w.flows[f] == Flow(s, false)
      modifies this
      ensures Is(BeginSetup(w, f, u), s)
      ensures setup != null <==> u in BeginSetup(w, f, u).setups
      ensures setup != null ==> fresh(setup) && setup.source == this && setup.Is(BeginSetup(w, f, u), u, s)
    {
      if closed || setups >= capacity.setups {
        return null;
      }
      setups := setups + 1;
      setup := new SetupLease(this);
    }
  }

  class SetupLease {
    const source: TCPSource
    var claimed: bool

    constructor (source: TCPSource)
      ensures this.source == source && !claimed
    {
      this.source := source;
      claimed := false;
    }

    ghost predicate Is(w: World, u: nat, s: nat)
      reads this
    {
      u in w.setups && w.setups[u].source == s && w.setups[u].claimed == claimed
    }

    /** release: the swap and the slot under the source lock. */
    method Release(ghost w: World, ghost u: nat, ghost s: nat) returns (ok: bool)
      requires Is(w, u, s) && source.Is(w, s)
      modifies this, source
      ensures Is(ReleaseSetup(w, u), u, s) && source.Is(ReleaseSetup(w, u), s)
      ensures ok == !old(claimed)
    {
      if claimed {
        return false;
      }
      claimed := true;
      source.setups := source.setups - 1;
      return true;
    }

    /** claim: the compare-and-swap alone. */
    method Claim() returns (ok: bool)
      modifies this
      ensures claimed && ok == !old(claimed)
    {
      ok := !claimed;
      claimed := true;
    }

    method SettleSlot(ghost w: World, ghost u: nat, ghost s: nat)
      requires Is(w, u, s) && source.Is(w, s) && w.setups[u].settling
      modifies source
      ensures Is(Settle(w, u), u, s) && source.Is(Settle(w, u), s)
    {
      source.setups := source.setups - 1;
    }
  }

  /** The counters of one generation for one source. */
  class GenerationTraffic {
    var pending: int
    var active: int

    ghost predicate Is(w: World, g: nat, s: nat)
      reads this
    {
      Usage(w, g, s) == Traffic(pending, active)
    }
  }

  class GenerationLease {
    const usage: GenerationTraffic
    const setup: SetupLease
    var state: LeaseState

    constructor (usage: GenerationTraffic, setup: SetupLease)
      ensures this.usage == usage && this.setup == setup && state == Pending
    {
      this.usage, this.setup, state := usage, setup, Pending;
    }

    ghost predicate Is(w: World, l: nat, u: nat)
      reads this
    {
      l in w.leases && w.leases[l].state == state && w.leases[l].setup == Some(u)
    }

    /** acknowledge with nobody else between the claim and the settle. */
    method AcknowledgeReady(ghost w: World, ghost l: nat, ghost u: nat, ghost s: nat) returns (ok: bool)
      requires Is(w, l, u) && setup.Is(w, u, s) && setup.source.Is(w, s) && w.leases[l].source == s
      requires usage.Is(w, w.leases[l].generation, s) && !w.setups[u].settling
      modifies this, setup, setup.source, usage
      ensures var q := Settle(Acknowledge(w, l), u);
              Is(q, l, u) && setup.Is(q, u, s) && setup.source.Is(q, s) && usage.Is(q, w.leases[l].generation, s)
      ensures ok <==> old(state) == Pending && !old(setup.claimed)
    {
      if state != Pending {
        return false;
      }
      var won := setup.Claim();
      if !won {
        return false;
      }
      usage.pending, usage.active := usage.pending - 1, usage.active + 1;
      state := Active;
      setup.SettleSlot(Acknowledge(w, l), u, s);
      return true;
    }
  }
}

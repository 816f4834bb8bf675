/** Choosing a client generation for a flow: clientSelection.next and its two loops. */
module LeasesSelect {
  import opened Basics
  import opened Leases

  datatype Outcome = Leased(lease: nat, generation: nat,
                            failOpen: bool) | NoCandidate | ConnectionFull | SetupFull | SetupGone | SourceGone

  function Verdict(connectionFull: bool, setupFull: bool): Outcome {
    if connectionFull then ConnectionFull else if setupFull then SetupFull else NoCandidate
  }

  predicate IsReady(w: World, g: nat) {
    g in w.generations && w.generations[g].ready
  }

  predicate Healthy(w: World, g: nat) {
    IsReady(w, g) && !w.generations[g].failed
  }

  /** A candidate with a failed health check is considered only if no ready candidate passed it. */
  predicate Eligible(w: World, tried: set<nat>, failedOnly: bool, g: nat) {
    g !in tried && IsReady(w, g) && (failedOnly || !w.generations[g].failed)
  }

  /** The i-th candidate of the walk that starts at `start`. */
  function Rotated(candidates: seq<nat>, start: nat, i: nat): nat
    requires candidates != []
  {
    candidates[(start + i) % |candidates|]
  }

  /** The first candidate the walk meets, or with least load the first of least load. */
  ghost predicate Chosen(w: World, candidates: seq<nat>, start: nat, tried: set<nat>, failedOnly: bool,
      roundRobin: bool, k: nat)
    requires candidates != []
  {
    var g := Rotated(candidates, start, k);
    && Eligible(w, tried, failedOnly, g)
    && (forall i: nat :: i < k && Eligible(w, tried, failedOnly, Rotated(candidates, start, i)) ==>
          !roundRobin && w.generations[Rotated(candidates, start, i)].inflight > w.generations[g].inflight)
    && (!roundRobin ==>
          forall i: nat :: i < |candidates| && Eligible(w, tried, failedOnly, Rotated(candidates, start, i)) ==>
            w.generations[Rotated(candidates, start, i)].inflight >= w.generations[g].inflight)
  }

  /** The walk reaches every candidate. */
  lemma WalkCovers(candidates: seq<nat>, start: nat, j: nat)
    requires j < |candidates| && start < |candidates|
    ensures exists i: nat :: i < |candidates| && Rotated(candidates, start, i) == candidates[j]
  {
    var n := |candidates|;
    var i := if j >= start then j - start else j + n - start;
    assert (start + i) % n == j;
    assert Rotated(candidates, start, i) == candidates[j];
  }

  function Members(candidates: seq<nat>): set<nat> {
    set g | g in candidates
  }

  lemma {:induction false} MembersFit(candidates: seq<nat>)
    ensures |Members(candidates)| <= |candidates|
  {
    if candidates != [] {
      MembersFit(candidates[1..]);
      assert Members(candidates) == Members(candidates[1..]) + {candidates[0]};
    }
  }

  lemma AllTried(candidates: seq<nat>, tried: set<nat>)
    requires tried <= Members(candidates) && |tried| >= |candidates|
    ensures tried == Members(candidates)
  {
    MembersFit(candidates);
    assert Members(candidates) == tried + (Members(candidates) - tried);
  }

  lemma OneMore(candidates: seq<nat>, tried: set<nat>, g: nat)
    requires tried <= Members(candidates) && g in candidates && g !in tried
    ensures tried + {g} <= Members(candidates) && |tried + {g}| == |tried| + 1 && |tried| < |candidates|
  {
    MembersFit(candidates);
    assert Members(candidates) == tried + {g} + (Members(candidates) - tried - {g});
  }

  class ClientSelection {
    const candidates: seq<nat>
    const source: nat
    const setup: nat
    const roundRobin: bool
    const start: nat
    var tried: set<nat>

    constructor (candidates: seq<nat>, source: nat, setup: nat, roundRobin: bool, start: nat)
      requires candidates != [] ==> start < |candidates|
      ensures Valid() && this.candidates == candidates && this.source == source && this.setup == setup && tried == {}
    {
      this.candidates, this.source, this.setup := candidates, source, setup;
      this.roundRobin, this.start, this.tried := roundRobin, start, {};
    }

    predicate Valid()
      reads this
    {
      tried <= Members(candidates) && (candidates != [] ==> start < |candidates|)
    }

    method FailedOnly(w: World) returns (failedOnly: bool)
      ensures failedOnly <==> forall g :: g in candidates ==> !Healthy(w, g)
    {
      failedOnly := true;
      for i := 0 to |candidates|
        invariant failedOnly <==> forall j :: 0 <= j < i ==> !Healthy(w, candidates[j])
      {
        if Healthy(w, candidates[i]) {
          failedOnly := false;
        }
      }
    }

    /** The inner loop of next. */
    method Choose(w: World, failedOnly: bool) returns (selected: Option<nat>, ghost at: nat)
      requires candidates != []
      ensures selected.None? ==> forall i: nat :: i < |candidates| ==>
              !Eligible(w, tried, failedOnly, Rotated(candidates, start, i))
      ensures selected.Some? ==> at < |candidates| && selected.value == Rotated(candidates, start, at)
                                 && Chosen(w, candidates, start, tried, failedOnly, roundRobin, at)
    {
      selected, at := None, 0;
      var i := 0;
      while i < |candidates|
        invariant i <= |candidates|
        invariant selected.None? ==> forall k: nat :: k < i ==>
                  !Eligible(w, tried, failedOnly, Rotated(candidates, start, k))
        invariant selected.Some? ==> at < i && selected.value == Rotated(candidates, start, at)
        invariant selected.Some? ==> Eligible(w, tried, failedOnly, selected.value) && !roundRobin
        invariant selected.Some? ==>
                    forall k: nat :: k < i && Eligible(w, tried, failedOnly, Rotated(candidates, start, k)) ==>
                      var (load, best) := (w.generations[Rotated(candidates, start, k)], w.generations[selected.value]);
                      load.inflight >= best.inflight && (k < at ==> load.inflight > best.inflight)
      {
        var g := Rotated(candidates, start, i);
        if Eligible(w, tried, failedOnly, g) {
          if selected.None? || w.generations[g].inflight < w.generations[selected.value].inflight {
            selected, at := Some(g), i;
          }
          if roundRobin {
            return;
          }
        }
        i := i + 1;
      }
    }

    /** next: each call marks the candidates it considered, so none is ever leased twice. */
    method Next(w: World, l: nat) returns (q: World, outcome: Outcome)
      requires Valid() && l !in w.leases && source in w.sources
      modifies this
      ensures Valid() && old(tried) <= tried
      ensures outcome.Leased? ==>
                && outcome.lease == l && outcome.generation in candidates && outcome.generation !in old(tried) &&
                   outcome.generation in tried
                && q == Reserve(w, l, outcome.generation, source, Some(setup), true) && l in q.leases
                && outcome.failOpen == (forall g :: g in candidates ==> !Healthy(w, g))
                && (!outcome.failOpen ==> Healthy(w, outcome.generation))
      ensures !outcome.Leased? ==> q == w
      ensures outcome.NoCandidate? || outcome.ConnectionFull? || outcome.SetupFull? ==>
                forall g :: g in candidates && Eligible(w, old(tried),
                                                        (forall h :: h in candidates ==> !Healthy(w, h)), g) ==>
                  g in tried && !MayReserve(w, g, source, Some(setup))
    {
      q := w;
      if !(setup in w.setups && w.setups[setup].source == source && !w.setups[setup].claimed) {
        return q, SetupGone;
      }
      if w.sources[source].closed {
        return q, SourceGone;
      }
      var failedOnly := FailedOnly(w);
      var connectionFull, setupFull := false, false;
      while |tried| < |candidates|
        invariant Valid() && old(tried) <= tried && q == w
        invariant forall g :: g in tried && g !in old(tried) ==> !MayReserve(w, g, source, Some(setup))
        decreases |candidates| - |tried|
      {
        ghost var at;
        var selected;
        selected, at := Choose(w, failedOnly);
        if selected.None? {
          NoneLeft(w, candidates, start, tried, failedOnly);
          return q, Verdict(connectionFull, setupFull);
        }
        var g := selected.value;
        OneMore(candidates, tried, g);
        tried := tried + {g};
        if MayReserve(w, g, source, Some(setup)) {
          q := Reserve(w, l, g, source, Some(setup), true);
          return q, Leased(l, g, failedOnly);
        }
        var use := Usage(w, g, source);
        if use.pending + use.active >= w.sources[source].capacity.perGeneration {
          connectionFull := true;
        } else {
          setupFull := true;
        }
      }
      AllTried(candidates, tried);
      return q, Verdict(connectionFull, setupFull);
    }
  }

  lemma NoneLeft(w: World, candidates: seq<nat>, start: nat, tried: set<nat>, failedOnly: bool)
    requires start < |candidates|
    requires forall i: nat :: i < |candidates| ==> !Eligible(w, tried, failedOnly, Rotated(candidates, start, i))
    ensures forall g :: g in candidates ==> !Eligible(w, tried, failedOnly, g)
  {
    forall j | 0 <= j < |candidates|
      ensures !Eligible(w, tried, failedOnly, candidates[j])
    {
      WalkCovers(candidates, start, j);
    }
  }
}

/** The assembler's two atomic counters under every interleaving of AddFragment, the cleanup loop
    and Close. A shard is changed only under its lock; each access to a counter is its own step. */
module UdpCounters {
  import opened Basics
  import opened MapSum
  import opened UdpAssembler
  import opened UdpShards

  datatype Work =
    | Adding(now: int, key: Key, index: nat, total: nat, payload: Bytes)
    | Cleaning(now: int)
    | Closing

  /** Where an operation stands. `added` says that it found no group for its key and so adds one. */
  datatype Stage =
    | Entering
    | Locked
    | Counted(added: bool)
    | Reserved(added: bool)
    | Refusing
    | Removed(groups: int, bytes: int, outcome: Outcome)
    | HalfGiven(bytes: int, outcome: Outcome)
    | Finished(outcome: Outcome)

  /** Cleanup and Close work on one shard after the other, and finish with More. */
  datatype Op = Op(work: Work, shard: nat, stage: Stage)

  /** `closer` is the operation that took the lifecycle lock for writing, if any has. */
  datatype World = World(shards: seq<Shard>, groups: int, bytes: int, closer: Option<nat>, ops: map<nat, Op>)

  datatype Config = Config(hash: Key -> nat, limits: Limits, count: nat)

  function Start(cfg: Config): World {
    World(seq(cfg.count, _ => map[]), 0, 0, None, map[])
  }

  // ---------------------------------------------------------------------------
  // The locks
  // ---------------------------------------------------------------------------

  predicate Active(op: Op) {
    !op.stage.Finished?
  }

  /** Close gives its counts back after it has unlocked the shard. */
  predicate HoldsLock(op: Op) {
    !(op.stage.Entering? || op.stage.Finished? || (op.work.Closing? && !op.stage.Locked?))
  }

  predicate LockFree(ops: map<nat, Op>, shard: nat) {
    forall o :: o in ops && HoldsLock(ops[o]) ==> ops[o].shard != shard
  }

  /** Whether the lifecycle lock can be taken for reading. */
  predicate MayRead(w: World) {
    w.closer.Some? && w.closer.value in w.ops ==> !Active(w.ops[w.closer.value])
  }

  /** Whether it can be taken for writing. */
  predicate MayWrite(w: World) {
    w.closer.None? && forall o :: o in w.ops ==> !Active(w.ops[o])
  }

  // ---------------------------------------------------------------------------
  // The steps of an operation
  // ---------------------------------------------------------------------------

  function SetOp(w: World, o: nat, op: Op): World {
    w.(ops := w.ops[o := op])
  }

  function SetStage(w: World, o: nat, stage: Stage): World
    requires o in w.ops
  {
    SetOp(w, o, w.ops[o].(stage := stage))
  }

  function Lock(w: World, o: nat): World
    requires o in w.ops
  {
    if LockFree(w.ops, w.ops[o].shard) then SetStage(w, o, Locked) else w
  }

  /** Look up the group; without one, reserve its slot. */
  function LookUp(limits: Limits, w: World, o: nat): World
    requires o in w.ops && w.ops[o].work.Adding? && w.ops[o].shard < |w.shards|
  {
    var (a, i) := (w.ops[o].work, w.ops[o].shard);
    var shard := w.shards[i];
    if a.key in shard then
      var g := shard[a.key];
      if g.total != a.total then
        SetStage(w.(shards := w.shards[i := shard - {a.key}]), o, Removed(1, g.retained, Rejected(TotalMismatch)))
      else if a.index >= |g.data| then SetStage(w, o, Finished(Rejected(InvalidIndex)))
      else if g.data[a.index].Some? then SetStage(w, o, Finished(More))
      else SetStage(w, o, Counted(false))
    else if 1 > limits.groups - w.groups then SetStage(w, o, Finished(Rejected(Full)))
    else SetStage(w.(groups := w.groups + 1), o, Counted(true))
  }

  function ReserveBytes(limits: Limits, w: World, o: nat): World
    requires o in w.ops && w.ops[o].work.Adding? && w.ops[o].stage.Counted?
  {
    var size := Retained(w.ops[o].work.payload);
    if size <= limits.bytes - w.bytes then SetStage(w.(bytes := w.bytes + size), o, Reserved(w.ops[o].stage.added))
    else SetStage(w, o, if w.ops[o].stage.added then Refusing else Finished(Rejected(Full)))
  }

  /** Store the fragment; a complete group leaves the shard at once. An index out of range would
      panic: that it never is, is part of the invariant. */
  function Store(w: World, o: nat): World
    requires o in w.ops && w.ops[o].work.Adding? && w.ops[o].shard < |w.shards|
  {
    var (a, i) := (w.ops[o].work, w.ops[o].shard);
    var shard := w.shards[i];
    var found := if a.key in shard then shard[a.key] else NewGroup(a.total, a.now);
    if a.index >= |found.data| then w
    else
      var g := Place(found, a.index, a.payload);
      if g.received == g.total then
        SetStage(w.(shards := w.shards[i := shard - {a.key}]), o, Removed(1, g.retained, Complete(JoinSlots(g.data))))
      else SetStage(w.(shards := w.shards[i := shard[a.key := g]]), o, Finished(More))
  }

  function Kept(work: Work, shard: Shard): Shard {
    if work.Cleaning? then Survivors(shard, work.now) else map[]
  }

  /** Cleanup drops what has expired, Close everything. */
  ghost function Sweep(w: World, o: nat): World
    requires o in w.ops && w.ops[o].shard < |w.shards|
  {
    var i := w.ops[o].shard;
    var left := Kept(w.ops[o].work, w.shards[i]);
    SetStage(w.(shards := w.shards[i := left]), o,
             Removed(|w.shards[i]| - |left|, BytesOf(w.shards[i]) - BytesOf(left), More))
  }

  function AfterGiving(op: Op, count: nat): Op
    requires op.stage.HalfGiven?
  {
    if op.work.Adding? || op.shard + 1 >= count then op.(stage := Finished(op.stage.outcome))
    else Op(op.work, op.shard + 1, Entering)
  }

  /** One step of operation o. The counters are decremented without looking. */
  ghost function Advance(limits: Limits, w: World, o: nat): World {
    if o !in w.ops || w.ops[o].shard >= |w.shards| then w
    else
      var op := w.ops[o];
      match op.stage
      case Entering => Lock(w, o)
      case Locked => if op.work.Adding? then LookUp(limits, w, o) else Sweep(w, o)
      case Counted(_) => if op.work.Adding? then ReserveBytes(limits, w, o) else w
      case Reserved(_) => if op.work.Adding? then Store(w, o) else w
      case Refusing => SetStage(w.(groups := w.groups - 1), o, Finished(Rejected(Full)))
      case Removed(groups, bytes, outcome) => SetStage(w.(groups := w.groups - groups), o, HalfGiven(bytes, outcome))
      case HalfGiven(bytes, _) => SetOp(w.(bytes := w.bytes - bytes), o, AfterGiving(op, |w.shards|))
      case Finished(_) => w
  }

  datatype Action =
    | BeginAdd(op: nat, now: int, key: Key, index: nat, total: nat, payload: Bytes)
    | BeginCleanup(op: nat, now: int)
    | BeginClose(op: nat)
    | Go(op: nat)

  /** What AddFragment refuses before it takes a shard's lock. */
  function Entry(w: World, index: nat, total: nat): Stage {
    if total < 2 then Finished(Rejected(InvalidTotal))
    else if index >= total then Finished(Rejected(InvalidIndex))
    else if w.closer.Some? then Finished(Rejected(Closed))
    else Entering
  }

  ghost function Do(cfg: Config, w: World, a: Action): World {
    match a
    case BeginAdd(o, now, key, index, total, payload) =>
      if o in w.ops || !MayRead(w) || w.shards == [] then w
      else SetOp(w, o, Op(Adding(now, key, index, total, payload), Home(cfg.hash, |w.shards|, key),
                          Entry(w, index, total)))
    case BeginCleanup(o, now) =>
      if o in w.ops || !MayRead(w) || w.shards == [] then w else SetOp(w, o, Op(Cleaning(now), 0, Entering))
    case BeginClose(o) =>
      if o in w.ops || !MayWrite(w) || w.shards == [] then w
      else SetOp(w, o, Op(Closing, 0, Entering)).(closer := Some(o))
    case Go(o) => Advance(cfg.limits, w, o)
  }

  ghost function Run(cfg: Config, actions: seq<Action>): World {
    if actions == [] then Start(cfg) else Do(cfg, Run(cfg, actions[..|actions| - 1]), actions[|actions| - 1])
  }

  // ---------------------------------------------------------------------------
  // What an operation under way accounts for
  // ---------------------------------------------------------------------------

  /** Slots that are in the counter for no group in a shard. */
  function GroupsOwed(op: Op): int {
    match op.stage
    case Counted(added) => if added then 1 else 0
    case Reserved(added) => if added then 1 else 0
    case Refusing => 1
    case Removed(groups, _, _) => groups
    case _ => 0
  }

  function BytesOwed(op: Op): int {
    match op.stage
    case Reserved(_) => if op.work.Adding? then Retained(op.work.payload) else 0
    case Removed(_, bytes, _) => bytes
    case HalfGiven(bytes, _) => bytes
    case _ => 0
  }

  ghost function OwedGroups(ops: map<nat, Op>): map<nat, int> { map o | o in ops :: GroupsOwed(ops[o]) }

  ghost function OwedBytes(ops: map<nat, Op>): map<nat, int> { map o | o in ops :: BytesOwed(ops[o]) }

  ghost predicate Exact(limits: Limits, w: World) {
    && w.groups == |Merge(w.shards)| + Sum(OwedGroups(w.ops)) && w.groups <= limits.groups
    && w.bytes == BytesOf(Merge(w.shards)) + Sum(OwedBytes(w.ops)) && w.bytes <= limits.bytes
  }

  // ---------------------------------------------------------------------------
  // The invariant
  // ---------------------------------------------------------------------------

  /** What AddFragment found under the lock is still there. */
  predicate Found(a: Work, added: bool, shard: Shard)
    requires a.Adding?
  {
    if added then a.key !in shard
    else
      && a.key in shard && shard[a.key].total == a.total
      && a.index < |shard[a.key].data| && shard[a.key].data[a.index].None?
  }

  predicate StageOk(op: Op, shard: Shard) {
    match op.stage
    case Counted(added) => op.work.Adding? && Found(op.work, added, shard)
    case Reserved(added) => op.work.Adding? && Found(op.work, added, shard)
    case Refusing => op.work.Adding?
    case Removed(groups, bytes, _) => groups >= 0 && bytes >= 0
    case HalfGiven(bytes, _) => bytes >= 0
    case _ => true
  }

  predicate OpOk(cfg: Config, shards: seq<Shard>, op: Op) {
    && op.shard < |shards|
    && (op.work.Adding? ==> op.shard == Home(cfg.hash, |shards|, op.work.key))
    && (op.work.Adding? && Active(op) ==> 2 <= op.work.total && op.work.index < op.work.total)
    && StageOk(op, shards[op.shard])
  }

  predicate OpsOk(cfg: Config, shards: seq<Shard>, ops: map<nat, Op>) {
    forall o :: o in ops ==> OpOk(cfg, shards, ops[o])
  }

  predicate Exclusive(ops: map<nat, Op>) {
    forall o, p :: o in ops && p in ops && o != p && HoldsLock(ops[o]) && HoldsLock(ops[p]) ==>
        ops[o].shard != ops[p].shard
  }

  /** How many shards Close has emptied. */
  function Emptied(w: World): nat {
    if w.closer.None? || w.closer.value !in w.ops then 0
    else
      var op := w.ops[w.closer.value];
      if op.stage.Finished? then |w.shards| else if op.stage.Entering? || op.stage.Locked? then op.shard
      else op.shard + 1
  }

  /** Once Close has begun only it and cleanup work, and while it works it works alone. */
  predicate CloseOk(w: World) {
    && (forall o :: o in w.ops && w.ops[o].work.Closing? ==> w.closer == Some(o))
    && (w.closer.Some? ==>
         && w.closer.value in w.ops && w.ops[w.closer.value].work.Closing?
         && (forall o :: o in w.ops && Active(w.ops[o]) ==> !w.ops[o].work.Adding?)
         && (Active(w.ops[w.closer.value]) ==> forall o :: o in w.ops && Active(w.ops[o]) ==> o == w.closer.value)
         && (forall i :: 0 <= i < Emptied(w) && i < |w.shards| ==> w.shards[i] == map[]))
  }

  ghost predicate WorldOk(cfg: Config, w: World) {
    && |w.shards| == cfg.count && Routed(cfg.hash, w.shards)
    && OpsOk(cfg, w.shards, w.ops) && Exclusive(w.ops) && CloseOk(w) && Exact(cfg.limits, w)
  }

  // ---------------------------------------------------------------------------
  // Exact counters
  // ---------------------------------------------------------------------------

  lemma SetOwed(ops: map<nat, Op>, o: nat, op: Op)
    ensures Sum(OwedGroups(ops[o := op])) ==
            Sum(OwedGroups(ops)) + GroupsOwed(op) - if o in ops then GroupsOwed(ops[o]) else 0
    ensures Sum(OwedBytes(ops[o := op])) ==
            Sum(OwedBytes(ops)) + BytesOwed(op) - if o in ops then BytesOwed(ops[o]) else 0
  {
    assert OwedGroups(ops[o := op]) == OwedGroups(ops)[o := GroupsOwed(op)];
    assert OwedBytes(ops[o := op]) == OwedBytes(ops)[o := BytesOwed(op)];
    SumUpdate(OwedGroups(ops), o, GroupsOwed(op));
    SumUpdate(OwedBytes(ops), o, BytesOwed(op));
  }

  /** A step whose effect on counters, shards and its own account balances keeps them exact. */
  lemma Balances(limits: Limits, w: World, q: World, o: nat)
    requires Exact(limits, w) && o in q.ops && q.ops == w.ops[o := q.ops[o]]
    requires q.groups - w.groups == |Merge(q.shards)| - |Merge(w.shards)|
                                    + GroupsOwed(q.ops[o]) - (if o in w.ops then GroupsOwed(w.ops[o]) else 0)
    requires q.bytes - w.bytes == BytesOf(Merge(q.shards)) - BytesOf(Merge(w.shards))
                                  + BytesOwed(q.ops[o]) - (if o in w.ops then BytesOwed(w.ops[o]) else 0)
    requires q.groups <= limits.groups && q.bytes <= limits.bytes
    ensures Exact(limits, q)
  {
    SetOwed(w.ops, o, q.ops[o]);
    hide Sum;
    hide OwedGroups;
    hide OwedBytes;
    hide GroupsOwed;
    hide BytesOwed;
    hide Merge;
    hide BytesOf;
  }

  lemma ChangeEntry(all: Shard, key: Key, entry: Option<Group>)
    ensures var next := if entry.Some? then all[key := entry.value] else all - {key};
            && |next| == |all| + (if entry.Some? then 1 else 0) - (if key in all then 1 else 0)
            && BytesOf(next) == BytesOf(all) + (if entry.Some? then entry.value.retained else 0)
                                - (if key in all then all[key].retained else 0)
  {
    hide BytesOf;
    if entry.Some? {
      SizeUpdate(all, key, entry.value);
      SetBytes(all, key, entry.value);
    } else if key in all {
      SizeRemove(all, key);
      RemoveBytes(all, key);
    } else {
      assert all - {key} == all;
    }
  }

  /** One key of the home shard is set or removed. */
  lemma ChangeKey(hash: Key -> nat, shards: seq<Shard>, key: Key, shard: Shard)
    requires Routed(hash, shards) && shard - {key} == shards[Home(hash, |shards|, key)] - {key}
    ensures var i := Home(hash, |shards|, key);
            var (next, before) := (shards[i := shard], shards[i]);
            && Routed(hash, next)
            && |Merge(next)| == |Merge(shards)| + (if key in shard then 1 else 0) - (if key in before then 1 else 0)
            && BytesOf(Merge(next)) == BytesOf(Merge(shards)) + (if key in shard then shard[key].retained else 0)
                                       - (if key in before then before[key].retained else 0)
  {
    hide Merge;
    hide BytesOf;
    SetShard(hash, shards, key, shard);
    Lookup(hash, shards, key);
    hide Routed;
    ChangeEntry(Merge(shards), key, if key in shard then Some(shard[key]) else None);
  }

  lemma LookUpExact(cfg: Config, w: World, o: nat)
    requires Exact(cfg.limits, w) && Routed(cfg.hash, w.shards) && o in w.ops && OpOk(cfg, w.shards, w.ops[o])
    requires w.ops[o].stage.Locked? && w.ops[o].work.Adding?
    ensures Exact(cfg.limits, LookUp(cfg.limits, w, o)) && Routed(cfg.hash, LookUp(cfg.limits, w, o).shards)
  {
    hide Exact;
    hide Routed;
    hide Merge;
    hide BytesOf;
    var (a, i) := (w.ops[o].work, w.ops[o].shard);
    var shard := w.shards[i];
    if a.key in shard && shard[a.key].total != a.total {
      assert shard - {a.key} - {a.key} == shard - {a.key};
      ChangeKey(cfg.hash, w.shards, a.key, shard - {a.key});
    }
    ExactLimits(cfg.limits, w);
    Balances(cfg.limits, w, LookUp(cfg.limits, w, o), o);
  }

  lemma ExactLimits(limits: Limits, w: World)
    requires Exact(limits, w)
    ensures w.groups <= limits.groups && w.bytes <= limits.bytes
  {
  }

  lemma StoreExact(cfg: Config, w: World, o: nat)
    requires Exact(cfg.limits, w) && Routed(cfg.hash, w.shards) && o in w.ops && OpOk(cfg, w.shards, w.ops[o])
    requires w.ops[o].stage.Reserved? && w.ops[o].work.Adding?
    ensures Exact(cfg.limits, Store(w, o)) && Routed(cfg.hash, Store(w, o).shards)
  {
    hide Exact;
    hide Routed;
    hide Merge;
    hide BytesOf;
    hide JoinSlots;
    var (a, i) := (w.ops[o].work, w.ops[o].shard);
    var shard := w.shards[i];
    var found := if a.key in shard then shard[a.key] else NewGroup(a.total, a.now);
    var g := Place(found, a.index, a.payload);
    assert (shard - {a.key}) - {a.key} == shard - {a.key};
    assert shard[a.key := g] - {a.key} == shard - {a.key};
    ChangeKey(cfg.hash, w.shards, a.key, if g.received == g.total then shard - {a.key} else shard[a.key := g]);
    ExactLimits(cfg.limits, w);
    Balances(cfg.limits, w, Store(w, o), o);
  }

  lemma KeptWithin(work: Work, shard: Shard)
    ensures Within(Kept(work, shard), shard) && |Kept(work, shard)| <= |shard|
    ensures BytesOf(Kept(work, shard)) <= BytesOf(shard)
  {
    RemainingBytes(shard, Kept(work, shard));
  }

  lemma SweepExact(cfg: Config, w: World, o: nat)
    requires Exact(cfg.limits, w) && Routed(cfg.hash, w.shards) && o in w.ops && OpOk(cfg, w.shards, w.ops[o])
    requires w.ops[o].stage.Locked?
    ensures Exact(cfg.limits, Sweep(w, o)) && Routed(cfg.hash, Sweep(w, o).shards)
  {
    hide Exact;
    hide Routed;
    hide Merge;
    hide BytesOf;
    var i := w.ops[o].shard;
    var left := Kept(w.ops[o].work, w.shards[i]);
    hide Kept;
    KeptWithin(w.ops[o].work, w.shards[i]);
    Shrink(cfg.hash, w.shards, i, left);
    ExactLimits(cfg.limits, w);
    Balances(cfg.limits, w, Sweep(w, o), o);
  }

  /** The steps that only move a counter or the stage. */
  lemma CounterExact(cfg: Config, w: World, o: nat)
    requires Exact(cfg.limits, w) && o in w.ops && OpOk(cfg, w.shards, w.ops[o])
    requires !w.ops[o].stage.Locked? && !w.ops[o].stage.Reserved?
    ensures Exact(cfg.limits, Advance(cfg.limits, w, o)) && Advance(cfg.limits, w, o).shards == w.shards
  {
    hide Exact;
    hide Merge;
    hide BytesOf;
    hide LockFree;
    ExactLimits(cfg.limits, w);
    if Advance(cfg.limits, w, o) != w {
      Balances(cfg.limits, w, Advance(cfg.limits, w, o), o);
    }
  }

  lemma AdvanceExact(cfg: Config, w: World, o: nat)
    requires Exact(cfg.limits, w) && Routed(cfg.hash, w.shards) && OpsOk(cfg, w.shards, w.ops)
    ensures Exact(cfg.limits, Advance(cfg.limits, w, o)) && Routed(cfg.hash, Advance(cfg.limits, w, o).shards)
  {
    hide Exact;
    hide Routed;
    hide LookUp;
    hide Store;
    hide Sweep;
    if o in w.ops {
      assert OpOk(cfg, w.shards, w.ops[o]);
      if w.ops[o].stage.Locked? {
        if w.ops[o].work.Adding? {
          LookUpExact(cfg, w, o);
        } else {
          SweepExact(cfg, w, o);
        }
      } else if w.ops[o].stage.Reserved? {
        StoreExact(cfg, w, o);
      } else {
        CounterExact(cfg, w, o);
      }
    }
  }

  // ---------------------------------------------------------------------------
  // Operations and locks
  // ---------------------------------------------------------------------------

  /** Whoever holds the lock of a shard may change it: nobody else relies on what is in it. */
  lemma OthersOk(cfg: Config, w: World, o: nat, shard: Shard)
    requires OpsOk(cfg, w.shards, w.ops) && Exclusive(w.ops) && o in w.ops && HoldsLock(w.ops[o])
    ensures forall p :: p in w.ops && p != o ==> OpOk(cfg, w.shards[w.ops[o].shard := shard], w.ops[p])
  {
    var i := w.ops[o].shard;
    assert OpOk(cfg, w.shards, w.ops[o]);
    forall p | p in w.ops && p != o
      ensures OpOk(cfg, w.shards[i := shard], w.ops[p])
    {
      assert OpOk(cfg, w.shards, w.ops[p]);
    }
  }

  lemma LookUpOwn(cfg: Config, w: World, o: nat)
    requires o in w.ops && OpOk(cfg, w.shards, w.ops[o]) && w.ops[o].stage.Locked? && w.ops[o].work.Adding?
    ensures var q := LookUp(cfg.limits, w, o);
            OpOk(cfg, q.shards, q.ops[o]) && q.shards == w.shards[w.ops[o].shard := q.shards[w.ops[o].shard]]
  {
  }

  lemma StoreOwn(cfg: Config, w: World, o: nat)
    requires o in w.ops && OpOk(cfg, w.shards, w.ops[o]) && w.ops[o].stage.Reserved? && w.ops[o].work.Adding?
    ensures var q := Store(w, o);
            OpOk(cfg, q.shards, q.ops[o]) && q.shards == w.shards[w.ops[o].shard := q.shards[w.ops[o].shard]]
  {
    hide JoinSlots;
  }

  lemma SweepOwn(cfg: Config, w: World, o: nat)
    requires o in w.ops && OpOk(cfg, w.shards, w.ops[o]) && w.ops[o].stage.Locked? && !w.ops[o].work.Adding?
    ensures var q := Sweep(w, o);
            OpOk(cfg, q.shards, q.ops[o]) && q.shards == w.shards[w.ops[o].shard := q.shards[w.ops[o].shard]]
  {
    KeptWithin(w.ops[o].work, w.shards[w.ops[o].shard]);
    hide Kept;
    hide BytesOf;
  }

  lemma OwnOk(cfg: Config, w: World, o: nat)
    requires o in w.ops && OpOk(cfg, w.shards, w.ops[o])
    ensures var q := Advance(cfg.limits, w, o);
            && OpOk(cfg, q.shards, q.ops[o]) && q.ops == w.ops[o := q.ops[o]]
            && q.shards == w.shards[w.ops[o].shard := q.shards[w.ops[o].shard]]
            && (q.shards != w.shards ==> HoldsLock(w.ops[o]))
  {
    var op := w.ops[o];
    if op.stage.Locked? {
      if op.work.Adding? {
        LookUpOwn(cfg, w, o);
      } else {
        SweepOwn(cfg, w, o);
      }
    } else if op.stage.Reserved? {
      StoreOwn(cfg, w, o);
    }
    hide LockFree;
    hide Found;
    hide Kept;
    hide BytesOf;
    hide JoinSlots;
  }

  lemma AdvanceOps(cfg: Config, w: World, o: nat)
    requires OpsOk(cfg, w.shards, w.ops) && Exclusive(w.ops)
    ensures OpsOk(cfg, Advance(cfg.limits, w, o).shards, Advance(cfg.limits, w, o).ops)
  {
    if o in w.ops {
      OwnOk(cfg, w, o);
      var q := Advance(cfg.limits, w, o);
      hide Advance;
      hide OpOk;
      if q.shards != w.shards {
        OthersOk(cfg, w, o, q.shards[w.ops[o].shard]);
      }
    }
  }

  /** A lock is taken only when it is free, and kept on the same shard. */
  lemma LockOnce(w: World, o: nat, limits: Limits)
    requires o in w.ops
    ensures var q := Advance(limits, w, o);
            && o in q.ops && q.ops == w.ops[o := q.ops[o]] && q.closer == w.closer && |q.shards| == |w.shards|
            && (HoldsLock(q.ops[o]) ==> q.ops[o].shard == w.ops[o].shard)
            && (HoldsLock(q.ops[o]) ==> HoldsLock(w.ops[o]) || LockFree(w.ops, w.ops[o].shard))
  {
    hide LockFree;
    hide Kept;
    hide BytesOf;
    hide JoinSlots;
  }

  lemma AdvanceExclusive(w: World, o: nat, limits: Limits)
    requires Exclusive(w.ops)
    ensures Exclusive(Advance(limits, w, o).ops)
  {
    if o in w.ops {
      LockOnce(w, o, limits);
    }
    hide Advance;
    hide HoldsLock;
  }

  // ---------------------------------------------------------------------------
  // Close
  // ---------------------------------------------------------------------------

  /** A step keeps the work, ends nothing twice and touches at most its own shard. */
  lemma AdvanceFrame(limits: Limits, w: World, o: nat)
    requires o in w.ops && w.ops[o].shard < |w.shards|
    ensures var q := Advance(limits, w, o);
            && o in q.ops && q.ops[o].work == w.ops[o].work && (!Active(w.ops[o]) ==> q == w)
            && (forall i :: 0 <= i < |w.shards| && i != w.ops[o].shard ==> q.shards[i] == w.shards[i])
  {
    hide LockFree;
    hide Kept;
    hide BytesOf;
    hide JoinSlots;
  }

  /** Close moves on only over shards it has emptied. */
  lemma CloserMoves(limits: Limits, w: World)
    requires w.closer.Some? && w.closer.value in w.ops && w.ops[w.closer.value].work.Closing?
    requires w.ops[w.closer.value].shard < |w.shards| &&
             StageOk(w.ops[w.closer.value], w.shards[w.ops[w.closer.value].shard])
    ensures var q := Advance(limits, w, w.closer.value);
            var i := w.ops[w.closer.value].shard;
            && q.closer == w.closer && |q.shards| == |w.shards|
            && ((Emptied(q) == Emptied(w) && q.shards == w.shards) ||
                (Emptied(w) == i && Emptied(q) == i + 1 && q.shards[i] == map[]))
  {
    hide LockFree;
    hide BytesOf;
    hide JoinSlots;
  }

  /** Cleanup of an empty shard leaves it empty. */
  lemma CleaningMoves(limits: Limits, w: World, o: nat)
    requires o in w.ops && w.ops[o].work.Cleaning? && w.ops[o].shard < |w.shards| && w.shards[w.ops[o].shard] == map[]
    ensures Advance(limits, w, o).shards == w.shards
  {
    hide LockFree;
    hide BytesOf;
    assert Survivors(map[], w.ops[o].work.now) == map[];
  }

  lemma AdvanceClose(cfg: Config, w: World, o: nat)
    requires OpsOk(cfg, w.shards, w.ops) && CloseOk(w)
    ensures CloseOk(Advance(cfg.limits, w, o))
  {
    hide Advance;
    if o in w.ops {
      assert OpOk(cfg, w.shards, w.ops[o]);
      LockOnce(w, o, cfg.limits);
      AdvanceFrame(cfg.limits, w, o);
      hide HoldsLock;
      if w.closer.Some? && Active(w.ops[o]) {
        if o == w.closer.value {
          CloserMoves(cfg.limits, w);
        } else {
          CleaningMoves(cfg.limits, w, o);
        }
      }
    } else {
      StrangerIdle(cfg.limits, w, o);
    }
  }

  lemma StrangerIdle(limits: Limits, w: World, o: nat)
    requires o !in w.ops
    ensures Advance(limits, w, o) == w
  {
  }

  // ---------------------------------------------------------------------------
  // Every run
  // ---------------------------------------------------------------------------

  /** A new operation accounts for nothing. */
  lemma BeginExact(limits: Limits, w: World, q: World, o: nat)
    requires Exact(limits, w) && o !in w.ops && o in q.ops && (q.ops[o].stage.Entering? || q.ops[o].stage.Finished?)
    requires q.(ops := w.ops, closer := w.closer) == w && q.ops == w.ops[o := q.ops[o]]
    ensures Exact(limits, q)
  {
    hide Merge;
    hide BytesOf;
    hide Sum;
    Balances(limits, w, q, o);
  }

  lemma BeginOk(cfg: Config, w: World, a: Action)
    requires WorldOk(cfg, w) && !a.Go?
    ensures WorldOk(cfg, Do(cfg, w, a))
  {
    hide Exact;
    hide OpOk;
    hide Routed;
    hide CloseOk;
    hide Do;
    hide HoldsLock;
    var q := Do(cfg, w, a);
    if q != w {
      RoutedSome(cfg.hash, w.shards);
      BeginOpOk(cfg, w, a);
      BeginExact(cfg.limits, w, q, a.op);
      BeginClosing(cfg, w, a);
    }
  }

  lemma RoutedSome(hash: Key -> nat, shards: seq<Shard>)
    requires Routed(hash, shards)
    ensures shards != []
  {
  }

  lemma BeginOpOk(cfg: Config, w: World, a: Action)
    requires w.shards != [] && !a.Go? && Do(cfg, w, a) != w
    ensures var q := Do(cfg, w, a);
            && a.op !in w.ops && a.op in q.ops && q.ops == w.ops[a.op := q.ops[a.op]]
            && q.(ops := w.ops, closer := w.closer) == w
            && OpOk(cfg, w.shards, q.ops[a.op]) && !HoldsLock(q.ops[a.op])
            && (q.ops[a.op].stage.Entering? || q.ops[a.op].stage.Finished?)
  {
  }

  lemma BeginClosing(cfg: Config, w: World, a: Action)
    requires CloseOk(w) && !a.Go? && Do(cfg, w, a) != w
    ensures CloseOk(Do(cfg, w, a))
  {
  }

  lemma DoOk(cfg: Config, w: World, a: Action)
    requires WorldOk(cfg, w)
    ensures WorldOk(cfg, Do(cfg, w, a))
  {
    hide Merge;
    hide BytesOf;
    if a.Go? {
      AdvanceExact(cfg, w, a.op);
      AdvanceOps(cfg, w, a.op);
      AdvanceExclusive(w, a.op, cfg.limits);
      AdvanceClose(cfg, w, a.op);
      AdvanceCount(cfg.limits, w, a.op);
    } else {
      BeginOk(cfg, w, a);
    }
    hide Advance;
    hide Exact;
    hide Routed;
    hide OpsOk;
    hide Exclusive;
    hide CloseOk;
  }

  lemma AdvanceCount(limits: Limits, w: World, o: nat)
    ensures |Advance(limits, w, o).shards| == |w.shards|
  {
    if o in w.ops {
      LockOnce(w, o, limits);
      hide Advance;
    }
  }

  lemma {:induction false} EmptyShards(n: nat)
    ensures Merge(seq(n, _ => map[])) == map[]
  {
    if n > 0 {
      EmptyShards(n - 1);
      var all: seq<Shard> := seq(n, _ => map[]);
      assert all[..n - 1] == seq(n - 1, _ => map[]);
    }
  }

  lemma StartOk(cfg: Config)
    requires cfg.count > 0
    ensures WorldOk(cfg, Start(cfg))
  {
    EmptyShards(cfg.count);
    SumZero(Sizes(map[]));
    SumZero(OwedGroups(map[]));
    SumZero(OwedBytes(map[]));
    hide Merge;
  }

  lemma {:induction false} RunOk(cfg: Config, actions: seq<Action>)
    requires cfg.count > 0
    ensures WorldOk(cfg, Run(cfg, actions))
  {
    hide Do;
    hide WorldOk;
    if actions == [] {
      StartOk(cfg);
    } else {
      RunOk(cfg, actions[..|actions| - 1]);
      DoOk(cfg, Run(cfg, actions[..|actions| - 1]), actions[|actions| - 1]);
    }
  }

  /** In every interleaving both counters stay within their limits, and each is what the shards
      hold plus what operations under way have reserved and not stored, or removed and not yet
      given back. */
  lemma CountersExact(cfg: Config, actions: seq<Action>)
    requires cfg.count > 0
    ensures Exact(cfg.limits, Run(cfg, actions))
  {
    RunOk(cfg, actions);
    hide Run;
    hide Exact;
  }

  /** Once no operation is under way the counters are exactly the groups and bytes in the shards:
      a finished operation owes nothing, whichever way it ended. */
  lemma ExactAtRest(cfg: Config, actions: seq<Action>)
    requires cfg.count > 0 && forall o :: o in Run(cfg, actions).ops ==> !Active(Run(cfg, actions).ops[o])
    ensures var w := Run(cfg, actions); w.groups == |Merge(w.shards)| && w.bytes == BytesOf(Merge(w.shards))
  {
    var w := Run(cfg, actions);
    CountersExact(cfg, actions);
    hide Run;
    hide Merge;
    hide BytesOf;
    SumZero(OwedGroups(w.ops));
    SumZero(OwedBytes(w.ops));
  }

  /** When Close has finished nothing is held, and nothing ever is again. */
  lemma ClosedIsEmpty(cfg: Config, actions: seq<Action>)
    requires cfg.count > 0
    requires var w := Run(cfg, actions); exists o :: o in w.ops && w.ops[o].work.Closing? && !Active(w.ops[o])
    ensures var w := Run(cfg, actions); forall i :: 0 <= i < |w.shards| ==> w.shards[i] == map[]
  {
    RunOk(cfg, actions);
    hide Run;
    hide Exact;
    hide Routed;
    hide OpsOk;
  }

  // ---------------------------------------------------------------------------
  // Alone, the steps are the atomic operation
  // ---------------------------------------------------------------------------

  ghost function Steps(limits: Limits, w: World, o: nat, n: nat): World
    decreases n
  {
    if n == 0 then w else Steps(limits, Advance(limits, w, o), o, n - 1)
  }

  /** Operation o has finished with what AddTo says, in its shard, both counters and the outcome. */
  predicate Added(w: World, o: nat, i: nat, result: (Held, Outcome))
    requires o in w.ops && i < |w.shards|
  {
    w.shards[i] == result.0.groups && Counters(w.groups, w.bytes) == result.0.counters &&
        w.ops[o].stage == Finished(result.1)
  }

  lemma {:induction false} FinishedStays(limits: Limits, w: World, o: nat, n: nat)
    requires o in w.ops && w.ops[o].stage.Finished?
    ensures Steps(limits, w, o, n) == w
  {
    if n > 0 {
      FinishedStays(limits, w, o, n - 1);
    }
  }

  /** From the removal of a group two steps give back what it held. */
  lemma RemovedFinishes(limits: Limits, w: World, o: nat, n: nat)
    requires o in w.ops && w.ops[o].work.Adding? && w.ops[o].shard < |w.shards| && w.ops[o].stage.Removed? && n >= 2
    ensures var q := Steps(limits, w, o, n);
            var stage := w.ops[o].stage;
            && o in q.ops && q.shards == w.shards && q.groups == w.groups - stage.groups &&
               q.bytes == w.bytes - stage.bytes
            && q.ops[o].stage == Finished(stage.outcome)
  {
    var half := Advance(limits, w, o);
    var done := Advance(limits, half, o);
    assert Steps(limits, w, o, n) == Steps(limits, half, o, n - 1) == Steps(limits, done, o, n - 2);
    FinishedStays(limits, done, o, n - 2);
  }

  lemma StoreFinishes(limits: Limits, w: World, o: nat, i: nat, a: Work, n: nat, h: Held)
    requires a.Adding? && i < |w.shards| && o in w.ops && n >= 3 && w.ops[o].stage.Reserved? &&
             w.ops[o] == Op(a, i, w.ops[o].stage)
    requires h.groups == w.shards[i] && Found(a, w.ops[o].stage.added, w.shards[i]) && 2 <= a.total && a.index < a.total
    requires HasRoom(limits, h, a.key, a.payload)
    requires Counters(w.groups, w.bytes) ==
             Counters(h.counters.groups + (if w.ops[o].stage.added then 1 else 0),
                      h.counters.bytes + Retained(a.payload))
    ensures var q := Steps(limits, w, o, n);
            && o in q.ops && |q.shards| == |w.shards|
            && Added(q, o, i, AddTo(limits, h, a.now, a.key, a.index, a.total, a.payload))
  {
    hide JoinSlots;
    hide Retained;
    var next := Store(w, o);
    assert Steps(limits, w, o, n) == Steps(limits, next, o, n - 1);
    if a.key in w.shards[i] || next.ops[o].stage.Removed? {
      var g := Place(GroupFor(h, a.key, a.total, a.now), a.index, a.payload);
      assert h.groups[a.key := g] - {a.key} == h.groups - {a.key};
    }
    if next.ops[o].stage.Removed? {
      RemovedFinishes(limits, next, o, n - 1);
    } else {
      FinishedStays(limits, next, o, n - 1);
    }
  }

  lemma CountedFinishes(limits: Limits, w: World, o: nat, i: nat, a: Work, n: nat, h: Held)
    requires a.Adding? && i < |w.shards| && o in w.ops && n >= 4 && w.ops[o].stage.Counted? &&
             w.ops[o] == Op(a, i, w.ops[o].stage)
    requires h.groups == w.shards[i] && Found(a, w.ops[o].stage.added, w.shards[i]) && 2 <= a.total && a.index < a.total
    requires w.ops[o].stage.added ==> 1 <= limits.groups - h.counters.groups
    requires w.bytes == h.counters.bytes && w.groups == h.counters.groups + if w.ops[o].stage.added then 1 else 0
    ensures var q := Steps(limits, w, o, n);
            && o in q.ops && |q.shards| == |w.shards|
            && Added(q, o, i, AddTo(limits, h, a.now, a.key, a.index, a.total, a.payload))
  {
    hide JoinSlots;
    hide Retained;
    hide Store;
    var next := ReserveBytes(limits, w, o);
    assert Advance(limits, w, o) == next && Steps(limits, w, o, n) == Steps(limits, next, o, n - 1);
    if next.ops[o].stage.Reserved? {
      StoreFinishes(limits, next, o, i, a, n - 1, h);
    } else if next.ops[o].stage.Refusing? {
      var refused := Advance(limits, next, o);
      assert Steps(limits, next, o, n - 1) == Steps(limits, refused, o, n - 2);
      FinishedStays(limits, refused, o, n - 2);
    } else {
      FinishedStays(limits, next, o, n - 1);
    }
  }

  lemma LockedFinishes(limits: Limits, w: World, o: nat, i: nat, a: Work, n: nat, h: Held)
    requires a.Adding? && i < |w.shards| && o in w.ops && n >= 5 && w.ops[o] == Op(a, i, Locked)
    requires h == Held(w.shards[i], Counters(w.groups, w.bytes)) && 2 <= a.total && a.index < a.total
    ensures var q := Steps(limits, w, o, n);
            && o in q.ops && |q.shards| == |w.shards|
            && Added(q, o, i, AddTo(limits, h, a.now, a.key, a.index, a.total, a.payload))
  {
    hide JoinSlots;
    hide Retained;
    var next := LookUp(limits, w, o);
    assert Advance(limits, w, o) == next && Steps(limits, w, o, n) == Steps(limits, next, o, n - 1);
    if next.ops[o].stage.Counted? {
      CountedFinishes(limits, next, o, i, a, n - 1, h);
    } else if next.ops[o].stage.Removed? {
      RemovedFinishes(limits, next, o, n - 1);
    } else {
      FinishedStays(limits, next, o, n - 1);
    }
  }

  /** With nobody else under way, AddFragment taken step by step is AddTo on the home shard. */
  lemma AloneIsAtomic(cfg: Config, w: World, o: nat, a: Work)
    requires WorldOk(cfg, w) && MayWrite(w) && o !in w.ops && a.Adding?
    ensures var i := Home(cfg.hash, |w.shards|, a.key);
            var h := Held(w.shards[i], Counters(w.groups, w.bytes));
            var q := Steps(cfg.limits, Do(cfg, w, BeginAdd(o, a.now, a.key, a.index, a.total, a.payload)), o, 6);
            && o in q.ops && |q.shards| == |w.shards|
            && Added(q, o, i, AddTo(cfg.limits, h, a.now, a.key, a.index, a.total, a.payload))
  {
    hide Exact;
    hide OpsOk;
    hide Exclusive;
    RoutedSome(cfg.hash, w.shards);
    hide Routed;
    hide CloseOk;
    var i := Home(cfg.hash, |w.shards|, a.key);
    var begun := Do(cfg, w, BeginAdd(o, a.now, a.key, a.index, a.total, a.payload));
    if begun.ops[o].stage.Finished? {
      FinishedStays(cfg.limits, begun, o, 6);
    } else {
      var locked := Advance(cfg.limits, begun, o);
      assert LockFree(begun.ops, i);
      assert Steps(cfg.limits, begun, o, 6) == Steps(cfg.limits, locked, o, 5);
      LockedFinishes(cfg.limits, locked, o, i, a, 5, Held(w.shards[i], Counters(w.groups, w.bytes)));
    }
    hide Steps;
    hide AddTo;
  }
}

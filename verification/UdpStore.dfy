/** ShardedFragmentAssembler as an object: its shard array, counters and loops. */
module UdpStore {
  import opened Basics
  import opened MapSum
  import opened UdpAssembler
  import opened UdpShards
  import opened UdpWire

  class ShardedAssembler {
    const hash: Key -> nat
    const limits: Limits
    const shards: array<Shard>
    var retainedGroups: int
    var retainedBytes: int
    var closed: bool

    constructor (hash: Key -> nat, count: nat, limits: Limits)
      requires count > 0
      ensures Valid() && fresh(shards) && this.limits == limits && View() == Held(map[], Counters(0, 0)) && !closed
    {
      this.hash, this.limits := hash, limits;
      shards := new Shard[count](_ => map[]);
      retainedGroups, retainedBytes, closed := 0, 0, false;
      new;
      EmptyMerge(shards[..]);
      SumZero(Sizes(map[]));
    }

    /** The single-map assembler this one stands for. */
    ghost function View(): Held
      reads this, shards
    {
      Held(Merge(shards[..]), Counters(retainedGroups, retainedBytes))
    }

    ghost predicate Valid()
      reads this, shards
    {
      Routed(hash, shards[..]) && HeldOk(limits, View())
    }

    /** joinFragmentGroup. */
    method JoinGroup(data: seq<Option<Bytes>>) returns (joined: Bytes)
      ensures joined == JoinSlots(data)
    {
      joined := [];
      for i := 0 to |data|
        invariant joined == JoinSlots(data[..i])
      {
        assert data[..i + 1][..i] == data[..i];
        if data[i].Some? {
          joined := joined + data[i].value;
        }
      }
      assert data[..|data|] == data;
    }

    /** The body of AddFragment under the shard lock. */
    method AddLocked(i: nat, now: int, key: Key, index: nat, total: nat, payload: Bytes) returns (outcome: Outcome)
      requires i < shards.Length
      requires key in shards[i] ==> |shards[i][key].data| == shards[i][key].total
      modifies this, shards
      ensures var local := AddTo(limits, Held(old(shards[i]), Counters(old(retainedGroups), old(retainedBytes))), now,
                                 key, index, total, payload);
              && outcome == local.1 && retainedGroups == local.0.counters.groups &&
                 retainedBytes == local.0.counters.bytes
              && shards[..] == old(shards[..])[i := local.0.groups]
      ensures closed == old(closed)
    {
      hide JoinSlots;
      if total < 2 {
        return Rejected(InvalidTotal);
      }
      if index >= total {
        return Rejected(InvalidIndex);
      }
      var exists_ := key in shards[i];
      if exists_ {
        var group := shards[i][key];
        if group.total != total {
          shards[i] := shards[i] - {key};
          retainedGroups, retainedBytes := retainedGroups - 1, retainedBytes - group.retained;
          return Rejected(TotalMismatch);
        }
        if group.data[index].Some? {
          return More;
        }
      }
      if !exists_ && 1 > limits.groups - retainedGroups {
        return Rejected(Full);
      }
      var size := if |payload| <= MAX_PIECE then MAX_PIECE else |payload|;
      if size > limits.bytes - retainedBytes {
        return Rejected(Full);
      }
      var group := if exists_ then shards[i][key] else Group(total, 0, seq(total, _ => None), now, 0);
      retainedGroups, retainedBytes := retainedGroups + (if exists_ then 0 else 1), retainedBytes + size;
      group := group.(retained := group.retained + size, data := group.data[index := Some(payload)],
                      received := group.received + 1);
      if group.received == group.total {
        var joined := JoinGroup(group.data);
        assert shards[i][key := group] - {key} == shards[i] - {key};
        shards[i] := shards[i] - {key};
        retainedGroups, retainedBytes := retainedGroups - 1, retainedBytes - group.retained;
        return Complete(joined);
      }
      shards[i] := shards[i][key := group];
      return More;
    }

    /** AddFragment refines the single map, for every shard count and every hash. */
    method AddFragment(now: int, session: nat, id: nat, index: nat, total: nat, payload: Bytes)
        returns (outcome: Outcome)
      requires Valid()
      modifies this, shards
      ensures Valid() && closed == old(closed)
      ensures closed ==> outcome.Rejected? && View() == old(View())
      ensures !closed ==> (View(), outcome) == AddTo(limits, old(View()), now, Key(session, id), index, total, payload)
    {
      if closed {
        return Rejected(Closed);
      }
      var key := Key(session, id);
      var i := Home(hash, shards.Length, key);
      ghost var before := shards[..];
      AddRefines(hash, limits, before, Counters(retainedGroups, retainedBytes), now, key, index, total, payload);
      AddOk(limits, View(), now, key, index, total, payload);
      Lookup(hash, before, key);
      hide AddTo;
      hide Routed;
      hide Merge;
      outcome := AddLocked(i, now, key, index, total, payload);
    }

    /** cleanupExpiredFragmentGroups. */
    method CleanupGroups(groups: Shard, now: int) returns (left: Shard, releasedGroups: int, releasedBytes: int)
      ensures left == Survivors(groups, now)
      ensures releasedGroups == |groups| - |left| && releasedBytes == BytesOf(groups) - BytesOf(left)
    {
      hide BytesOf;
      left, releasedGroups, releasedBytes := groups, 0, 0;
      var keys := groups.Keys;
      while keys != {}
        invariant keys <= left.Keys && Within(left, groups)
        invariant forall key :: key in groups && key !in left ==> Expired(groups[key], now)
        invariant forall key :: key in groups && key in left && key !in keys ==> !Expired(groups[key], now)
        invariant releasedGroups == |groups| - |left| && releasedBytes == BytesOf(groups) - BytesOf(left)
        decreases keys
      {
        var key :| key in keys;
        keys := keys - {key};
        if now - left[key].created > TIMEOUT {
          SizeRemove(left, key);
          RemoveBytes(left, key);
          releasedGroups, releasedBytes := releasedGroups + 1, releasedBytes + left[key].retained;
          left := left - {key};
        }
      }
    }

    /** One turn of the cleanup loop: the expired groups of a shard go, and their counts with them. */
    method CleanupShard(i: nat, now: int)
      requires Valid() && i < shards.Length
      modifies this, shards
      ensures Valid() && closed == old(closed)
      ensures shards[..] == old(shards[..])[i := Survivors(old(shards[i]), now)]
    {
      hide Routed;
      hide Merge;
      hide BytesOf;
      hide HeldOk;
      ghost var before := shards[..];
      var left, releasedGroups, releasedBytes := CleanupGroups(shards[i], now);
      ShrinkOk(hash, limits, before, Counters(retainedGroups, retainedBytes), i, left);
      hide Survivors;
      shards[i] := left;
      retainedGroups, retainedBytes := retainedGroups - releasedGroups, retainedBytes - releasedBytes;
      assert shards[..] == before[i := left];
    }

    /** cleanupLoop over all shards is expiry of the single map. */
    method Cleanup(now: int)
      requires Valid()
      modifies this, shards
      ensures Valid() && closed == old(closed)
      ensures View() == Expire(old(View()), now)
    {
      hide Merge;
      hide BytesOf;
      hide GroupsOk;
      hide CountersOk;
      for i := 0 to shards.Length
        invariant Valid() && closed == old(closed)
        invariant forall j :: 0 <= j < shards.Length ==>
                  shards[j] == if j < i then Survivors(old(shards[j]), now) else old(shards[j])
      {
        CleanupShard(i, now);
      }
      MergeSurvivors(hash, old(shards[..]), shards[..], now);
      ExactCounters(limits, old(View()), View());
    }

    /** Close: everything goes, and nothing is accepted afterwards. */
    method Close()
      requires Valid()
      modifies this, shards
      ensures Valid() && closed && View() == Held(map[], Counters(0, 0))
    {
      hide Merge;
      hide Routed;
      hide BytesOf;
      hide HeldOk;
      closed := true;
      for i := 0 to shards.Length
        invariant closed && Valid()
        invariant forall j :: 0 <= j < i ==> shards[j] == map[]
      {
        ghost var all := shards[..];
        var count, bytes := SumUp(shards[i]);
        ShrinkOk(hash, limits, all, Counters(retainedGroups, retainedBytes), i, map[]);
        NoBytes();
        shards[i] := map[];
        retainedGroups, retainedBytes := retainedGroups - count, retainedBytes - bytes;
        assert shards[..] == all[i := map[]];
      }
      EmptyMerge(shards[..]);
      EmptyCounters(limits, View());
    }

    /** releaseAllFragmentGroups: what a shard gives back. */
    method SumUp(groups: Shard) returns (count: int, bytes: int)
      ensures count == |groups| && bytes == BytesOf(groups)
    {
      hide BytesOf;
      count, bytes := 0, 0;
      var left := groups;
      while left != map[]
        invariant Within(left, groups) && count == |groups| - |left| && bytes == BytesOf(groups) - BytesOf(left)
        decreases |left|
      {
        var key :| key in left;
        SizeRemove(left, key);
        RemoveBytes(left, key);
        count, bytes := count + 1, bytes + left[key].retained;
        left := left - {key};
      }
      NoBytes();
    }
  }

  lemma NoBytes()
    ensures BytesOf(map[]) == 0
  {
    SumZero(Sizes(map[]));
  }

  lemma EmptyCounters(limits: Limits, h: Held)
    requires HeldOk(limits, h) && h.groups == map[]
    ensures h.counters == Counters(0, 0)
  {
    NoBytes();
  }

  /** Keeping part of a shard, with the counters of the rest given back, keeps the invariant. */
  lemma ShrinkOk(hash: Key -> nat, limits: Limits, shards: seq<Shard>, c: Counters, i: nat, left: Shard)
    requires Routed(hash, shards) && i < |shards| && Within(left, shards[i]) && HeldOk(limits, Held(Merge(shards), c))
    ensures var next := shards[i := left];
            && Routed(hash, next)
            && HeldOk(limits, Held(Merge(next),
                                   Counters(c.groups - (|shards[i]| - |left|),
                                            c.bytes - (BytesOf(shards[i]) - BytesOf(left)))))
  {
    hide Merge;
    hide BytesOf;
    hide GroupOk;
    Shrink(hash, shards, i, left);
    var before, after := Merge(shards), Merge(shards[i := left]);
    forall key | key in after
      ensures key in before && after[key] == before[key]
    {
      ShrunkHas(hash, shards, i, left, key);
    }
    RemainingBytes(before, after);
  }

  lemma MergeSurvivors(hash: Key -> nat, shards: seq<Shard>, after: seq<Shard>, now: int)
    requires Routed(hash, shards) && Routed(hash, after) && |after| == |shards|
    requires forall j :: 0 <= j < |shards| ==> after[j] == Survivors(shards[j], now)
    ensures Merge(after) == Survivors(Merge(shards), now)
  {
    forall key: Key
      ensures key in Merge(after) <==> key in Survivors(Merge(shards), now)
      ensures key in Merge(after) ==> Merge(after)[key] == Survivors(Merge(shards), now)[key]
    {
      Lookup(hash, shards, key);
      Lookup(hash, after, key);
    }
    hide Merge;
  }

  lemma ExactCounters(limits: Limits, h: Held, after: Held)
    requires CountersOk(limits, h) && CountersOk(limits, after)
    ensures after.counters == Counters(h.counters.groups - (|h.groups| - |after.groups|),
                                       h.counters.bytes - (BytesOf(h.groups) - BytesOf(after.groups)))
  {
    hide BytesOf;
  }

  lemma {:induction false} EmptyMerge(shards: seq<Shard>)
    requires forall i :: 0 <= i < |shards| ==> shards[i] == map[]
    ensures Merge(shards) == map[]
  {
    if shards != [] {
      EmptyMerge(shards[..|shards| - 1]);
    }
  }
}

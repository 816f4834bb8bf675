/** The sharded assembler: an array of maps behind any hash, refining the single map. */
module UdpShards {
  import opened Basics
  import opened MapSum
  import opened UdpAssembler

  type Shard = map<Key, Group>

  function Merge(shards: seq<Shard>): Shard {
    if shards == [] then map[] else Merge(shards[..|shards| - 1]) + shards[|shards| - 1]
  }

  function Home(hash: Key -> nat, n: nat, key: Key): (i: nat)
    requires n > 0
    ensures i < n
  {
    hash(key) % n
  }

  /** Every group sits in the shard its key hashes to. */
  ghost predicate Routed(hash: Key -> nat, shards: seq<Shard>) {
    shards != [] && forall i, key :: 0 <= i < |shards| && key in shards[i] ==> Home(hash, |shards|, key) == i
  }

  lemma {:induction false} MergeHas(shards: seq<Shard>, key: Key, i: nat)
    requires i < |shards| && forall j :: 0 <= j < |shards| && key in shards[j] ==> j == i
    ensures key in Merge(shards) <==> key in shards[i]
    ensures key in shards[i] ==> Merge(shards)[key] == shards[i][key]
  {
    var last := |shards| - 1;
    if i < last {
      MergeHas(shards[..last], key, i);
    } else {
      NotIn(shards[..last], key);
    }
  }

  lemma {:induction false} NotIn(shards: seq<Shard>, key: Key)
    requires forall j :: 0 <= j < |shards| ==> key !in shards[j]
    ensures key !in Merge(shards)
  {
    if shards != [] {
      NotIn(shards[..|shards| - 1], key);
    }
  }

  /** Looking in one shard is looking in the merged map. */
  lemma Lookup(hash: Key -> nat, shards: seq<Shard>, key: Key)
    requires Routed(hash, shards)
    ensures var i := Home(hash, |shards|, key);
            && (key in Merge(shards) <==> key in shards[i])
            && (key in shards[i] ==> Merge(shards)[key] == shards[i][key])
  {
    MergeHas(shards, key, Home(hash, |shards|, key));
  }

  /** Changing a shard at one of its own keys is changing the merged map there. */
  lemma SetShard(hash: Key -> nat, shards: seq<Shard>, key: Key, shard: Shard)
    requires Routed(hash, shards)
    requires shard - {key} == shards[Home(hash, |shards|, key)] - {key}
    ensures var i := Home(hash, |shards|, key);
            var next := shards[i := shard];
            && Routed(hash, next)
            && Merge(next) == if key in shard then Merge(shards)[key := shard[key]] else Merge(shards) - {key}
  {
    var i := Home(hash, |shards|, key);
    var next := shards[i := shard];
    forall j, k | 0 <= j < |next| && k in next[j]
      ensures Home(hash, |next|, k) == j
    {
      if j == i && k != key {
        assert k in shard - {key};
      }
    }
    var expected := if key in shard then Merge(shards)[key := shard[key]] else Merge(shards) - {key};
    forall k: Key
      ensures k in Merge(next) <==> k in expected
      ensures k in expected ==> Merge(next)[k] == expected[k]
    {
      Lookup(hash, shards, k);
      Lookup(hash, next, k);
      if k != key {
        SameElsewhere(shards[i], shard, key, k);
      }
    }
  }

  lemma SameElsewhere(a: Shard, b: Shard, key: Key, k: Key)
    requires b - {key} == a - {key} && k != key
    ensures k in a <==> k in b
    ensures k in a ==> a[k] == b[k]
  {
    assert k in a <==> k in a - {key};
    assert k in b <==> k in b - {key};
    if k in a - {key} {
      assert (a - {key})[k] == a[k] && (b - {key})[k] == b[k];
    }
  }

  // ---------------------------------------------------------------------------
  // Adding sees only its key
  // ---------------------------------------------------------------------------

  predicate AgreeAt(a: Shard, b: Shard, key: Key) {
    (key in a <==> key in b) && (key in a ==> a[key] == b[key])
  }

  /** What AddTo does to a map: it sets the key or removes it. */
  lemma AddIsLocal(limits: Limits, a: Shard, b: Shard, c: Counters, now: int, key: Key, index: nat, total: nat,
      payload: Bytes)
    requires AgreeAt(a, b, key)
    ensures var (x, y) := (AddTo(limits, Held(a, c), now, key, index, total, payload),
                           AddTo(limits, Held(b, c), now, key, index, total, payload));
            && x.1 == y.1 && x.0.counters == y.0.counters
            && AgreeAt(x.0.groups, y.0.groups, key)
            && x.0.groups - {key} == a - {key} && y.0.groups - {key} == b - {key}
  {
    hide JoinSlots;
    OnlyKey(limits, a, c, now, key, index, total, payload);
    OnlyKey(limits, b, c, now, key, index, total, payload);
  }

  lemma OnlyKey(limits: Limits, a: Shard, c: Counters, now: int, key: Key, index: nat, total: nat, payload: Bytes)
    ensures AddTo(limits, Held(a, c), now, key, index, total, payload).0.groups - {key} == a - {key}
  {
    hide JoinSlots;
  }

  /** Adding to the home shard is adding to the merged map. */
  lemma AddRefines(hash: Key -> nat, limits: Limits, shards: seq<Shard>, c: Counters, now: int, key: Key, index: nat,
      total: nat, payload: Bytes)
    requires Routed(hash, shards)
    ensures var i := Home(hash, |shards|, key);
            var local := AddTo(limits, Held(shards[i], c), now, key, index, total, payload);
            var next := shards[i := local.0.groups];
            && Routed(hash, next)
            && AddTo(limits, Held(Merge(shards), c), now, key, index, total, payload) ==
               (Held(Merge(next), local.0.counters), local.1)
  {
    var i := Home(hash, |shards|, key);
    var local := AddTo(limits, Held(shards[i], c), now, key, index, total, payload);
    var whole := AddTo(limits, Held(Merge(shards), c), now, key, index, total, payload);
    Lookup(hash, shards, key);
    AddIsLocal(limits, shards[i], Merge(shards), c, now, key, index, total, payload);
    SetShard(hash, shards, key, local.0.groups);
    hide AddTo;
    var merged := if key in local.0.groups then Merge(shards)[key := local.0.groups[key]] else Merge(shards) - {key};
    SameMap(whole.0.groups, merged, key);
  }

  lemma SameMap(a: Shard, b: Shard, key: Key)
    requires AgreeAt(a, b, key) && a - {key} == b - {key}
    ensures a == b
  {
    forall k: Key
      ensures k in a <==> k in b
      ensures k in a ==> a[k] == b[k]
    {
      if k != key {
        SameElsewhere(a, b, key, k);
      }
    }
  }

  // ---------------------------------------------------------------------------
  // Shrinking one shard
  // ---------------------------------------------------------------------------

  predicate Within(left: Shard, all: Shard) {
    forall key :: key in left ==> key in all && left[key] == all[key]
  }

  /** One key out of its shard is one key out of the merged map. */
  lemma DropKey(hash: Key -> nat, shards: seq<Shard>, i: nat, key: Key)
    requires Routed(hash, shards) && i < |shards| && key in shards[i]
    ensures var next := shards[i := shards[i] - {key}];
            && Routed(hash, next) && Merge(next) == Merge(shards) - {key} && key in Merge(shards)
            && |Merge(next)| == |Merge(shards)| - 1 &&
               BytesOf(Merge(next)) == BytesOf(Merge(shards)) - shards[i][key].retained
            && |shards[i] - {key}| == |shards[i]| - 1 &&
               BytesOf(shards[i] - {key}) == BytesOf(shards[i]) - shards[i][key].retained
  {
    hide Merge;
    hide BytesOf;
    assert Home(hash, |shards|, key) == i;
    Lookup(hash, shards, key);
    SetShard(hash, shards, key, shards[i] - {key});
    hide Routed;
    SizeRemove(Merge(shards), key);
    RemoveBytes(Merge(shards), key);
    SizeRemove(shards[i], key);
    RemoveBytes(shards[i], key);
  }

  /** Keeping only part of a shard takes exactly the rest out of the merged map and its counts. */
  lemma {:induction false} Shrink(hash: Key -> nat, shards: seq<Shard>, i: nat, left: Shard)
    requires Routed(hash, shards) && i < |shards| && Within(left, shards[i])
    ensures var next := shards[i := left];
            && Routed(hash, next)
            && |Merge(next)| == |Merge(shards)| - (|shards[i]| - |left|)
            && BytesOf(Merge(next)) == BytesOf(Merge(shards)) - (BytesOf(shards[i]) - BytesOf(left))
    decreases |shards[i]|
  {
    hide Merge;
    hide BytesOf;
    if left == shards[i] {
      assert shards[i := left] == shards;
    } else {
      var key := Extra(left, shards[i]);
      DropKey(hash, shards, i, key);
      hide Routed;
      var fewer := shards[i := shards[i] - {key}];
      Shrink(hash, fewer, i, left);
      assert fewer[i := left] == shards[i := left];
    }
  }

  lemma Extra(left: Shard, all: Shard) returns (key: Key)
    requires Within(left, all) && left != all
    ensures key in all && key !in left
  {
    var missing := set k | k in all && k !in left;
    if missing == {} {
      forall k | k in all
        ensures k in left
      {
        assert k !in missing;
      }
    }
    key :| key in missing;
  }

  /** What is left of the merged map. */
  lemma ShrunkHas(hash: Key -> nat, shards: seq<Shard>, i: nat, left: Shard, key: Key)
    requires Routed(hash, shards) && i < |shards| && Within(left, shards[i]) && Routed(hash, shards[i := left])
    ensures key in Merge(shards[i := left]) <==>
            key in Merge(shards) && (Home(hash, |shards|, key) == i ==> key in left)
    ensures key in Merge(shards[i := left]) ==> Merge(shards[i := left])[key] == Merge(shards)[key]
  {
    Lookup(hash, shards, key);
    Lookup(hash, shards[i := left], key);
    hide Merge;
  }
}

/** Conservation in the ledger: what every operation keeps. */
module LedgerProof {
  import opened Basics
  import opened MeshWire
  import opened MeshLog
  import opened MapSum
  import opened Ledger

  // ---------------------------------------------------------------------------
  // Counting references
  // ---------------------------------------------------------------------------

  ghost function Occurrences(held: map<Owner, seq<nat>>, r: nat): map<Owner, int> {
    map o | o in held :: multiset(held[o])[r]
  }

  /** How often a record is held, over all owners. */
  ghost function Count(held: map<Owner, seq<nat>>, r: nat): int {
    Sum(Occurrences(held, r))
  }

  lemma CountUpdate(held: map<Owner, seq<nat>>, o: Owner, l: seq<nat>, r: nat)
    ensures Count(held[o := l], r) == Count(held, r) + multiset(l)[r] - if o in held then multiset(held[o])[r] else 0
  {
    assert Occurrences(held[o := l], r) == Occurrences(held, r)[o := multiset(l)[r]];
    SumUpdate(Occurrences(held, r), o, multiset(l)[r]);
  }

  function RefsOf(records: map<nat, Record>, r: nat): int {
    if r in records then records[r].refs else 0
  }

  /** refs is the number of references held anywhere, and only live records are held. */
  ghost predicate RefsOk(records: map<nat, Record>, held: map<Owner, seq<nat>>, next: nat) {
    && (forall r: nat :: Count(held, r) == RefsOf(records, r))
    && (forall r :: r in records ==> records[r].refs >= 1 && r < next)
  }

  ghost predicate Counted(w: World) {
    RefsOk(w.store.records, w.held, w.next)
  }

  lemma HeldLive(w: World, o: Owner, i: nat)
    requires Counted(w) && i < |HeldBy(w, o)|
    ensures HeldBy(w, o)[i] in w.store.records
  {
    var r := HeldBy(w, o)[i];
    var m := Occurrences(w.held, r);
    assert r in w.held[o];
    assert m[o] > 0;
    SumBounds(m, o);
    assert Count(w.held, r) == RefsOf(w.store.records, r);
  }

  lemma AddedTo(w: World, o: Owner, r: nat, q: nat)
    ensures Count(w.held[o := HeldBy(w, o) + [r]], q) == Count(w.held, q) + if q == r then 1 else 0
  {
    CountUpdate(w.held, o, HeldBy(w, o) + [r], q);
  }

  lemma TakenFrom(w: World, o: Owner, i: nat, q: nat)
    requires i < |HeldBy(w, o)|
    ensures Count(w.held[o := Without(HeldBy(w, o), i)], q) == Count(w.held, q) - if q == HeldBy(w, o)[i] then 1 else 0
  {
    var l := HeldBy(w, o);
    assert l == l[..i] + [l[i]] + l[i + 1..];
    CountUpdate(w.held, o, Without(l, i), q);
  }

  lemma CopyRefs(w: World, r: nat, to: Owner)
    requires Counted(w) && r in w.store.records
    ensures Counted(Copy(w, r, to))
  {
    var next := Copy(w, r, to);
    forall q: nat
      ensures Count(next.held, q) == RefsOf(next.store.records, q)
    {
      assert Count(w.held, q) == RefsOf(w.store.records, q);
      AddedTo(w, to, r, q);
    }
  }

  lemma DropRefs(w: World, from: Owner, i: nat)
    requires Counted(w) && i < |HeldBy(w, from)|
    ensures Counted(Drop(w, from, i))
  {
    var next := Drop(w, from, i);
    HeldLive(w, from, i);
    forall q: nat
      ensures Count(next.held, q) == RefsOf(next.store.records, q)
    {
      assert Count(w.held, q) == RefsOf(w.store.records, q);
      TakenFrom(w, from, i, q);
    }
  }

  lemma MoveRefs(w: World, from: Owner, i: nat, to: Owner)
    requires Counted(w) && i < |HeldBy(w, from)|
    ensures Counted(Move(w, from, i, to))
  {
    var next := Move(w, from, i, to);
    var taken := w.(held := w.held[from := Without(HeldBy(w, from), i)]);
    forall q: nat
      ensures Count(next.held, q) == RefsOf(next.store.records, q)
    {
      assert Count(w.held, q) == RefsOf(w.store.records, q);
      TakenFrom(w, from, i, q);
      AddedTo(taken, to, HeldBy(w, from)[i], q);
    }
  }

  lemma CreateRefs(w: World, rec: Record, to: Owner)
    requires Counted(w) && rec.refs == 1
    ensures Counted(Create(w, rec, to))
  {
    var next := Create(w, rec, to);
    forall q: nat
      ensures Count(next.held, q) == RefsOf(next.store.records, q)
    {
      assert Count(w.held, q) == RefsOf(w.store.records, q);
      AddedTo(w, to, w.next, q);
    }
  }

  // ---------------------------------------------------------------------------
  // The two indexes
  // ---------------------------------------------------------------------------

  /** One record per key: each key leads to the record that carries it and back. */
  predicate KeysOk(records: map<nat, Record>, byKey: map<GroupKey, nat>) {
    && (forall k :: k in byKey ==> byKey[k] in records && records[byKey[k]].key == k)
    && (forall r :: r in records ==> records[r].key in byKey && byKey[records[r].key] == r)
  }

  predicate NoDuplicates(l: seq<nat>) {
    forall i, j :: 0 <= i < j < |l| ==> l[i] != l[j]
  }

  predicate BucketOk(records: map<nat, Record>, digest: Bytes, bucket: seq<nat>) {
    && bucket != []
    && NoDuplicates(bucket)
    && (forall i :: 0 <= i < |bucket| ==> bucket[i] in records && records[bucket[i]].digest == digest)
  }

  /** Each live record is in the bucket of its digest, and nothing else is in any bucket. */
  predicate DigestsOk(records: map<nat, Record>, byDigest: map<Bytes, seq<nat>>) {
    && (forall d :: d in byDigest ==> BucketOk(records, d, byDigest[d]))
    && (forall r :: r in records ==> records[r].digest in byDigest && r in byDigest[records[r].digest])
  }

  predicate IndexesOk(s: Store) {
    KeysOk(s.records, s.byKey) && DigestsOk(s.records, s.byDigest)
  }

  lemma RecountIndexes(records: map<nat, Record>, byKey: map<GroupKey, nat>, byDigest: map<Bytes, seq<nat>>, r: nat,
      refs: int)
    requires KeysOk(records, byKey) && DigestsOk(records, byDigest) && r in records
    ensures KeysOk(records[r := records[r].(refs := refs)], byKey) &&
            DigestsOk(records[r := records[r].(refs := refs)], byDigest)
  {
    var next := records[r := records[r].(refs := refs)];
    forall d | d in byDigest
      ensures BucketOk(next, d, byDigest[d])
    {
      assert BucketOk(records, d, byDigest[d]);
    }
  }

  /** The bucket edit drops one position, the first that holds the record. */
  lemma {:induction false} RemoveFirstCuts(bucket: seq<nat>, r: nat) returns (i: nat)
    requires r in bucket
    ensures i < |bucket| && bucket[i] == r && RemoveFirst(bucket, r) == bucket[..i] + bucket[i + 1..]
  {
    if bucket[0] == r {
      i := 0;
    } else {
      var rest := bucket[1..];
      var k := RemoveFirstCuts(rest, r);
      i := k + 1;
      assert bucket[..i] == [bucket[0]] + rest[..k];
      assert bucket[i + 1..] == rest[k + 1..];
    }
  }

  lemma RemoveFirstEffect(bucket: seq<nat>, r: nat)
    requires NoDuplicates(bucket) && r in bucket
    ensures NoDuplicates(RemoveFirst(bucket, r))
    ensures forall x :: x in RemoveFirst(bucket, r) <==> x in bucket && x != r
  {
    hide RemoveFirst;
    var i := RemoveFirstCuts(bucket, r);
    var cut := RemoveFirst(bucket, r);
    assert forall k :: 0 <= k < |cut| ==> cut[k] == if k < i then bucket[k] else bucket[k + 1];
    forall x | x in bucket && x != r
      ensures x in cut
    {
      var k :| 0 <= k < |bucket| && bucket[k] == x;
      assert cut[if k < i then k else k - 1] == x;
    }
  }

  lemma RemoveKey(records: map<nat, Record>, byKey: map<GroupKey, nat>, r: nat)
    requires KeysOk(records, byKey) && r in records
    ensures KeysOk(records - {r}, byKey - {records[r].key})
  {
  }

  lemma RemoveDigest(records: map<nat, Record>, byDigest: map<Bytes, seq<nat>>, r: nat)
    requires DigestsOk(records, byDigest) && r in records
    ensures var digest := records[r].digest;
            var bucket := RemoveFirst(byDigest[digest], r);
            DigestsOk(records - {r}, if bucket == [] then byDigest - {digest} else byDigest[digest := bucket])
  {
    var digest := records[r].digest;
    var bucket := RemoveFirst(byDigest[digest], r);
    RemoveFirstEffect(byDigest[digest], r);
    hide RemoveFirst;
    var next := if bucket == [] then byDigest - {digest} else byDigest[digest := bucket];
    forall d | d in next
      ensures BucketOk(records - {r}, d, next[d])
    {
      BucketWithout(records, d, byDigest[d], next[d], r);
    }
  }

  lemma BucketWithout(records: map<nat, Record>, d: Bytes, bucket: seq<nat>, left: seq<nat>, r: nat)
    requires BucketOk(records, d, bucket) && left != [] && NoDuplicates(left)
    requires forall x :: x in left ==> x in bucket && x != r
    ensures BucketOk(records - {r}, d, left)
  {
    hide NoDuplicates;
    forall i | 0 <= i < |left|
      ensures left[i] in records - {r} && records[left[i]].digest == d
    {
      assert left[i] in bucket;
    }
  }

  lemma ReleaseIndexes(s: Store, r: nat)
    requires IndexesOk(s)
    ensures IndexesOk(Release(s, r))
  {
    if r in s.records {
      var digest := s.records[r].digest;
      assert digest in s.byDigest;
      RemoveKey(s.records, s.byKey, r);
      RemoveDigest(s.records, s.byDigest, r);
      RecountIndexes(s.records, s.byKey, s.byDigest, r, s.records[r].refs - 1);
    }
    hide KeysOk;
    hide DigestsOk;
    hide RemoveFirst;
  }

  lemma InsertKey(records: map<nat, Record>, byKey: map<GroupKey, nat>, r: nat, rec: Record)
    requires KeysOk(records, byKey) && r !in records && rec.key !in byKey
    ensures KeysOk(records[r := rec], byKey[rec.key := r])
  {
  }

  lemma InsertDigest(s: Store, r: nat, rec: Record)
    requires DigestsOk(s.records, s.byDigest) && r !in s.records
    ensures DigestsOk(s.records[r := rec], s.byDigest[rec.digest := BucketOf(s, rec.digest) + [r]])
  {
    var next := s.byDigest[rec.digest := BucketOf(s, rec.digest) + [r]];
    forall d | d in next
      ensures BucketOk(s.records[r := rec], d, next[d])
    {
      if d in s.byDigest {
        assert BucketOk(s.records, d, s.byDigest[d]);
      }
    }
  }

  // ---------------------------------------------------------------------------
  // The counters and the quotas
  // ---------------------------------------------------------------------------

  ghost function Sizes(records: map<nat, Record>): map<nat, int> {
    map r | r in records :: |records[r].bytes|
  }

  ghost function Slots(claims: map<nat, Claim>): map<nat, int> {
    map c | c in claims :: if claims[c].reserved then 1 else 0
  }

  ghost function SlotSizes(claims: map<nat, Claim>): map<nat, int> {
    map c | c in claims :: if claims[c].reserved then claims[c].size else 0
  }

  ghost predicate CountsOk(cfg: Config, w: World) {
    && w.store.groups == |w.store.records|
    && w.store.bytes == Sum(Sizes(w.store.records))
    && w.store.reserved == Sum(Slots(w.claims))
    && w.store.reservedSize == Sum(SlotSizes(w.claims))
    && w.store.groups + w.store.reserved <= cfg.maxGroups
    && w.store.bytes + w.store.reservedSize <= cfg.maxBytes
  }

  lemma WithoutRecord(records: map<nat, Record>, r: nat)
    requires r in records
    ensures Sum(Sizes(records - {r})) == Sum(Sizes(records)) - |records[r].bytes|
    ensures |records - {r}| == |records| - 1
  {
    assert Sizes(records - {r}) == Sizes(records) - {r};
    SumRemove(Sizes(records), r);
    SizeRemove(records, r);
  }

  lemma RecountRecord(records: map<nat, Record>, r: nat, refs: int)
    requires r in records
    ensures Sum(Sizes(records[r := records[r].(refs := refs)])) == Sum(Sizes(records))
    ensures |records[r := records[r].(refs := refs)]| == |records|
  {
    assert Sizes(records[r := records[r].(refs := refs)]) == Sizes(records);
    SizeUpdate(records, r, records[r].(refs := refs));
  }

  lemma ReleaseCounts(s: Store, r: nat)
    requires s.groups == |s.records| && s.bytes == Sum(Sizes(s.records))
    ensures Release(s, r).groups == |Release(s, r).records| <= s.groups
    ensures Release(s, r).bytes == Sum(Sizes(Release(s, r).records)) <= s.bytes
    ensures Release(s, r).reserved == s.reserved && Release(s, r).reservedSize == s.reservedSize
  {
    hide RemoveFirst;
    hide BucketOf;
    hide Sizes;
    hide Sum;
    if r in s.records {
      WithoutRecord(s.records, r);
      RecountRecord(s.records, r, s.records[r].refs - 1);
    }
  }

  lemma RetainCounts(s: Store, r: nat)
    ensures Sum(Sizes(Retain(s, r).records)) == Sum(Sizes(s.records))
    ensures |Retain(s, r).records| == |s.records|
  {
    if r in s.records {
      RecountRecord(s.records, r, s.records[r].refs + 1);
    }
  }

  lemma InsertCounts(s: Store, r: nat, rec: Record)
    requires r !in s.records && s.groups == |s.records| && s.bytes == Sum(Sizes(s.records))
    ensures Insert(s, r, rec).groups == |Insert(s, r, rec).records|
    ensures Insert(s, r, rec).bytes == Sum(Sizes(Insert(s, r, rec).records))
  {
    hide BucketOf;
    assert Sizes(s.records[r := rec]) == Sizes(s.records)[r := |rec.bytes|];
    SumUpdate(Sizes(s.records), r, |rec.bytes|);
    SizeUpdate(s.records, r, rec);
  }

  lemma SetClaim(claims: map<nat, Claim>, c: nat, claim: Claim)
    ensures Sum(Slots(claims[c := claim])) == Sum(Slots(claims)) + (if claim.reserved then 1 else 0)
              - (if c in claims && claims[c].reserved then 1 else 0)
    ensures Sum(SlotSizes(claims[c := claim])) == Sum(SlotSizes(claims)) + (if claim.reserved then claim.size else 0)
              - (if c in claims && claims[c].reserved then claims[c].size else 0)
  {
    var slot := if claim.reserved then 1 else 0;
    var size := if claim.reserved then claim.size else 0;
    assert Slots(claims[c := claim]) == Slots(claims)[c := slot];
    assert SlotSizes(claims[c := claim]) == SlotSizes(claims)[c := size];
    SumUpdate(Slots(claims), c, slot);
    SumUpdate(SlotSizes(claims), c, size);
  }

  lemma UnreserveCounts(cfg: Config, w: World, c: nat)
    requires CountsOk(cfg, w)
    ensures CountsOk(cfg, Unreserve(w, c))
  {
    if c in w.claims && w.claims[c].reserved {
      SetClaim(w.claims, c, w.claims[c].(reserved := false));
    }
  }
  // ---------------------------------------------------------------------------
  // The store, as one invariant
  // ---------------------------------------------------------------------------

  /** What a record says of its bytes is what the bytes say. */
  predicate RecordOk(cfg: Config, rec: Record) {
    rec.digest == cfg.sha(rec.bytes) && cfg.parse(rec.bytes) == Some(rec.key)
  }

  predicate RecordsOk(cfg: Config, records: map<nat, Record>) {
    forall r :: r in records ==> RecordOk(cfg, records[r])
  }

  ghost predicate StoreOk(cfg: Config, w: World) {
    Counted(w) && IndexesOk(w.store) && CountsOk(cfg, w) && RecordsOk(cfg, w.store.records)
  }

  predicate SameContent(a: Record, b: Record) {
    a.key == b.key && a.digest == b.digest && a.bytes == b.bytes
  }

  /** Records are immutable while they live and identities are never reused. */
  predicate RecordsFollow(before: map<nat, Record>, after: map<nat, Record>, next: nat) {
    && (forall r :: r in before && r in after ==> SameContent(before[r], after[r]))
    && (forall r :: r in after ==> r in before || next <= r)
  }

  predicate ClaimsFollow(before: map<nat, Claim>, after: map<nat, Claim>) {
    forall c :: c in before ==> c in after && after[c].size == before[c].size
  }

  predicate Follows(before: World, after: World) {
    && before.next <= after.next
    && RecordsFollow(before.store.records, after.store.records, before.next)
    && ClaimsFollow(before.claims, after.claims)
  }

  lemma Unchanged(before: map<nat, Record>, claims: map<nat, Claim>, next: nat)
    ensures RecordsFollow(before, before, next) && ClaimsFollow(claims, claims)
  {
  }

  lemma SetClaimFollows(claims: map<nat, Claim>, c: nat, claim: Claim)
    requires c in claims ==> claim.size == claims[c].size
    ensures ClaimsFollow(claims, claims[c := claim])
  {
  }

  lemma NextIsFree(w: World)
    requires Counted(w)
    ensures w.next !in w.store.records
  {
  }

  lemma RecountRecords(cfg: Config, records: map<nat, Record>, r: nat, refs: int, next: nat)
    requires RecordsOk(cfg, records) && r in records
    ensures RecordsOk(cfg, records[r := records[r].(refs := refs)])
    ensures RecordsFollow(records, records[r := records[r].(refs := refs)], next)
  {
  }

  lemma RemoveRecords(cfg: Config, records: map<nat, Record>, r: nat, next: nat)
    requires RecordsOk(cfg, records)
    ensures RecordsOk(cfg, records - {r}) && RecordsFollow(records, records - {r}, next)
  {
  }

  lemma InsertRecords(cfg: Config, records: map<nat, Record>, r: nat, rec: Record)
    requires RecordsOk(cfg, records) && r !in records && RecordOk(cfg, rec)
    ensures RecordsOk(cfg, records[r := rec]) && RecordsFollow(records, records[r := rec], r)
  {
  }

  lemma CopyStore(cfg: Config, w: World, r: nat, to: Owner)
    requires StoreOk(cfg, w) && r in w.store.records
    ensures StoreOk(cfg, Copy(w, r, to)) && Follows(w, Copy(w, r, to))
  {
    hide RefsOk;
    hide KeysOk;
    hide DigestsOk;
    hide RecordsOk;
    hide RecordsFollow;
    hide ClaimsFollow;
    hide Sum;
    hide Sizes;
    hide Slots;
    hide SlotSizes;
    CopyRefs(w, r, to);
    RecountIndexes(w.store.records, w.store.byKey, w.store.byDigest, r, w.store.records[r].refs + 1);
    RecountRecords(cfg, w.store.records, r, w.store.records[r].refs + 1, w.next);
    RetainCounts(w.store, r);
    Unchanged(w.store.records, w.claims, w.next);
  }

  lemma MoveStore(cfg: Config, w: World, from: Owner, i: nat, to: Owner)
    requires StoreOk(cfg, w) && i < |HeldBy(w, from)|
    ensures StoreOk(cfg, Move(w, from, i, to)) && Follows(w, Move(w, from, i, to))
  {
    hide RefsOk;
    hide KeysOk;
    hide DigestsOk;
    hide RecordsOk;
    hide RecordsFollow;
    hide ClaimsFollow;
    hide Sum;
    hide Sizes;
    hide Slots;
    hide SlotSizes;
    MoveRefs(w, from, i, to);
    Unchanged(w.store.records, w.claims, w.next);
  }

  lemma ReleaseRecords(cfg: Config, s: Store, r: nat, next: nat)
    requires RecordsOk(cfg, s.records)
    ensures RecordsOk(cfg, Release(s, r).records) && RecordsFollow(s.records, Release(s, r).records, next)
  {
    if r in s.records {
      RecountRecords(cfg, s.records, r, s.records[r].refs - 1, next);
      RemoveRecords(cfg, s.records, r, next);
    }
  }

  lemma DropStore(cfg: Config, w: World, from: Owner, i: nat)
    requires StoreOk(cfg, w) && i < |HeldBy(w, from)|
    ensures StoreOk(cfg, Drop(w, from, i)) && Follows(w, Drop(w, from, i))
  {
    hide RefsOk;
    hide KeysOk;
    hide DigestsOk;
    hide RecordsOk;
    hide RecordsFollow;
    hide ClaimsFollow;
    hide Sum;
    hide Sizes;
    hide Slots;
    hide SlotSizes;
    var r := HeldBy(w, from)[i];
    DropRefs(w, from, i);
    ReleaseIndexes(w.store, r);
    ReleaseCounts(w.store, r);
    ReleaseRecords(cfg, w.store, r, w.next);
    Unchanged(w.store.records, w.claims, w.next);
    hide Release;
  }

  lemma UnreserveStore(cfg: Config, w: World, c: nat)
    requires StoreOk(cfg, w)
    ensures StoreOk(cfg, Unreserve(w, c)) && Follows(w, Unreserve(w, c))
  {
    hide RefsOk;
    hide KeysOk;
    hide DigestsOk;
    hide RecordsOk;
    hide RecordsFollow;
    hide ClaimsFollow;
    hide Sum;
    hide Sizes;
    hide Slots;
    hide SlotSizes;
    UnreserveCounts(cfg, w, c);
    if c in w.claims {
      SetClaimFollows(w.claims, c, w.claims[c].(reserved := false));
    }
    Unchanged(w.store.records, w.claims, w.next);
  }

  lemma CreateStore(cfg: Config, w: World, rec: Record, to: Owner)
    requires StoreOk(cfg, w) && rec.refs == 1 && RecordOk(cfg, rec)
    requires rec.key !in w.store.byKey && CanReserve(cfg, w.store, |rec.bytes|)
    ensures StoreOk(cfg, Create(w, rec, to)) && Follows(w, Create(w, rec, to))
  {
    hide RefsOk;
    hide KeysOk;
    hide DigestsOk;
    hide RecordsOk;
    hide RecordsFollow;
    hide ClaimsFollow;
    hide Sum;
    hide Sizes;
    hide Slots;
    hide SlotSizes;
    hide BucketOf;
    NextIsFree(w);
    CreateRefs(w, rec, to);
    InsertKey(w.store.records, w.store.byKey, w.next, rec);
    InsertDigest(w.store, w.next, rec);
    InsertRecords(cfg, w.store.records, w.next, rec);
    InsertCounts(w.store, w.next, rec);
    Unchanged(w.store.records, w.claims, w.next);
  }

  lemma NewClaimStore(cfg: Config, w: World, c: nat, claim: Claim)
    requires StoreOk(cfg, w) && c !in w.claims && !claim.reserved
    ensures StoreOk(cfg, w.(claims := w.claims[c := claim])) && Follows(w, w.(claims := w.claims[c := claim]))
  {
    hide RefsOk;
    hide KeysOk;
    hide DigestsOk;
    hide RecordsOk;
    hide RecordsFollow;
    hide ClaimsFollow;
    hide Sum;
    hide Sizes;
    hide Slots;
    hide SlotSizes;
    SetClaim(w.claims, c, claim);
    SetClaimFollows(w.claims, c, claim);
    Unchanged(w.store.records, w.claims, w.next);
  }

  lemma ReserveStore(cfg: Config, w: World, c: nat, size: nat)
    requires StoreOk(cfg, w) && c !in w.claims && CanReserve(cfg, w.store, size)
    ensures var next := w.(claims := w.claims[c := Claim(false, true, size)],
                           store := w.store.(reserved := w.store.reserved + 1,
                                             reservedSize := w.store.reservedSize + size));
            StoreOk(cfg, next) && Follows(w, next)
  {
    hide RefsOk;
    hide KeysOk;
    hide DigestsOk;
    hide RecordsOk;
    hide RecordsFollow;
    hide ClaimsFollow;
    hide Sum;
    hide Sizes;
    hide Slots;
    hide SlotSizes;
    SetClaim(w.claims, c, Claim(false, true, size));
    SetClaimFollows(w.claims, c, Claim(false, true, size));
    Unchanged(w.store.records, w.claims, w.next);
  }

  lemma FollowsTrans(a: World, b: World, c: World)
    requires Follows(a, b) && Follows(b, c)
    requires forall r :: r in b.store.records ==> r < b.next
    requires forall r :: r in a.store.records ==> r < a.next
    ensures Follows(a, c)
  {
  }
}

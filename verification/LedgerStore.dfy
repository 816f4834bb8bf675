/** The ledger and its claims as the program keeps them, proved against the functions of Ledger. */
module LedgerStore {
  import opened Basics
  import opened MeshWire
  import opened MeshLog
  import opened Ledger

  class DeclarationClaim {
    var candidate: Option<nat>
    var matched: bool
    var reserved: bool
    const size: nat

    constructor (size: nat)
      ensures candidate == None && !matched && !reserved && this.size == size
    {
      candidate, matched, reserved := None, false, false;
      this.size := size;
    }

    /** This object is claim c of w. */
    ghost predicate Is(w: World, c: nat)
      reads this
    {
      && c in w.claims && w.claims[c] == Claim(matched, reserved, size)
      && HeldBy(w, Claiming(c)) == if candidate.Some? then [candidate.value] else []
    }
  }

  lemma {:induction false} SkipOthers(bucket: seq<nat>, r: nat, i: nat)
    requires i <= |bucket| && (forall k :: 0 <= k < i ==> bucket[k] != r) && (i < |bucket| ==> bucket[i] == r)
    ensures RemoveFirst(bucket, r) == if i < |bucket| then bucket[..i] + bucket[i + 1..] else bucket
  {
    if i > 0 {
      SkipOthers(bucket[1..], r, i - 1);
    }
  }

  /** begin in three parts: what it finds, what it reserves, what the claim then says. */
  lemma BeginParts(cfg: Config, w: World, c: nat, size: nat, digest: Bytes, found: Option<nat>)
    requires c !in w.claims && HeldBy(w, Claiming(c)) == [] && 0 < size <= cfg.maxSingle
    requires found == if |digest| == DIGEST_SIZE then FindSized(w.store, BucketOf(w.store, digest), size) else None
    ensures var after, room := BeginClaim(cfg, w, c, size, digest), CanReserve(cfg, w.store, size);
            && after.store == (if found.Some? then Retain(w.store, found.value)
                               else if room then w.store.(reserved := w.store.reserved + 1,
                                                          reservedSize := w.store.reservedSize + size)
                               else w.store)
            && c in after.claims && after.claims[c] == Claim(found.Some?, found.None? && room, size)
            && HeldBy(after, Claiming(c)) == if found.Some? then [found.value] else []
  {
    hide FindSized;
    hide BucketOf;
    hide Retain;
  }

  class DeclarationLedger {
    const cfg: Config
    var records: map<nat, Record>
    var byKey: map<GroupKey, nat>
    var byDigest: map<Bytes, seq<nat>>
    var groups: int
    var bytes: int
    var reserved: int
    var reservedSize: int
    var next: nat

    constructor (cfg: Config)
      ensures this.cfg == cfg && View() == START.store && next == START.next
    {
      this.cfg := cfg;
      records, byKey, byDigest := map[], map[], map[];
      groups, bytes, reserved, reservedSize, next := 0, 0, 0, 0, 0;
    }

    function View(): Store
      reads this
    {
      Store(records, byKey, byDigest, groups, bytes, reserved, reservedSize)
    }

    predicate CanTake(size: nat)
      reads this
    {
      groups + reserved < cfg.maxGroups && size <= cfg.maxBytes - bytes - reservedSize
    }

    /** The bucket scan of begin. */
    method FindCandidate(digest: Bytes, size: nat) returns (found: Option<nat>)
      ensures found == FindSized(View(), BucketOf(View(), digest), size)
    {
      var bucket := if digest in byDigest then byDigest[digest] else [];
      var i := 0;
      while i < |bucket|
        invariant i <= |bucket|
        invariant FindSized(View(), bucket, size) == FindSized(View(), bucket[i..], size)
      {
        if bucket[i] in records && |records[bucket[i]].bytes| == size {
          return Some(bucket[i]);
        }
        i := i + 1;
      }
      return None;
    }

    method RetainLocked(r: nat)
      requires r in records
      modifies this`records
      ensures View() == Retain(old(View()), r)
    {
      records := records[r := records[r].(refs := records[r].refs + 1)];
    }

    method Begin(size: nat, digest: Bytes, ghost w: World, ghost c: nat) returns (claim: DeclarationClaim?)
      requires View() == w.store && c !in w.claims && HeldBy(w, Claiming(c)) == []
      modifies this
      ensures View() == BeginClaim(cfg, w, c, size, digest).store && next == old(next)
      ensures claim == null <==> size == 0 || size > cfg.maxSingle
      ensures claim != null ==> fresh(claim) && claim.Is(BeginClaim(cfg, w, c, size, digest), c)
    {
      hide FindSized;
      hide BucketOf;
      hide Retain;
      hide HeldBy;
      if size == 0 || size > cfg.maxSingle {
        return null;
      }
      var found: Option<nat> := None;
      if |digest| == DIGEST_SIZE {
        found := FindCandidate(digest, size);
      }
      BeginParts(cfg, w, c, size, digest, found);
      hide BeginClaim;
      claim := new DeclarationClaim(size);
      if found.Some? {
        RetainLocked(found.value);
        claim.candidate, claim.matched := found, true;
      } else if CanTake(size) {
        reserved, reservedSize := reserved + 1, reservedSize + size;
        claim.reserved := true;
      }
    }

    /** The scan and shift of releaseLocked. */
    method WithoutRecord(bucket: seq<nat>, r: nat) returns (rest: seq<nat>)
      ensures rest == RemoveFirst(bucket, r)
    {
      var i := 0;
      while i < |bucket| && bucket[i] != r
        invariant i <= |bucket|
        invariant forall k :: 0 <= k < i ==> bucket[k] != r
      {
        i := i + 1;
      }
      SkipOthers(bucket, r, i);
      rest := if i < |bucket| then bucket[..i] + bucket[i + 1..] else bucket;
    }

    method ReleaseLocked(record: Option<nat>)
      modifies this
      ensures View() == (if record.Some? then Release(old(View()), record.value) else old(View())) && next == old(next)
    {
      hide RemoveFirst;
      if record.None? || record.value !in records {
        return;
      }
      var r, rec := record.value, records[record.value];
      if rec.refs > 1 {
        records := records[r := rec.(refs := rec.refs - 1)];
        return;
      }
      var bucket := WithoutRecord(if rec.digest in byDigest then byDigest[rec.digest] else [], r);
      records, byKey := records - {r}, byKey - {rec.key};
      byDigest := if bucket == [] then byDigest - {rec.digest} else byDigest[rec.digest := bucket];
      groups, bytes := groups - 1, bytes - |rec.bytes|;
    }

    method InsertLocked(record: Record) returns (r: nat)
      modifies this
      ensures r == old(next) && next == old(next) + 1 && View() == Insert(old(View()), r, record)
    {
      r := next;
      records, byKey := records[r := record], byKey[record.key := r];
      byDigest := byDigest[record.digest := (if record.digest in byDigest then byDigest[record.digest] else []) + [r]];
      groups, bytes, next := groups + 1, bytes + |record.bytes|, next + 1;
    }

    method Close(claim: DeclarationClaim, ghost w: World, ghost c: nat)
      requires View() == w.store && claim.Is(w, c)
      modifies this, claim
      ensures View() == CloseClaim(w, c).store && claim.Is(CloseClaim(w, c), c) && next == old(next)
    {
      hide Release;
      ReleaseLocked(claim.candidate);
      claim.candidate := None;
      if claim.reserved {
        reserved, reservedSize := reserved - 1, reservedSize - claim.size;
        claim.reserved := false;
      }
    }

    /** The part of finish that stores: share the record of the same key or add a new one. */
    method StoreLocked(claim: DeclarationClaim, key: GroupKey, input: Bytes, ghost w: World, ghost c: nat, ghost t: nat)
      returns (result: FinishResult)
      requires View() == w.store && next == w.next && claim.Is(w, c)
      modifies this, claim
      ensures View() == StoreInput(cfg, w, c, key, input, t).0.store
      ensures next == StoreInput(cfg, w, c, key, input, t).0.next && result == StoreInput(cfg, w, c, key, input, t).1
      ensures claim.Is(StoreInput(cfg, w, c, key, input, t).0, c)
    {
      hide Insert;
      hide Retain;
      if key in byKey && byKey[key] in records {
        var r := byKey[key];
        if records[r].bytes != input {
          return Conflict;
        }
        RetainLocked(r);
        return Finished(r);
      }
      if claim.reserved {
        reserved, reservedSize := reserved - 1, reservedSize - claim.size;
        claim.reserved := false;
      }
      if !CanTake(|input|) {
        return Capacity;
      }
      var r := InsertLocked(Record(key, cfg.sha(input), input, 1));
      return Finished(r);
    }

    method Finish(claim: DeclarationClaim, input: Bytes, expected: string, ghost w: World, ghost c: nat, ghost t: nat)
      returns (result: FinishResult)
      requires View() == w.store && next == w.next && claim.Is(w, c) && HeldBy(w, InHand(t)) == []
      modifies this, claim
      ensures result == FinishClaim(cfg, w, c, input, expected, t).1
      ensures var after := FinishClaim(cfg, w, c, input, expected, t).0;
              View() == after.store && next == after.next && claim.Is(after, c)
    {
      hide Release;
      hide StoreInput;
      var parsed := cfg.parse(input);
      if parsed.None? || (expected != "" && parsed.value.id != expected) {
        return Rejected;
      }
      var key := parsed.value;
      var candidate := claim.candidate;
      if candidate.Some? && claim.matched && candidate.value in records && records[candidate.value].bytes == input {
        claim.candidate := None;
        return Finished(candidate.value);
      }
      var conflict := candidate.Some? && candidate.value in records && records[candidate.value].key == key;
      ReleaseLocked(candidate);
      claim.candidate := None;
      if conflict {
        return Conflict;
      }
      result := StoreLocked(claim, key, input, DropCandidate(w, c), c, t);
    }
  }

  method CompareChunk(claim: DeclarationClaim, ledger: DeclarationLedger, offset: nat, data: Bytes, ghost w: World,
      ghost c: nat)
    requires ledger.View() == w.store && claim.Is(w, c)
    requires claim.candidate.Some? && claim.candidate.value in ledger.records
             ==> offset + |data| <= |ledger.records[claim.candidate.value].bytes|
    modifies claim
    ensures claim.Is(Compare(w, c, offset, data), c)
  {
    if claim.candidate.Some? && claim.matched && claim.candidate.value in ledger.records
       && ledger.records[claim.candidate.value].bytes[offset..offset + |data|] != data {
      claim.matched := false;
    }
  }
}

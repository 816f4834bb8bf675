/** The declaration ledger: records shared by reference count among claims, staged states,
    published groups and snapshots, found by key and by digest, within two quotas. */
module Ledger {
  import opened Basics
  import opened MeshWire
  import opened MeshLog
  import opened MapSum

  datatype Config = Config(
    sha: Bytes -> Bytes, parse: Bytes -> Option<GroupKey>,
    maxGroups: nat, maxBytes: nat, maxSingle: nat)

  datatype Record = Record(key: GroupKey, digest: Bytes, bytes: Bytes, refs: int)

  datatype Store = Store(
    records: map<nat, Record>, byKey: map<GroupKey, nat>, byDigest: map<Bytes, seq<nat>>,
    groups: int, bytes: int, reserved: int, reservedSize: int)

  /** A declarationClaim, apart from its candidate. */
  datatype Claim = Claim(matched: bool, reserved: bool, size: nat)

  /** Every place in the program that keeps references to records. */
  datatype Owner =
    | Claiming(claim: nat)
    | Staging(state: nat)
    | Publishing(group: string)
    | Snapshotting(snapshot: nat)
    | InHand(token: nat)

  /** `closed` is controlState.closed: afterwards nothing is published and everything published is given back. */
  datatype World = World(store: Store, claims: map<nat, Claim>, held: map<Owner, seq<nat>>, next: nat, closed: bool)

  const START := World(Store(map[], map[], map[], 0, 0, 0, 0), map[], map[], 0, false)

  function HeldBy(w: World, o: Owner): seq<nat> {
    if o in w.held then w.held[o] else []
  }

  // ---------------------------------------------------------------------------
  // The store
  // ---------------------------------------------------------------------------

  predicate CanReserve(cfg: Config, s: Store, size: nat) {
    s.groups + s.reserved < cfg.maxGroups && size <= cfg.maxBytes - s.bytes - s.reservedSize
  }

  function RemoveFirst(bucket: seq<nat>, r: nat): seq<nat> {
    if bucket == [] then [] else if bucket[0] == r then bucket[1..] else [bucket[0]] + RemoveFirst(bucket[1..], r)
  }

  function BucketOf(s: Store, digest: Bytes): seq<nat> {
    if digest in s.byDigest then s.byDigest[digest] else []
  }

  /** releaseLocked: the last reference takes the record out of both indexes. */
  function Release(s: Store, r: nat): Store {
    if r !in s.records then s
    else
      var rec := s.records[r];
      if rec.refs > 1 then s.(records := s.records[r := rec.(refs := rec.refs - 1)])
      else
        var bucket := RemoveFirst(BucketOf(s, rec.digest), r);
        s.(records := s.records - {r}, byKey := s.byKey - {rec.key},
           byDigest := if bucket == [] then s.byDigest - {rec.digest} else s.byDigest[rec.digest := bucket],
           groups := s.groups - 1, bytes := s.bytes - |rec.bytes|)
  }

  function Retain(s: Store, r: nat): Store {
    if r !in s.records then s
    else s.(records := s.records[r := s.records[r].(refs := s.records[r].refs + 1)])
  }

  function Insert(s: Store, r: nat, rec: Record): Store {
    s.(records := s.records[r := rec], byKey := s.byKey[rec.key := r],
       byDigest := s.byDigest[rec.digest := BucketOf(s, rec.digest) + [r]],
       groups := s.groups + 1, bytes := s.bytes + |rec.bytes|)
  }

  /** The first record of a bucket with this length. */
  function FindSized(s: Store, bucket: seq<nat>, size: nat): (found: Option<nat>)
    ensures found.Some? ==> found.value in bucket && found.value in s.records && |s.records[found.value].bytes| == size
  {
    if bucket == [] then None
    else if bucket[0] in s.records && |s.records[bucket[0]].bytes| == size then Some(bucket[0])
    else FindSized(s, bucket[1..], size)
  }

  // ---------------------------------------------------------------------------
  // What happens to a reference
  // ---------------------------------------------------------------------------

  /** A new reference to a live record. */
  function Copy(w: World, r: nat, to: Owner): World {
    w.(store := Retain(w.store, r), held := w.held[to := HeldBy(w, to) + [r]])
  }

  function Without(l: seq<nat>, i: nat): seq<nat>
    requires i < |l|
  {
    l[..i] + l[i + 1..]
  }

  /** A reference changes hands; the count does not. */
  function Move(w: World, from: Owner, i: nat, to: Owner): World
    requires i < |HeldBy(w, from)|
  {
    var r := HeldBy(w, from)[i];
    var taken := w.(held := w.held[from := Without(HeldBy(w, from), i)]);
    taken.(held := taken.held[to := HeldBy(taken, to) + [r]])
  }

  function Drop(w: World, from: Owner, i: nat): World
    requires i < |HeldBy(w, from)|
  {
    w.(store := Release(w.store, HeldBy(w, from)[i]), held := w.held[from := Without(HeldBy(w, from), i)])
  }

  function Unreserve(w: World, c: nat): World {
    if c !in w.claims || !w.claims[c].reserved then w
    else w.(store := w.store.(reserved := w.store.reserved - 1,
                              reservedSize := w.store.reservedSize - w.claims[c].size),
            claims := w.claims[c := w.claims[c].(reserved := false)])
  }

  function Create(w: World, rec: Record, to: Owner): World {
    w.(store := Insert(w.store, w.next, rec), held := w.held[to := HeldBy(w, to) + [w.next]], next := w.next + 1)
  }

  // ---------------------------------------------------------------------------
  // The operations
  // ---------------------------------------------------------------------------

  /** begin: a candidate found by digest and length, else a reservation if one fits. */
  function BeginClaim(cfg: Config, w: World, c: nat, size: nat, digest: Bytes): World {
    if c in w.claims || size == 0 || size > cfg.maxSingle || HeldBy(w, Claiming(c)) != [] then w
    else
      var candidate := if |digest| == DIGEST_SIZE then FindSized(w.store, BucketOf(w.store, digest), size) else None;
      if candidate.Some? then
        Copy(w.(claims := w.claims[c := Claim(true, false, size)]), candidate.value, Claiming(c))
      else if CanReserve(cfg, w.store, size) then
        w.(claims := w.claims[c := Claim(false, true, size)],
           store := w.store.(reserved := w.store.reserved + 1, reservedSize := w.store.reservedSize + size))
      else w.(claims := w.claims[c := Claim(false, false, size)])
  }

  function Candidate(w: World, c: nat): Option<nat> {
    if HeldBy(w, Claiming(c)) == [] then None else Some(HeldBy(w, Claiming(c))[0])
  }

  /** compare: one differing chunk and the candidate no longer matches. */
  function Compare(w: World, c: nat, offset: nat, data: Bytes): World {
    if c !in w.claims || Candidate(w, c).None? || !w.claims[c].matched
       || Candidate(w, c).value !in w.store.records
       || offset + |data| > |w.store.records[Candidate(w, c).value].bytes| then w
    else if w.store.records[Candidate(w, c).value].bytes[offset..offset + |data|] == data then w
    else w.(claims := w.claims[c := w.claims[c].(matched := false)])
  }

  datatype FinishResult = Finished(record: nat) | Conflict | Capacity | Rejected

  function DropCandidate(w: World, c: nat): World {
    if HeldBy(w, Claiming(c)) == [] then w else Drop(w, Claiming(c), 0)
  }

  /** The retained record of the key if its bytes agree, else a new record if it fits. */
  function StoreInput(cfg: Config, w: World, c: nat, key: GroupKey, input: Bytes, t: nat): (World, FinishResult) {
    if key in w.store.byKey && w.store.byKey[key] in w.store.records then
      var r := w.store.byKey[key];
      if w.store.records[r].bytes != input then (w, Conflict) else (Copy(w, r, InHand(t)), Finished(r))
    else
      var free := Unreserve(w, c);
      if !CanReserve(cfg, free.store, |input|) then (free, Capacity)
      else (Create(free, Record(key, cfg.sha(input), input, 1), InHand(t)), Finished(free.next))
  }

  /** finish with a complete input: the candidate itself, the retained record of the same
      key, or a new record; never a second record for a key. */
  function FinishClaim(cfg: Config, w: World, c: nat, input: Bytes, expected: string, t: nat): (World, FinishResult) {
    if c !in w.claims || HeldBy(w, InHand(t)) != [] then (w, Rejected)
    else match cfg.parse(input)
      case None => (w, Rejected)
      case Some(key) =>
        if expected != "" && key.id != expected then (w, Rejected) else
        var candidate := Candidate(w, c);
        if candidate.Some? && w.claims[c].matched && candidate.value in w.store.records
           && w.store.records[candidate.value].bytes == input then
          (Move(w, Claiming(c), 0, InHand(t)), Finished(candidate.value))
        else
          var conflict := candidate.Some? && candidate.value in w.store.records &&
              w.store.records[candidate.value].key == key;
          var dropped := DropCandidate(w, c);
          if conflict then (dropped, Conflict) else StoreInput(cfg, dropped, c, key, input, t)
  }

  function CloseClaim(w: World, c: nat): World {
    Unreserve(DropCandidate(w, c), c)
  }

  /** commitClientGroup: the staged record becomes the published one of its group if it is
      newer; the previous one is then in hand for release. */
  function Publish(w: World, s: nat, i: nat, t: nat): World {
    if w.closed || i >= |HeldBy(w, Staging(s))| || HeldBy(w, InHand(t)) != [] then w
    else
      var r := HeldBy(w, Staging(s))[i];
      if r !in w.store.records then w
      else
        var key := w.store.records[r].key;
        var previous := HeldBy(w, Publishing(key.id));
        if previous == [] then Copy(w, r, Publishing(key.id))
        else if previous[0] in w.store.records && key.version > w.store.records[previous[0]].key.version then
          Copy(Move(w, Publishing(key.id), 0, InHand(t)), r, Publishing(key.id))
        else w
  }

  datatype Action =
    | DoBegin(claim: nat, size: nat, digest: Bytes)
    | DoCompare(claim: nat, offset: nat, data: Bytes)
    | DoFinish(claim: nat, input: Bytes, expected: string, token: nat)
    | DoClose(claim: nat)
    | DoStage(token: nat, state: nat)
    | DoUnstage(state: nat, index: nat, token: nat)
    | DoPublish(state: nat, index: nat, token: nat)
    | DoCloseControl
    | DoUnpublish(group: string, token: nat)
    | DoSnapshot(group: string, snapshot: nat)
    | DoReleaseSnapshot(snapshot: nat)
    | DoReleaseStaged(state: nat)
    | DoReleaseHand(token: nat)

  function DropFirst(w: World, o: Owner): World {
    if HeldBy(w, o) == [] then w else Drop(w, o, 0)
  }

  function MoveIf(w: World, from: Owner, i: nat, to: Owner): World {
    if i < |HeldBy(w, from)| && HeldBy(w, to) == [] then Move(w, from, i, to) else w
  }

  function Do(cfg: Config, w: World, a: Action): World {
    match a
    case DoBegin(c, size, digest) => BeginClaim(cfg, w, c, size, digest)
    case DoCompare(c, offset, data) => Compare(w, c, offset, data)
    case DoFinish(c, input, expected, t) => FinishClaim(cfg, w, c, input, expected, t).0
    case DoClose(c) => CloseClaim(w, c)
    case DoStage(t, s) => if HeldBy(w, InHand(t)) != [] then Move(w, InHand(t), 0, Staging(s)) else w
    case DoUnstage(s, i, t) => MoveIf(w, Staging(s), i, InHand(t))
    case DoPublish(s, i, t) => Publish(w, s, i, t)
    case DoCloseControl => w.(closed := true)
    case DoUnpublish(g, t) => if w.closed then MoveIf(w, Publishing(g), 0, InHand(t)) else w
    case DoSnapshot(g, n) =>
      if HeldBy(w, Publishing(g)) != [] then Copy(w, HeldBy(w, Publishing(g))[0], Snapshotting(n)) else w
    case DoReleaseSnapshot(n) => DropFirst(w, Snapshotting(n))
    case DoReleaseStaged(s) => DropFirst(w, Staging(s))
    case DoReleaseHand(t) => DropFirst(w, InHand(t))
  }

  function Run(cfg: Config, actions: seq<Action>): World {
    if actions == [] then START else Do(cfg, Run(cfg, actions[..|actions| - 1]), actions[|actions| - 1])
  }
}

/** The ledger over whole runs: conservation, agreement on versions, quotas, emptiness. */
module LedgerRun {
  import opened Basics
  import opened MeshWire
  import opened MeshLog
  import opened MapSum
  import opened Ledger
  import opened LedgerProof

  // ---------------------------------------------------------------------------
  // What each owner may hold
  // ---------------------------------------------------------------------------

  predicate HandOk(w: World, o: Owner) {
    var h := HeldBy(w, o);
    match o
    case Claiming(c) =>
      && |h| <= 1
      && (h != [] ==> c in w.claims && h[0] in w.store.records && |w.store.records[h[0]].bytes| == w.claims[c].size)
    case Publishing(g) => |h| <= 1 && (h != [] ==> h[0] in w.store.records && w.store.records[h[0]].key.id == g)
    case InHand(t) => |h| <= 1
    case Staging(_) => true
    case Snapshotting(_) => true
  }

  ghost predicate HandsOk(w: World) {
    forall o: Owner :: HandOk(w, o)
  }

  ghost predicate LedgerOk(cfg: Config, w: World) {
    StoreOk(cfg, w) && HandsOk(w)
  }

  lemma HandStable(w: World, next: World, o: Owner)
    requires HandOk(w, o) && HeldBy(next, o) == HeldBy(w, o)
    requires Counted(w) && Counted(next) && Follows(w, next)
    ensures HandOk(next, o)
  {
    if HeldBy(w, o) != [] {
      HeldLive(w, o, 0);
      HeldLive(next, o, 0);
      assert SameContent(w.store.records[HeldBy(w, o)[0]], next.store.records[HeldBy(w, o)[0]]);
    }
  }

  lemma HandsKept(w: World, next: World, a: Owner, b: Owner)
    requires HandsOk(w) && Counted(w) && Counted(next) && Follows(w, next)
    requires forall o :: o != a && o != b ==> HeldBy(next, o) == HeldBy(w, o)
    requires HandOk(next, a) && HandOk(next, b)
    ensures HandsOk(next)
  {
    hide Counted;
    hide Follows;
    forall o: Owner
      ensures HandOk(next, o)
    {
      assert HandOk(w, o);
      if o != a && o != b {
        HandStable(w, next, o);
      }
    }
  }

  /** Whether a reference to this record may be added to this owner. */
  predicate Fits(w: World, r: nat, to: Owner) {
    r in w.store.records &&
    match to
    case Claiming(c) => HeldBy(w, to) == [] && c in w.claims && |w.store.records[r].bytes| == w.claims[c].size
    case Publishing(g) => HeldBy(w, to) == [] && w.store.records[r].key.id == g
    case InHand(t) => HeldBy(w, to) == []
    case Staging(_) => true
    case Snapshotting(_) => true
  }

  lemma CopyOk(cfg: Config, w: World, r: nat, to: Owner)
    requires LedgerOk(cfg, w) && Fits(w, r, to)
    ensures LedgerOk(cfg, Copy(w, r, to)) && Follows(w, Copy(w, r, to))
  {
    hide Counted;
    hide IndexesOk;
    hide CountsOk;
    hide RecordsOk;
    hide Follows;
    CopyStore(cfg, w, r, to);
    assert HandOk(w, to);
    HandsKept(w, Copy(w, r, to), to, to);
  }

  lemma MoveOk(cfg: Config, w: World, from: Owner, i: nat, to: Owner)
    requires LedgerOk(cfg, w) && from != to && i < |HeldBy(w, from)| && Fits(w, HeldBy(w, from)[i], to)
    ensures LedgerOk(cfg, Move(w, from, i, to)) && Follows(w, Move(w, from, i, to))
  {
    hide Counted;
    hide IndexesOk;
    hide CountsOk;
    hide RecordsOk;
    hide Follows;
    MoveStore(cfg, w, from, i, to);
    assert HandOk(w, to) && HandOk(w, from);
    HandsKept(w, Move(w, from, i, to), from, to);
  }

  lemma DropOk(cfg: Config, w: World, from: Owner, i: nat)
    requires LedgerOk(cfg, w) && i < |HeldBy(w, from)|
    ensures LedgerOk(cfg, Drop(w, from, i)) && Follows(w, Drop(w, from, i))
  {
    hide Counted;
    hide IndexesOk;
    hide CountsOk;
    hide RecordsOk;
    hide Follows;
    hide Release;
    DropStore(cfg, w, from, i);
    assert HandOk(w, from);
    HandsKept(w, Drop(w, from, i), from, from);
  }

  lemma DropFirstOk(cfg: Config, w: World, o: Owner)
    requires LedgerOk(cfg, w)
    ensures LedgerOk(cfg, DropFirst(w, o)) && Follows(w, DropFirst(w, o))
  {
    if HeldBy(w, o) == [] {
      Unchanged(w.store.records, w.claims, w.next);
    } else {
      DropOk(cfg, w, o, 0);
    }
  }

  lemma UnreserveOk(cfg: Config, w: World, c: nat)
    requires LedgerOk(cfg, w)
    ensures LedgerOk(cfg, Unreserve(w, c)) && Follows(w, Unreserve(w, c))
  {
    hide Counted;
    hide IndexesOk;
    hide CountsOk;
    hide RecordsOk;
    UnreserveStore(cfg, w, c);
    forall o: Owner
      ensures HandOk(Unreserve(w, c), o)
    {
      assert HandOk(w, o);
    }
  }

  lemma CreateOk(cfg: Config, w: World, rec: Record, t: nat)
    requires LedgerOk(cfg, w) && rec.refs == 1 && RecordOk(cfg, rec) && HeldBy(w, InHand(t)) == []
    requires rec.key !in w.store.byKey && CanReserve(cfg, w.store, |rec.bytes|)
    ensures LedgerOk(cfg, Create(w, rec, InHand(t))) && Follows(w, Create(w, rec, InHand(t)))
  {
    hide Counted;
    hide IndexesOk;
    hide CountsOk;
    hide RecordsOk;
    hide Follows;
    hide Insert;
    CreateStore(cfg, w, rec, InHand(t));
    HandsKept(w, Create(w, rec, InHand(t)), InHand(t), InHand(t));
  }

  lemma FollowsSelf(w: World)
    ensures Follows(w, w)
  {
    Unchanged(w.store.records, w.claims, w.next);
  }

  lemma Chain(cfg: Config, a: World, b: World, c: World)
    requires LedgerOk(cfg, a) && LedgerOk(cfg, b) && Follows(a, b) && Follows(b, c)
    ensures Follows(a, c)
  {
    FollowsTrans(a, b, c);
  }

  // ---------------------------------------------------------------------------
  // The operations
  // ---------------------------------------------------------------------------

  lemma NewClaimOk(cfg: Config, w: World, c: nat, claim: Claim)
    requires LedgerOk(cfg, w) && c !in w.claims && !claim.reserved
    ensures LedgerOk(cfg, w.(claims := w.claims[c := claim])) && Follows(w, w.(claims := w.claims[c := claim]))
  {
    hide Counted;
    hide IndexesOk;
    hide CountsOk;
    hide RecordsOk;
    hide Follows;
    var next := w.(claims := w.claims[c := claim]);
    NewClaimStore(cfg, w, c, claim);
    forall o: Owner
      ensures HandOk(next, o)
    {
      assert HandOk(w, o);
    }
  }

  lemma ReserveOk(cfg: Config, w: World, c: nat, size: nat)
    requires LedgerOk(cfg, w) && c !in w.claims && CanReserve(cfg, w.store, size)
    ensures var next := w.(claims := w.claims[c := Claim(false, true, size)],
                           store := w.store.(reserved := w.store.reserved + 1,
                                             reservedSize := w.store.reservedSize + size));
            LedgerOk(cfg, next) && Follows(w, next)
  {
    hide Counted;
    hide IndexesOk;
    hide CountsOk;
    hide RecordsOk;
    hide Follows;
    var next := w.(claims := w.claims[c := Claim(false, true, size)],
                   store := w.store.(reserved := w.store.reserved + 1, reservedSize := w.store.reservedSize + size));
    ReserveStore(cfg, w, c, size);
    forall o: Owner
      ensures HandOk(next, o)
    {
      assert HandOk(w, o);
    }
  }

  lemma BeginOk(cfg: Config, w: World, c: nat, size: nat, digest: Bytes)
    requires LedgerOk(cfg, w)
    ensures LedgerOk(cfg, BeginClaim(cfg, w, c, size, digest)) && Follows(w, BeginClaim(cfg, w, c, size, digest))
  {
    hide StoreOk;
    hide HandsOk;
    hide Follows;
    hide FindSized;
    hide BucketOf;
    FollowsSelf(w);
    if !(c in w.claims || size == 0 || size > cfg.maxSingle || HeldBy(w, Claiming(c)) != []) {
      var candidate := if |digest| == DIGEST_SIZE then FindSized(w.store, BucketOf(w.store, digest), size) else None;
      if candidate.Some? {
        var claimed := w.(claims := w.claims[c := Claim(true, false, size)]);
        NewClaimOk(cfg, w, c, Claim(true, false, size));
        CopyOk(cfg, claimed, candidate.value, Claiming(c));
        Chain(cfg, w, claimed, Copy(claimed, candidate.value, Claiming(c)));
      } else if CanReserve(cfg, w.store, size) {
        ReserveOk(cfg, w, c, size);
      } else {
        NewClaimOk(cfg, w, c, Claim(false, false, size));
      }
    }
  }

  lemma UnmatchOk(cfg: Config, w: World, c: nat)
    requires LedgerOk(cfg, w) && c in w.claims
    ensures var next := w.(claims := w.claims[c := w.claims[c].(matched := false)]);
            LedgerOk(cfg, next) && Follows(w, next)
  {
    hide RefsOk;
    hide IndexesOk;
    hide RecordsOk;
    hide Sum;
    hide RecordsFollow;
    hide ClaimsFollow;
    var next := w.(claims := w.claims[c := w.claims[c].(matched := false)]);
    Unchanged(w.store.records, w.claims, w.next);
    SetClaimFollows(w.claims, c, next.claims[c]);
    SetClaim(w.claims, c, next.claims[c]);
    forall o: Owner
      ensures HandOk(next, o)
    {
      assert HandOk(w, o);
    }
  }

  lemma CompareOk(cfg: Config, w: World, c: nat, offset: nat, data: Bytes)
    requires LedgerOk(cfg, w)
    ensures LedgerOk(cfg, Compare(w, c, offset, data)) && Follows(w, Compare(w, c, offset, data))
  {
    hide StoreOk;
    hide HandsOk;
    hide Follows;
    FollowsSelf(w);
    if c in w.claims {
      UnmatchOk(cfg, w, c);
    }
  }

  lemma CloseOk(cfg: Config, w: World, c: nat)
    requires LedgerOk(cfg, w)
    ensures LedgerOk(cfg, CloseClaim(w, c)) && Follows(w, CloseClaim(w, c))
  {
    hide StoreOk;
    hide HandsOk;
    hide Follows;
    hide Drop;
    hide Unreserve;
    DropFirstOk(cfg, w, Claiming(c));
    UnreserveOk(cfg, DropCandidate(w, c), c);
    Chain(cfg, w, DropCandidate(w, c), CloseClaim(w, c));
  }

  lemma PublishOk(cfg: Config, w: World, s: nat, i: nat, t: nat)
    requires LedgerOk(cfg, w)
    ensures LedgerOk(cfg, Publish(w, s, i, t)) && Follows(w, Publish(w, s, i, t))
  {
    FollowsSelf(w);
    if !(w.closed || i >= |HeldBy(w, Staging(s))| || HeldBy(w, InHand(t)) != []) {
      HeldLive(w, Staging(s), i);
      var r := HeldBy(w, Staging(s))[i];
      var g := w.store.records[r].key.id;
      assert HandOk(w, Publishing(g));
      hide StoreOk;
      hide HandsOk;
      hide Follows;
      if HeldBy(w, Publishing(g)) == [] {
        CopyOk(cfg, w, r, Publishing(g));
      } else {
        var moved := Move(w, Publishing(g), 0, InHand(t));
        MoveOk(cfg, w, Publishing(g), 0, InHand(t));
        CopyOk(cfg, moved, r, Publishing(g));
        Chain(cfg, w, moved, Copy(moved, r, Publishing(g)));
      }
    }
  }

  lemma MoveIfOk(cfg: Config, w: World, from: Owner, i: nat, t: nat)
    requires LedgerOk(cfg, w) && from != InHand(t)
    ensures LedgerOk(cfg, MoveIf(w, from, i, InHand(t))) && Follows(w, MoveIf(w, from, i, InHand(t)))
  {
    FollowsSelf(w);
    if i < |HeldBy(w, from)| && HeldBy(w, InHand(t)) == [] {
      HeldLive(w, from, i);
      hide StoreOk;
      hide HandsOk;
      hide Follows;
      MoveOk(cfg, w, from, i, InHand(t));
    }
  }

  /** finish reaches the index only after the candidate is given back. */
  lemma FinishOk(cfg: Config, w: World, c: nat, input: Bytes, expected: string, t: nat)
    requires LedgerOk(cfg, w)
    ensures LedgerOk(cfg, FinishClaim(cfg, w, c, input, expected, t).0)
    ensures Follows(w, FinishClaim(cfg, w, c, input, expected, t).0)
  {
    hide StoreOk;
    hide HandsOk;
    hide Follows;
    hide Drop;
    hide Unreserve;
    hide Move;
    hide StoreInput;
    FollowsSelf(w);
    if c in w.claims && HeldBy(w, InHand(t)) == [] && cfg.parse(input).Some? {
      var key := cfg.parse(input).value;
      var candidate := Candidate(w, c);
      if candidate.Some? && w.claims[c].matched && candidate.value in w.store.records
         && w.store.records[candidate.value].bytes == input {
        MoveOk(cfg, w, Claiming(c), 0, InHand(t));
      } else {
        DropFirstOk(cfg, w, Claiming(c));
        EmptyHand(w, c, t);
        StoreInputOk(cfg, DropCandidate(w, c), c, key, input, t);
        Chain(cfg, w, DropCandidate(w, c), StoreInput(cfg, DropCandidate(w, c), c, key, input, t).0);
      }
    }
  }

  lemma EmptyHand(w: World, c: nat, t: nat)
    requires HeldBy(w, InHand(t)) == []
    ensures HeldBy(DropCandidate(w, c), InHand(t)) == []
  {
  }

  lemma UnreserveKeeps(w: World, c: nat)
    ensures Unreserve(w, c).held == w.held && Unreserve(w, c).store.byKey == w.store.byKey
    ensures Unreserve(w, c).store.records == w.store.records
  {
  }

  lemma KeyLive(cfg: Config, w: World, key: GroupKey)
    requires LedgerOk(cfg, w) && key in w.store.byKey
    ensures w.store.byKey[key] in w.store.records && w.store.records[w.store.byKey[key]].key == key
  {
  }

  lemma StoreInputOk(cfg: Config, w: World, c: nat, key: GroupKey, input: Bytes, t: nat)
    requires LedgerOk(cfg, w) && HeldBy(w, InHand(t)) == [] && cfg.parse(input) == Some(key)
    ensures LedgerOk(cfg, StoreInput(cfg, w, c, key, input, t).0) && Follows(w, StoreInput(cfg, w, c, key, input, t).0)
  {
    hide StoreOk;
    hide HandsOk;
    hide Follows;
    hide Unreserve;
    hide Create;
    hide Copy;
    FollowsSelf(w);
    var free := Unreserve(w, c);
    UnreserveOk(cfg, w, c);
    UnreserveKeeps(w, c);
    if key in w.store.byKey {
      KeyLive(cfg, w, key);
      CopyOk(cfg, w, w.store.byKey[key], InHand(t));
    } else if CanReserve(cfg, free.store, |input|) {
      var record := Record(key, cfg.sha(input), input, 1);
      CreateOk(cfg, free, record, t);
      Chain(cfg, w, free, Create(free, record, InHand(t)));
    }
  }

  lemma DoOk(cfg: Config, w: World, a: Action)
    requires LedgerOk(cfg, w)
    ensures LedgerOk(cfg, Do(cfg, w, a)) && Follows(w, Do(cfg, w, a))
  {
    hide StoreOk;
    hide HandsOk;
    hide Follows;
    hide FinishClaim;
    hide BeginClaim;
    hide Publish;
    hide Compare;
    hide CloseClaim;
    FollowsSelf(w);
    match a {
      case DoBegin(c, size, digest) => BeginOk(cfg, w, c, size, digest);
      case DoCompare(c, offset, data) => CompareOk(cfg, w, c, offset, data);
      case DoFinish(c, input, expected, t) => FinishOk(cfg, w, c, input, expected, t);
      case DoClose(c) => CloseOk(cfg, w, c);
      case DoStage(t, s) => if HeldBy(w, InHand(t)) != [] { StageOk(cfg, w, t, s); }
      case DoUnstage(s, i, t) => MoveIfOk(cfg, w, Staging(s), i, t);
      case DoPublish(s, i, t) => PublishOk(cfg, w, s, i, t);
      case DoCloseControl => ClosedOk(cfg, w);
      case DoUnpublish(g, t) => MoveIfOk(cfg, w, Publishing(g), 0, t);
      case DoSnapshot(g, n) => if HeldBy(w, Publishing(g)) != [] { SnapshotOk(cfg, w, g, n); }
      case DoReleaseSnapshot(n) => DropFirstOk(cfg, w, Snapshotting(n));
      case DoReleaseStaged(s) => DropFirstOk(cfg, w, Staging(s));
      case DoReleaseHand(t) => DropFirstOk(cfg, w, InHand(t));
    }
  }

  lemma StageOk(cfg: Config, w: World, t: nat, s: nat)
    requires LedgerOk(cfg, w) && HeldBy(w, InHand(t)) != []
    ensures LedgerOk(cfg, Move(w, InHand(t), 0, Staging(s))) && Follows(w, Move(w, InHand(t), 0, Staging(s)))
  {
    HeldLive(w, InHand(t), 0);
    MoveOk(cfg, w, InHand(t), 0, Staging(s));
  }

  lemma SnapshotOk(cfg: Config, w: World, g: string, n: nat)
    requires LedgerOk(cfg, w) && HeldBy(w, Publishing(g)) != []
    ensures var next := Copy(w, HeldBy(w, Publishing(g))[0], Snapshotting(n));
            LedgerOk(cfg, next) && Follows(w, next)
  {
    HeldLive(w, Publishing(g), 0);
    CopyOk(cfg, w, HeldBy(w, Publishing(g))[0], Snapshotting(n));
  }

  lemma ClosedOk(cfg: Config, w: World)
    requires LedgerOk(cfg, w)
    ensures LedgerOk(cfg, w.(closed := true)) && Follows(w, w.(closed := true))
  {
    hide RefsOk;
    hide IndexesOk;
    hide RecordsOk;
    hide Sum;
    hide RecordsFollow;
    hide ClaimsFollow;
    Unchanged(w.store.records, w.claims, w.next);
    forall o: Owner
      ensures HandOk(w.(closed := true), o)
    {
      assert HandOk(w, o);
    }
  }

  // ---------------------------------------------------------------------------
  // Whole runs
  // ---------------------------------------------------------------------------

  lemma StartOk(cfg: Config)
    ensures LedgerOk(cfg, START)
  {
    forall r: nat
      ensures Count(START.held, r) == 0
    {
      SumZero(Occurrences(START.held, r));
    }
    SumZero(Sizes(START.store.records));
    SumZero(Slots(START.claims));
    SumZero(SlotSizes(START.claims));
  }

  lemma {:induction false} RunOk(cfg: Config, actions: seq<Action>)
    ensures LedgerOk(cfg, Run(cfg, actions))
  {
    if actions == [] {
      StartOk(cfg);
    } else {
      RunOk(cfg, actions[..|actions| - 1]);
      DoOk(cfg, Run(cfg, actions[..|actions| - 1]), actions[|actions| - 1]);
    }
  }

  /** Conservation: references are counted exactly, both indexes list exactly the live
      records, and what is stored and what is reserved stay within both quotas together. */
  lemma Conservation(cfg: Config, actions: seq<Action>)
    ensures var w := Run(cfg, actions);
            && (forall r: nat :: Count(w.held, r) == if r in w.store.records then w.store.records[r].refs else 0)
            && (forall r :: r in w.store.records ==> w.store.records[r].refs > 0)
            && KeysOk(w.store.records, w.store.byKey)
            && DigestsOk(w.store.records, w.store.byDigest)
            && w.store.groups == |w.store.records| && w.store.bytes == Sum(Sizes(w.store.records))
            && w.store.reserved == Sum(Slots(w.claims)) && w.store.reservedSize == Sum(SlotSizes(w.claims))
            && w.store.groups + w.store.reserved <= cfg.maxGroups
            && w.store.bytes + w.store.reservedSize <= cfg.maxBytes
  {
    RunOk(cfg, actions);
    hide Run;
    hide Sum;
    hide KeysOk;
    hide DigestsOk;
    var w := Run(cfg, actions);
    forall r: nat
      ensures Count(w.held, r) == if r in w.store.records then w.store.records[r].refs else 0
    {
      assert Count(w.held, r) == RefsOf(w.store.records, r);
    }
  }

  predicate Released(w: World) {
    && (forall o :: o in w.held ==> w.held[o] == [])
    && (forall c :: c in w.claims ==> !w.claims[c].reserved)
  }

  lemma NothingCounted(w: World, r: nat)
    requires Released(w)
    ensures Count(w.held, r) == 0
  {
    SumZero(Occurrences(w.held, r));
  }

  lemma NothingRecorded(cfg: Config, w: World)
    requires LedgerOk(cfg, w) && Released(w)
    ensures w.store.records == map[]
  {
    forall r: nat
      ensures r !in w.store.records
    {
      NothingCounted(w, r);
      assert Count(w.held, r) == RefsOf(w.store.records, r);
    }
  }

  lemma DigestLive(records: map<nat, Record>, byDigest: map<Bytes, seq<nat>>, d: Bytes)
    requires DigestsOk(records, byDigest) && d in byDigest
    ensures records != map[]
  {
    assert BucketOk(records, d, byDigest[d]);
    assert byDigest[d][0] in records;
  }

  /** Once every owner has closed, the ledger is as it was at the start. */
  lemma AllReleased(cfg: Config, actions: seq<Action>)
    requires Released(Run(cfg, actions))
    ensures Run(cfg, actions).store == START.store
  {
    RunOk(cfg, actions);
    hide Run;
    var w := Run(cfg, actions);
    NothingRecorded(cfg, w);
    hide RefsOk;
    SumZero(Sizes(w.store.records));
    SumZero(Slots(w.claims));
    SumZero(SlotSizes(w.claims));
    hide Sum;
    assert w.store.byKey == map[];
    forall d | d in w.store.byDigest
      ensures false
    {
      DigestLive(w.store.records, w.store.byDigest, d);
    }
  }

  /** Version agreement: two holders of one group and version hold one record, so one content. */
  lemma Agreement(cfg: Config, actions: seq<Action>, o: Owner, i: nat, p: Owner, j: nat)
    requires var w := Run(cfg, actions);
             i < |HeldBy(w, o)| && j < |HeldBy(w, p)|
    ensures var w := Run(cfg, actions);
            var a, b := HeldBy(w, o)[i], HeldBy(w, p)[j];
            a in w.store.records && b in w.store.records
            && (w.store.records[a].key == w.store.records[b].key <==> a == b)
  {
    RunOk(cfg, actions);
    hide Run;
    HeldLive(Run(cfg, actions), o, i);
    HeldLive(Run(cfg, actions), p, j);
    hide RefsOk;
    hide DigestsOk;
    hide Sum;
  }

  // ---------------------------------------------------------------------------
  // What finish decides
  // ---------------------------------------------------------------------------

  lemma DropEffect(cfg: Config, w: World, c: nat, key: GroupKey)
    requires LedgerOk(cfg, w) && key in w.store.byKey
    requires Candidate(w, c).Some? ==> Candidate(w, c).value != w.store.byKey[key]
    ensures var next := DropCandidate(w, c);
            var r := w.store.byKey[key];
            key in next.store.byKey && next.store.byKey[key] == r && r in next.store.records
            && r in w.store.records && next.store.records[r].bytes == w.store.records[r].bytes
  {
    if Candidate(w, c).Some? {
      HeldLive(w, Claiming(c), 0);
    }
  }

  lemma DropKeepsAbsent(w: World, c: nat, key: GroupKey)
    requires key !in w.store.byKey
    ensures key !in DropCandidate(w, c).store.byKey
  {
  }

  /** The verdict depends on the retained record of the same key alone: with the same bytes
      that record is shared, with others the input is refused. */
  lemma FinishKnownKey(cfg: Config, w: World, c: nat, input: Bytes, expected: string, t: nat, key: GroupKey)
    requires LedgerOk(cfg, w) && c in w.claims && HeldBy(w, InHand(t)) == []
    requires cfg.parse(input) == Some(key) && (expected == "" || key.id == expected)
    requires key in w.store.byKey
    ensures var r := w.store.byKey[key];
            && r in w.store.records
            && FinishClaim(cfg, w, c, input, expected, t).1 ==
                 if w.store.records[r].bytes == input && (Candidate(w, c) == Some(r) ==> w.claims[c].matched)
                 then Finished(r) else Conflict
  {
    var r := w.store.byKey[key];
    var candidate := Candidate(w, c);
    KeyLive(cfg, w, key);
    if candidate.Some? {
      HeldLive(w, Claiming(c), 0);
      assert RecordOk(cfg, w.store.records[candidate.value]);
      assert w.store.byKey[w.store.records[candidate.value].key] == candidate.value;
    }
    if candidate != Some(r) {
      DropEffect(cfg, w, c, key);
    }
    hide StoreOk;
    hide HandsOk;
    hide Drop;
  }

  /** A new key is stored if it fits once the claim's own reservation and candidate are given back. */
  lemma FinishNewKey(cfg: Config, w: World, c: nat, input: Bytes, expected: string, t: nat, key: GroupKey)
    requires LedgerOk(cfg, w) && c in w.claims && HeldBy(w, InHand(t)) == []
    requires cfg.parse(input) == Some(key) && (expected == "" || key.id == expected)
    requires key !in w.store.byKey
    ensures var (next, result) := FinishClaim(cfg, w, c, input, expected, t);
            var free := Unreserve(DropCandidate(w, c), c);
            && result == (if CanReserve(cfg, free.store, |input|) then Finished(free.next) else Capacity)
            && (result.Finished? ==> free.next in next.store.records
                                     && next.store.records[free.next] == Record(key, cfg.sha(input), input, 1)
                                     && HeldBy(next, InHand(t)) == [free.next])
  {
    if Candidate(w, c).Some? {
      HeldLive(w, Claiming(c), 0);
      assert RecordOk(cfg, w.store.records[Candidate(w, c).value]);
      assert w.store.records[Candidate(w, c).value].key in w.store.byKey;
    }
    hide StoreOk;
    hide HandsOk;
    DropKeepsAbsent(w, c, key);
    EmptyHand(w, c, t);
    UnreserveKeeps(DropCandidate(w, c), c);
    hide Drop;
    hide Unreserve;
  }

  /** A claim that holds a reservation cannot lose its place: what it was admitted for fits. */
  lemma ReservationHolds(cfg: Config, w: World, c: nat, input: Bytes, expected: string, t: nat, key: GroupKey)
    requires LedgerOk(cfg, w) && c in w.claims && w.claims[c].reserved && |input| <= w.claims[c].size
    requires HeldBy(w, InHand(t)) == []
    requires cfg.parse(input) == Some(key) && (expected == "" || key.id == expected) && key !in w.store.byKey
    ensures FinishClaim(cfg, w, c, input, expected, t).1.Finished?
  {
    FinishNewKey(cfg, w, c, input, expected, t, key);
    hide FinishClaim;
    DropFirstOk(cfg, w, Claiming(c));
    hide RefsOk;
    hide IndexesOk;
    hide Sum;
    ReleaseKeepsClaims(w, c);
  }

  lemma ReleaseKeepsClaims(w: World, c: nat)
    ensures DropCandidate(w, c).claims == w.claims
  {
  }

  // ---------------------------------------------------------------------------
  // Published versions
  // ---------------------------------------------------------------------------

  function PublishedVersion(w: World, g: string): Option<nat> {
    var h := HeldBy(w, Publishing(g));
    if h == [] || h[0] !in w.store.records then None else Some(w.store.records[h[0]].key.version)
  }

  lemma OthersKeepPublished(cfg: Config, w: World, a: Action, g: string)
    requires !Do(cfg, w, a).closed && !a.DoPublish? && !w.closed
    ensures HeldBy(Do(cfg, w, a), Publishing(g)) == HeldBy(w, Publishing(g))
  {
    hide Release;
    hide Retain;
    hide Insert;
    hide FindSized;
    hide BucketOf;
  }

  lemma PublishSlot(w: World, s: nat, i: nat, t: nat, g: string)
    requires PublishedVersion(w, g).Some? && |HeldBy(w, Publishing(g))| == 1
    ensures var h := HeldBy(Publish(w, s, i, t), Publishing(g));
            || h == HeldBy(w, Publishing(g))
            || (|h| == 1 && h[0] in w.store.records && w.store.records[h[0]].key.version > PublishedVersion(w, g).value)
  {
    hide Retain;
  }

  lemma PublishRaises(cfg: Config, w: World, s: nat, i: nat, t: nat, g: string)
    requires LedgerOk(cfg, w) && PublishedVersion(w, g).Some?
    ensures PublishedVersion(Publish(w, s, i, t), g).Some?
    ensures PublishedVersion(Publish(w, s, i, t), g).value >= PublishedVersion(w, g).value
  {
    hide IndexesOk;
    hide CountsOk;
    hide RecordsOk;
    assert HandOk(w, Publishing(g));
    hide HandsOk;
    PublishSlot(w, s, i, t, g);
    PublishOk(cfg, w, s, i, t);
    hide Publish;
    HeldLive(Publish(w, s, i, t), Publishing(g), 0);
  }

  lemma StepNeverLowers(cfg: Config, w: World, a: Action, g: string)
    requires LedgerOk(cfg, w) && PublishedVersion(w, g).Some? && !w.closed && !Do(cfg, w, a).closed
    ensures PublishedVersion(Do(cfg, w, a), g).Some?
    ensures PublishedVersion(Do(cfg, w, a), g).value >= PublishedVersion(w, g).value
  {
    if a.DoPublish? {
      PublishRaises(cfg, w, a.state, a.index, a.token, g);
    } else {
      DoOk(cfg, w, a);
      OthersKeepPublished(cfg, w, a, g);
      hide Do;
      HeldLive(Do(cfg, w, a), Publishing(g), 0);
    }
  }

  lemma ClosedStays(cfg: Config, w: World, a: Action)
    requires w.closed
    ensures Do(cfg, w, a).closed
  {
    hide Release;
    hide Retain;
    hide Insert;
    hide FindSized;
  }

  /** Until the control state closes, a published group stays published and its version never decreases. */
  lemma {:induction false} PublishedNeverDecreases(cfg: Config, actions: seq<Action>, k: nat, g: string)
    requires k <= |actions| && !Run(cfg, actions).closed && PublishedVersion(Run(cfg, actions[..k]), g).Some?
    ensures PublishedVersion(Run(cfg, actions), g).Some?
    ensures PublishedVersion(Run(cfg, actions), g).value >= PublishedVersion(Run(cfg, actions[..k]), g).value
  {
    if k == |actions| {
      assert actions[..k] == actions;
    } else {
      var before := actions[..|actions| - 1];
      assert before[..k] == actions[..k];
      if Run(cfg, before).closed {
        ClosedStays(cfg, Run(cfg, before), actions[|actions| - 1]);
      }
      PublishedNeverDecreases(cfg, before, k, g);
      RunOk(cfg, before);
      StepNeverLowers(cfg, Run(cfg, before), actions[|actions| - 1], g);
    }
  }
}

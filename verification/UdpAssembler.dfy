/** Reassembly of fragments: one map of groups under two global limits. */
module UdpAssembler {
  import opened Basics
  import opened MapSum
  import opened UdpWire
  import opened UdpFragment

  const TIMEOUT: int := 5_000_000_000

  datatype Key = Key(session: nat, id: nat)

  datatype Group = Group(total: nat, received: nat, data: seq<Option<Bytes>>, created: int, retained: nat)

  datatype Limits = Limits(groups: nat, bytes: nat)

  /** The two atomic counters. */
  datatype Counters = Counters(groups: int, bytes: int)

  datatype AddError = InvalidTotal | InvalidIndex | TotalMismatch | Full | Closed

  datatype Outcome = More | Complete(payload: Bytes) | Rejected(error: AddError)

  datatype Held = Held(groups: map<Key, Group>, counters: Counters)

  /** A pooled buffer counts in full; a larger payload counts its own length. */
  function Retained(payload: Bytes): nat {
    if |payload| <= MAX_PIECE then MAX_PIECE else |payload|
  }

  function Filled(data: seq<Option<Bytes>>): nat {
    if data == [] then 0 else Filled(data[..|data| - 1]) + if data[|data| - 1].Some? then 1 else 0
  }

  /** joinFragmentGroup. */
  function JoinSlots(data: seq<Option<Bytes>>): Bytes {
    if data == [] then []
    else JoinSlots(data[..|data| - 1]) + if data[|data| - 1].Some? then data[|data| - 1].value else []
  }

  function NewGroup(total: nat, now: int): Group {
    Group(total, 0, seq(total, _ => None), now, 0)
  }

  function Place(g: Group, index: nat, payload: Bytes): Group
    requires index < |g.data|
  {
    g.(received := g.received + 1, data := g.data[index := Some(payload)], retained := g.retained + Retained(payload))
  }

  function Release(h: Held, key: Key): Held {
    if key !in h.groups then h
    else Held(h.groups - {key}, Counters(h.counters.groups - 1, h.counters.bytes - h.groups[key].retained))
  }

  predicate HasRoom(limits: Limits, h: Held, key: Key, payload: Bytes) {
    && (key in h.groups || 1 <= limits.groups - h.counters.groups)
    && Retained(payload) <= limits.bytes - h.counters.bytes
  }

  function GroupFor(h: Held, key: Key, total: nat, now: int): Group {
    if key in h.groups then h.groups[key] else NewGroup(total, now)
  }

  /** The group with the fragment in it, before anyone looks whether it is complete. */
  function Stored(h: Held, now: int, key: Key, index: nat, total: nat, payload: Bytes): Held
    requires index < |GroupFor(h, key, total, now).data|
  {
    Held(h.groups[key := Place(GroupFor(h, key, total, now), index, payload)],
         Counters(h.counters.groups + (if key in h.groups then 0 else 1), h.counters.bytes + Retained(payload)))
  }

  /** AddFragment under the lock of the map that holds the key. */
  function AddTo(limits: Limits, h: Held, now: int, key: Key, index: nat, total: nat, payload: Bytes): (Held, Outcome) {
    if total < 2 then (h, Rejected(InvalidTotal))
    else if index >= total then (h, Rejected(InvalidIndex))
    else if key in h.groups && h.groups[key].total != total then (Release(h, key), Rejected(TotalMismatch))
    else if key in h.groups && index >= |h.groups[key].data| then (h, Rejected(InvalidIndex))
    else if key in h.groups && h.groups[key].data[index].Some? then (h, More)
    else if !HasRoom(limits, h, key, payload) then (h, Rejected(Full))
    else
      var stored := Stored(h, now, key, index, total, payload);
      var g := stored.groups[key];
      if g.received == g.total then (Release(stored, key), Complete(JoinSlots(g.data))) else (stored, More)
  }

  // ---------------------------------------------------------------------------
  // Expiry
  // ---------------------------------------------------------------------------

  predicate Expired(g: Group, now: int) {
    now - g.created > TIMEOUT
  }

  function Survivors(groups: map<Key, Group>, now: int): map<Key, Group> {
    map key | key in groups && !Expired(groups[key], now) :: groups[key]
  }

  ghost function Sizes(groups: map<Key, Group>): map<Key, int> {
    map key | key in groups :: groups[key].retained
  }

  ghost function BytesOf(groups: map<Key, Group>): int {
    Sum(Sizes(groups))
  }

  ghost function Expire(h: Held, now: int): Held {
    var left := Survivors(h.groups, now);
    Held(left, Counters(h.counters.groups - (|h.groups| - |left|),
                        h.counters.bytes - (BytesOf(h.groups) - BytesOf(left))))
  }

  // ---------------------------------------------------------------------------
  // The invariant
  // ---------------------------------------------------------------------------

  predicate GroupOk(g: Group) {
    2 <= g.total && |g.data| == g.total && g.received == Filled(g.data) < g.total
  }

  predicate GroupsOk(groups: map<Key, Group>) {
    forall key :: key in groups ==> GroupOk(groups[key])
  }

  ghost predicate CountersOk(limits: Limits, h: Held) {
    h.counters == Counters(|h.groups|, BytesOf(h.groups)) && h.counters.groups <= limits.groups &&
        h.counters.bytes <= limits.bytes
  }

  ghost predicate HeldOk(limits: Limits, h: Held) {
    GroupsOk(h.groups) && CountersOk(limits, h)
  }

  lemma {:induction false} FillOne(data: seq<Option<Bytes>>, index: nat, payload: Bytes)
    requires index < |data| && data[index].None?
    ensures Filled(data[index := Some(payload)]) == Filled(data) + 1
  {
    var last := |data| - 1;
    var after := data[index := Some(payload)];
    if index == last {
      assert after[..last] == data[..last];
    } else {
      FillOne(data[..last], index, payload);
      assert after[..last] == data[..last][index := Some(payload)];
    }
  }

  lemma {:induction false} NoneFilled(data: seq<Option<Bytes>>)
    requires forall i :: 0 <= i < |data| ==> data[i].None?
    ensures Filled(data) == 0
  {
    if data != [] {
      NoneFilled(data[..|data| - 1]);
    }
  }

  lemma {:induction false} FilledBound(data: seq<Option<Bytes>>)
    ensures Filled(data) <= |data|
    ensures Filled(data) == |data| <==> forall i :: 0 <= i < |data| ==> data[i].Some?
  {
    if data != [] {
      FilledBound(data[..|data| - 1]);
      assert forall i :: 0 <= i < |data| - 1 ==> data[..|data| - 1][i] == data[i];
    }
  }

  lemma SetBytes(groups: map<Key, Group>, key: Key, g: Group)
    ensures BytesOf(groups[key := g]) ==
            BytesOf(groups) + g.retained - if key in groups then groups[key].retained else 0
  {
    assert Sizes(groups[key := g]) == Sizes(groups)[key := g.retained];
    SumUpdate(Sizes(groups), key, g.retained);
  }

  lemma RemoveBytes(groups: map<Key, Group>, key: Key)
    requires key in groups
    ensures BytesOf(groups - {key}) == BytesOf(groups) - groups[key].retained
  {
    assert Sizes(groups - {key}) == Sizes(groups) - {key};
    SumRemove(Sizes(groups), key);
  }

  /** Releasing a group gives back its slot and its bytes. */
  lemma ReleaseOk(limits: Limits, h: Held, key: Key)
    requires CountersOk(limits, h)
    ensures CountersOk(limits, Release(h, key))
  {
    hide BytesOf;
    if key in h.groups {
      RemoveBytes(h.groups, key);
      SizeRemove(h.groups, key);
    }
  }

  lemma GroupForOk(h: Held, key: Key, total: nat, now: int)
    requires GroupsOk(h.groups) && total >= 2 && (key in h.groups ==> h.groups[key].total == total)
    ensures GroupOk(GroupFor(h, key, total, now)) && GroupFor(h, key, total, now).total == total
  {
    NoneFilled(NewGroup(total, now).data);
  }

  lemma StoredCounters(limits: Limits, h: Held, now: int, key: Key, index: nat, total: nat, payload: Bytes)
    requires CountersOk(limits, h) && HasRoom(limits, h, key, payload) && index < |GroupFor(h, key, total, now).data|
    ensures CountersOk(limits, Stored(h, now, key, index, total, payload))
  {
    hide BytesOf;
    var g := Place(GroupFor(h, key, total, now), index, payload);
    SetBytes(h.groups, key, g);
    SizeUpdate(h.groups, key, g);
  }

  lemma PlaceFills(g: Group, index: nat, payload: Bytes)
    requires GroupOk(g) && index < |g.data| && g.data[index].None?
    ensures var p := Place(g, index, payload);
            p.total == g.total && |p.data| == p.total && p.received == Filled(p.data) <= p.total
  {
    FillOne(g.data, index, payload);
    FilledBound(g.data[index := Some(payload)]);
  }

  /** Counters equal what is live and stay within the limits, whatever is added. */
  lemma AddOk(limits: Limits, h: Held, now: int, key: Key, index: nat, total: nat, payload: Bytes)
    requires HeldOk(limits, h)
    ensures HeldOk(limits, AddTo(limits, h, now, key, index, total, payload).0)
  {
    ReleaseOk(limits, h, key);
    if total >= 2 && index < total && (key in h.groups ==> h.groups[key].total == total) {
      GroupForOk(h, key, total, now);
      var g := GroupFor(h, key, total, now);
      if g.data[index].None? && HasRoom(limits, h, key, payload) {
        StoredCounters(limits, h, now, key, index, total, payload);
        PlaceFills(g, index, payload);
        ReleaseOk(limits, Stored(h, now, key, index, total, payload), key);
      }
    }
    hide CountersOk;
    hide Filled;
    hide JoinSlots;
  }

  lemma {:induction false} RemainingBytes(groups: map<Key, Group>, left: map<Key, Group>)
    requires forall key :: key in left ==> key in groups && left[key] == groups[key]
    ensures BytesOf(left) <= BytesOf(groups) && |left| <= |groups|
    decreases |groups|
  {
    if groups != map[] {
      var key :| key in groups;
      RemoveBytes(groups, key);
      SizeRemove(groups, key);
      if key in left {
        RemoveBytes(left, key);
        SizeRemove(left, key);
        RemainingBytes(groups - {key}, left - {key});
      } else {
        RemainingBytes(groups - {key}, left);
      }
    } else {
      assert left == map[];
    }
  }

  lemma ExpireOk(limits: Limits, h: Held, now: int)
    requires HeldOk(limits, h)
    ensures HeldOk(limits, Expire(h, now))
  {
    hide BytesOf;
    hide GroupOk;
    RemainingBytes(h.groups, Survivors(h.groups, now));
  }
}

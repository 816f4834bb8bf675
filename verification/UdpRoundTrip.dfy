/** Fragment round trip: the datagrams of a packet, fed through decoding and reassembly in any
    order, give back the packet once, when the last missing piece arrives. */
module UdpRoundTrip {
  import opened Basics
  import opened MapSum
  import opened UdpWire
  import opened UdpFragment
  import opened UdpAssembler

  datatype Event = Packet(datagram: Bytes, now: int) | Cleanup(now: int)

  datatype Output = Whole(session: nat, payload: Bytes) | Partial | Failed

  /** DecodeAndAssembleUDPDatagram. */
  function Receive(limits: Limits, h: Held, d: Bytes, now: int): (Held, Output) {
    match Decode(d)
    case Refused(_) => (h, Failed)
    case Parsed(Normal(session, payload)) => (h, Whole(session, payload))
    case Parsed(Fragment(session, id, index, total, payload)) =>
      var (next, outcome) := AddTo(limits, h, now, Key(session, id), index, total, payload);
      match outcome
      case More => (next, Partial)
      case Complete(whole) => (next, Whole(session, whole))
      case Rejected(_) => (next, Failed)
  }

  ghost function Step(limits: Limits, h: Held, e: Event): Held {
    match e
    case Packet(d, now) => Receive(limits, h, d, now).0
    case Cleanup(now) => Expire(h, now)
  }

  ghost function After(limits: Limits, h: Held, events: seq<Event>): Held {
    if events == [] then h else Step(limits, After(limits, h, events[..|events| - 1]), events[|events| - 1])
  }

  /** The packet under way. */
  datatype Sent = Sent(session: nat, id: nat, data: Bytes)

  predicate Sendable(p: Sent) {
    p.session < U32 && p.id < U64 && |p.data| > MAX_PAYLOAD && Count(p.data) <= MAX_FRAGMENTS
  }

  function KeyOf(p: Sent): Key { Key(p.session, p.id) }

  /** Whether an event is the arrival of piece i. */
  predicate Delivers(p: Sent, e: Event, i: nat) {
    Sendable(p) && e.Packet? && i < Count(p.data) && e.datagram == FragmentsOf(p.session, p.id, p.data)[i]
  }

  /** Whether an event has nothing to do with the packet. */
  predicate Foreign(p: Sent, e: Event) {
    e.Packet? ==> match Decode(e.datagram)
                  case Parsed(Fragment(session, id, _, _, _)) => Key(session, id) != KeyOf(p)
                  case _ => true
  }

  function Arrived(p: Sent, e: Event): set<nat> {
    match e
    case Cleanup(_) => {}
    case Packet(d, _) =>
      match Decode(d)
      case Parsed(Fragment(session, id, index, _, _)) => if Key(session, id) == KeyOf(p) then {index} else {}
      case _ => {}
  }

  /** The pieces that have arrived. */
  function Seen(p: Sent, events: seq<Event>): set<nat> {
    if events == [] then {} else Seen(p, events[..|events| - 1]) + Arrived(p, events[|events| - 1])
  }

  ghost predicate All(p: Sent, seen: set<nat>) {
    forall i: nat :: i < Count(p.data) ==> i in seen
  }

  /** There is room for a piece, if it is not a duplicate. */
  predicate Fits(limits: Limits, h: Held, p: Sent, seen: set<nat>, i: nat)
    requires i < Count(p.data)
  {
    i in seen || HasRoom(limits, h, KeyOf(p), Piece(p.data, i))
  }

  /** An event is a piece of the packet that fits, or something else that does not expire it. */
  ghost predicate Benign(limits: Limits, h: Held, p: Sent, seen: set<nat>, e: Event) {
    if e.Cleanup? then KeyOf(p) in h.groups ==> !Expired(h.groups[KeyOf(p)], e.now)
    else Foreign(p, e) || exists i: nat :: Delivers(p, e, i) && Fits(limits, h, p, seen, i)
  }

  ghost predicate AllBenign(limits: Limits, h: Held, p: Sent, events: seq<Event>) {
    events == [] || (AllBenign(limits, h, p, events[..|events| - 1])
                     && Benign(limits, After(limits, h, events[..|events| - 1]), p, Seen(p, events[..|events| - 1]),
                               events[|events| - 1]))
  }

  // ---------------------------------------------------------------------------
  // What is held of the packet
  // ---------------------------------------------------------------------------

  predicate Slots(p: Sent, seen: set<nat>, data: seq<Option<Bytes>>) {
    && |data| == Count(p.data)
    && forall i :: 0 <= i < |data| ==> data[i] == if i in seen then Some(Piece(p.data, i)) else None
  }

  predicate Tracks(p: Sent, seen: set<nat>, groups: map<Key, Group>) {
    if seen == {} then KeyOf(p) !in groups
    else KeyOf(p) in groups && groups[KeyOf(p)].total == Count(p.data) && Slots(p, seen, groups[KeyOf(p)].data)
  }

  lemma Delivered(p: Sent, e: Event, i: nat)
    requires Delivers(p, e, i)
    ensures Decode(e.datagram) == Parsed(Fragment(p.session, p.id, i, Count(p.data), Piece(p.data, i)))
    ensures Arrived(p, e) == {i} && Count(p.data) >= 2
  {
    AtLeastTwo(p.data);
    FragmentDecodes(p.session, p.id, p.data, i);
  }

  lemma {:induction false} JoinFull(data: seq<Option<Bytes>>, pieces: seq<Bytes>)
    requires |data| == |pieces| && forall i :: 0 <= i < |data| ==> data[i] == Some(pieces[i])
    ensures JoinSlots(data) == Join(pieces)
  {
    if data != [] {
      JoinFull(data[..|data| - 1], pieces[..|pieces| - 1]);
    }
  }

  lemma FullIsData(p: Sent, data: seq<Option<Bytes>>, seen: set<nat>)
    requires Slots(p, seen, data) && All(p, seen)
    ensures JoinSlots(data) == p.data
  {
    JoinFull(data, Pieces(p.data));
    JoinIsData(p.data);
  }

  /** The group with one more piece. */
  lemma PlacedSlots(p: Sent, seen: set<nat>, g: Group, i: nat)
    requires Slots(p, seen, g.data) && i < |g.data| && i !in seen
    ensures Slots(p, seen + {i}, Place(g, i, Piece(p.data, i)).data)
  {
  }

  lemma CompleteIff(p: Sent, seen: set<nat>, g: Group)
    requires Slots(p, seen, g.data) && g.received == Filled(g.data) && g.total == |g.data|
    ensures g.received == g.total <==> All(p, seen)
  {
    FilledBound(g.data);
    if forall i :: 0 <= i < |g.data| ==> g.data[i].Some? {
      forall i: nat | i < Count(p.data)
        ensures i in seen
      {
        assert g.data[i].Some?;
      }
    }
  }

  lemma FreshSlots(p: Sent, now: int)
    ensures Slots(p, {}, NewGroup(Count(p.data), now).data)
  {
  }

  /** While some are missing, a piece is refused exactly for lack of room, and never a duplicate. */
  lemma RefusedIff(limits: Limits, h: Held, p: Sent, seen: set<nat>, e: Event, i: nat)
    requires Delivers(p, e, i) && GroupsOk(h.groups) && Tracks(p, seen, h.groups) && !All(p, seen)
    ensures Receive(limits, h, e.datagram, e.now).1 == Failed <==> !Fits(limits, h, p, seen, i)
  {
    Delivered(p, e, i);
    hide Decode;
    hide All;
    hide GroupsOk;
    hide JoinSlots;
  }

  /** A piece that arrives and fits, while some are missing. */
  lemma PieceArrives(limits: Limits, h: Held, p: Sent, seen: set<nat>, e: Event, i: nat)
    requires Delivers(p, e, i) && GroupsOk(h.groups) && Tracks(p, seen, h.groups) && !All(p, seen)
    requires Fits(limits, h, p, seen, i)
    ensures Receive(limits, h, e.datagram, e.now).1 == if All(p, seen + {i}) then Whole(p.session, p.data) else Partial
    ensures !All(p, seen + {i}) ==> Tracks(p, seen + {i}, Receive(limits, h, e.datagram, e.now).0.groups)
    ensures All(p, seen + {i}) ==> KeyOf(p) !in Receive(limits, h, e.datagram, e.now).0.groups
  {
    Delivered(p, e, i);
    hide Decode;
    var n, key, piece := Count(p.data), KeyOf(p), Piece(p.data, i);
    var g := GroupFor(h, key, n, e.now);
    GroupForOk(h, key, n, e.now);
    FreshSlots(p, e.now);
    assert Slots(p, seen, g.data);
    if i in seen {
      assert seen + {i} == seen;
    } else {
      var placed := Place(g, i, piece);
      PlaceFills(g, i, piece);
      PlacedSlots(p, seen, g, i);
      CompleteIff(p, seen + {i}, placed);
      if All(p, seen + {i}) {
        FullIsData(p, placed.data, seen + {i});
      }
    }
    hide GroupsOk;
    hide Slots;
    hide All;
    hide Filled;
    hide JoinSlots;
  }

  lemma ForeignKeeps(limits: Limits, h: Held, p: Sent, seen: set<nat>, e: Event)
    requires Tracks(p, seen, h.groups) && Foreign(p, e) && e.Packet?
    ensures Tracks(p, seen, Receive(limits, h, e.datagram, e.now).0.groups) && Arrived(p, e) == {}
  {
    hide Decode;
    hide Slots;
    hide Filled;
    hide JoinSlots;
  }

  lemma CleanupKeeps(h: Held, p: Sent, seen: set<nat>, now: int)
    requires Tracks(p, seen, h.groups) && (KeyOf(p) in h.groups ==> !Expired(h.groups[KeyOf(p)], now))
    ensures Tracks(p, seen, Expire(h, now).groups)
  {
    hide Slots;
  }

  // ---------------------------------------------------------------------------
  // Whole runs
  // ---------------------------------------------------------------------------

  lemma StepOk(limits: Limits, h: Held, e: Event)
    requires HeldOk(limits, h)
    ensures HeldOk(limits, Step(limits, h, e))
  {
    match e {
      case Cleanup(now) => ExpireOk(limits, h, now);
      case Packet(d, now) =>
        match Decode(d) {
          case Parsed(Fragment(session, id, index, total, payload)) =>
            AddOk(limits, h, now, Key(session, id), index, total, payload);
          case _ =>
        }
    }
    hide HeldOk;
    hide AddTo;
    hide Decode;
  }

  lemma {:induction false} AfterOk(limits: Limits, h: Held, events: seq<Event>)
    requires HeldOk(limits, h)
    ensures HeldOk(limits, After(limits, h, events))
  {
    hide HeldOk;
    hide Step;
    if events != [] {
      AfterOk(limits, h, events[..|events| - 1]);
      StepOk(limits, After(limits, h, events[..|events| - 1]), events[|events| - 1]);
    }
  }

  /** Until the last piece arrives, exactly the pieces seen are held. */
  lemma {:induction false} Tracking(limits: Limits, h: Held, p: Sent, events: seq<Event>)
    requires HeldOk(limits, h) && Sendable(p) && KeyOf(p) !in h.groups && AllBenign(limits, h, p, events)
    requires !All(p, Seen(p, events))
    ensures Tracks(p, Seen(p, events), After(limits, h, events).groups)
  {
    if events != [] {
      var before, e := events[..|events| - 1], events[|events| - 1];
      var now := After(limits, h, before);
      SeenGrows(p, before, e);
      Tracking(limits, h, p, before);
      AfterOk(limits, h, before);
      hide After;
      hide AllBenign;
      hide Seen;
      TrackStep(limits, now, p, Seen(p, before), e);
    }
  }

  lemma SeenGrows(p: Sent, before: seq<Event>, e: Event)
    ensures All(p, Seen(p, before)) ==> All(p, Seen(p, before) + Arrived(p, e))
  {
  }

  lemma TrackStep(limits: Limits, h: Held, p: Sent, seen: set<nat>, e: Event)
    requires HeldOk(limits, h) && Tracks(p, seen, h.groups) && Benign(limits, h, p, seen, e) &&
             !All(p, seen + Arrived(p, e)) && !All(p, seen)
    ensures Tracks(p, seen + Arrived(p, e), Step(limits, h, e).groups)
  {
    hide Receive;
    hide Tracks;
    hide CountersOk;
    match e {
      case Cleanup(now) =>
        CleanupKeeps(h, p, seen, now);
        assert seen + Arrived(p, e) == seen;
      case Packet(d, now) =>
        if Foreign(p, e) {
          ForeignKeeps(limits, h, p, seen, e);
          assert seen + Arrived(p, e) == seen;
        } else {
          var i: nat :| Delivers(p, e, i) && Fits(limits, h, p, seen, i);
          Delivered(p, e, i);
          PieceArrives(limits, h, p, seen, e, i);
        }
    }
  }

  /** Round trip: the datagrams of a packet may arrive in any order, more than once, between
      packets of others and cleanups. While room lasts and the packet does not expire, each piece
      but the last missing one gives nothing, and that one gives exactly the packet. */
  lemma RoundTrip(limits: Limits, h: Held, p: Sent, events: seq<Event>, d: Bytes, now: int, i: nat)
    requires HeldOk(limits, h) && KeyOf(p) !in h.groups && AllBenign(limits, h, p, events + [Packet(d, now)])
    requires Delivers(p, Packet(d, now), i) && !All(p, Seen(p, events))
    ensures Receive(limits, After(limits, h, events), d, now).1 ==
              if All(p, Seen(p, events + [Packet(d, now)])) then Whole(p.session, p.data) else Partial
    ensures All(p, Seen(p, events + [Packet(d, now)])) ==>
            KeyOf(p) !in Receive(limits, After(limits, h, events), d, now).0.groups
  {
    var e := Packet(d, now);
    assert (events + [e])[..|events|] == events;
    Tracking(limits, h, p, events);
    AfterOk(limits, h, events);
    Delivered(p, e, i);
    assert Seen(p, events + [e]) == Seen(p, events) + {i};
    NotForeign(p, e, i);
    SameIndex(limits, After(limits, h, events), p, Seen(p, events), e, i);
    hide After;
    hide Seen;
    hide Receive;
    hide CountersOk;
    PieceArrives(limits, After(limits, h, events), p, Seen(p, events), e, i);
  }

  /** A datagram is the arrival of one piece only. */
  lemma SameIndex(limits: Limits, h: Held, p: Sent, seen: set<nat>, e: Event, i: nat)
    requires Delivers(p, e, i) && Benign(limits, h, p, seen, e)
    ensures Fits(limits, h, p, seen, i)
  {
    NotForeign(p, e, i);
    var j: nat :| Delivers(p, e, j) && Fits(limits, h, p, seen, j);
    Delivered(p, e, i);
    Delivered(p, e, j);
    assert i in Arrived(p, e);
  }

  lemma NotForeign(p: Sent, e: Event, i: nat)
    requires Delivers(p, e, i)
    ensures !Foreign(p, e)
  {
    Delivered(p, e, i);
    hide Decode;
  }

  /** A packet that needs no splitting comes back from its one datagram. */
  lemma SmallRoundTrip(limits: Limits, h: Held, session: nat, data: Bytes, now: int)
    requires session < U32 && |data| <= MAX_PAYLOAD
    ensures Receive(limits, h, EncodeNormal(session, data), now) == (h, Whole(session, data))
  {
    DecodeEncoded(Normal(session, data));
    hide Decode;
  }
}

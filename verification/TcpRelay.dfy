/**
 The TCP relay's rendezvous: connections that name the same room are paired in arrival order, and a
 connection that waits too long is closed by a timer. Arrivals and timers interleave arbitrarily.
 */
module TcpRelay {
  import opened Bytes

  type Room = Octets
  type ConnId = nat

  const HEADER_LEN: nat := 13

  datatype Status = Waiting | Paired(peer: ConnId) | TimedOut

  datatype Conn = Conn(room: Room, role: Octet, status: Status)

  datatype Pair = Pair(room: Room, a: ConnId, b: ConnId)

  /** `pending` is the program's; the rest records what became of each connection and which timers are set. */
  datatype Relay = Relay(pending: map<Room, ConnId>, conns: map<ConnId, Conn>, timers: set<ConnId>, pairs: seq<Pair>)

  const EMPTY: Relay := Relay(map[], map[], {}, [])

  datatype Event = Arrive(c: ConnId, room: Room, role: Octet) | Timer(c: ConnId)

  predicate Enabled(s: Relay, e: Event) {
    match e
    case Arrive(c, _, _) => c !in s.conns
    case Timer(c) => c in s.timers && c in s.conns
  }

  function Settle(s: Relay, c: ConnId, status: Status): map<ConnId, Conn>
    requires c in s.conns
  {
    s.conns[c := s.conns[c].(status := status)]
  }

  function Apply(s: Relay, e: Event): Relay
    requires Enabled(s, e)
  {
    match e
    case Arrive(c, room, role) =>
      if room in s.pending && s.pending[room] in s.conns then
        var peer := s.pending[room];
        s.(pending := s.pending - {room},
           conns := Settle(s, peer, Paired(c))[c := Conn(room, role, Paired(peer))],
           pairs := s.pairs + [Pair(room, c, peer)])
      else
        s.(pending := s.pending[room := c],
           conns := s.conns[c := Conn(room, role, Waiting)],
           timers := s.timers + {c})
    case Timer(c) =>
      var room := s.conns[c].room;
      if room in s.pending && s.pending[room] == c then
        s.(pending := s.pending - {room}, conns := Settle(s, c, TimedOut), timers := s.timers - {c})
      else s.(timers := s.timers - {c})
  }

  predicate Legal(s: Relay, es: seq<Event>)
    decreases |es|
  {
    es == [] || (Enabled(s, es[0]) && Legal(Apply(s, es[0]), es[1..]))
  }

  function Exec(s: Relay, es: seq<Event>): Relay
    requires Legal(s, es)
    decreases |es|
  {
    if es == [] then s else Exec(Apply(s, es[0]), es[1..])
  }

  // ---------------------------------------------------------------- who is where

  ghost predicate IsWaiter(s: Relay, c: ConnId) {
    c in s.conns && s.conns[c].room in s.pending && s.pending[s.conns[c].room] == c
  }

  /** Partners name each other and share a room. */
  ghost predicate Partnered(s: Relay, c: ConnId, d: ConnId) {
    && c in s.conns && d in s.conns && c != d
    && s.conns[c].room == s.conns[d].room
    && s.conns[c].status == Paired(d) && s.conns[d].status == Paired(c)
  }

  ghost predicate PairHolds(s: Relay, p: Pair) {
    Partnered(s, p.a, p.b) && s.conns[p.a].room == p.room
  }

  ghost predicate Placed(s: Relay, c: ConnId)
    requires c in s.conns
  {
    match s.conns[c].status
    case Waiting => IsWaiter(s, c) && c in s.timers
    case Paired(d) => !IsWaiter(s, c) && Partnered(s, c, d)
    case TimedOut => !IsWaiter(s, c) && c !in s.timers
  }

  ghost predicate Inv(s: Relay) {
    && (forall room :: room in s.pending ==> s.pending[room] in s.conns && s.conns[s.pending[room]].room == room)
    && (forall c :: c in s.conns ==> Placed(s, c))
    && (forall c :: c in s.timers ==> c in s.conns)
    && (forall k :: 0 <= k < |s.pairs| ==> PairHolds(s, s.pairs[k]))
    && (forall k, l :: 0 <= k < l < |s.pairs| ==> {s.pairs[k].a, s.pairs[k].b} !! {s.pairs[l].a, s.pairs[l].b})
  }

  lemma PairUpInv(s: Relay, c: ConnId, room: Room, role: Octet)
    requires Inv(s) && Enabled(s, Arrive(c, room, role)) && room in s.pending
    ensures Inv(Apply(s, Arrive(c, room, role)))
  {
    var t, peer := Apply(s, Arrive(c, room, role)), s.pending[room];
    assert Placed(s, peer) && IsWaiter(s, peer);
    assert Partnered(t, c, peer);
    forall d | d in t.conns ensures Placed(t, d) {
      if d != c && d != peer {
        assert Placed(s, d);
      }
    }
    forall k | 0 <= k < |t.pairs| ensures PairHolds(t, t.pairs[k]) {
      if k < |s.pairs| {
        assert PairHolds(s, s.pairs[k]);
      }
    }
  }

  lemma WaitInv(s: Relay, c: ConnId, room: Room, role: Octet)
    requires Inv(s) && Enabled(s, Arrive(c, room, role)) && room !in s.pending
    ensures Inv(Apply(s, Arrive(c, room, role)))
  {
    var t := Apply(s, Arrive(c, room, role));
    forall d | d in t.conns ensures Placed(t, d) {
      if d != c {
        assert Placed(s, d);
      }
    }
    forall k | 0 <= k < |t.pairs| ensures PairHolds(t, t.pairs[k]) {
      assert PairHolds(s, s.pairs[k]);
    }
  }

  lemma TimerInv(s: Relay, c: ConnId)
    requires Inv(s) && Enabled(s, Timer(c))
    ensures Inv(Apply(s, Timer(c)))
  {
    var t := Apply(s, Timer(c));
    assert Placed(s, c);
    forall d | d in t.conns ensures Placed(t, d) {
      assert Placed(s, d);
    }
    forall k | 0 <= k < |t.pairs| ensures PairHolds(t, t.pairs[k]) {
      assert PairHolds(s, s.pairs[k]);
    }
  }

  lemma StepInv(s: Relay, e: Event)
    requires Inv(s) && Enabled(s, e)
    ensures Inv(Apply(s, e))
  {
    match e
    case Arrive(c, room, role) =>
      if room in s.pending {
        PairUpInv(s, c, room, role);
      } else {
        WaitInv(s, c, room, role);
      }
    case Timer(c) => TimerInv(s, c);
  }

  lemma {:induction false} RunInv(s: Relay, es: seq<Event>)
    requires Inv(s) && Legal(s, es)
    ensures Inv(Exec(s, es))
    decreases |es|
  {
    if es != [] {
      StepInv(s, es[0]);
      RunInv(Apply(s, es[0]), es[1..]);
    }
  }

  /**
   Over every interleaving of arrivals and timers: a connection waits iff it is its room's pending
   entry, and then its timer is still set; partners are mutual, share the room and are in one pair only.
   */
  lemma Rendezvous(es: seq<Event>, c: ConnId)
    requires Legal(EMPTY, es) && c in Exec(EMPTY, es).conns
    ensures var s := Exec(EMPTY, es);
      && (s.conns[c].status.Waiting? <==> IsWaiter(s, c))
      && (s.conns[c].status.Waiting? ==> c in s.timers)
      && (s.conns[c].status.Paired? ==> Partnered(s, c, s.conns[c].status.peer))
      && forall k, l :: 0 <= k < l < |s.pairs| ==> {s.pairs[k].a, s.pairs[k].b} !! {s.pairs[l].a, s.pairs[l].b}
  {
    RunInv(EMPTY, es);
    assert Placed(Exec(EMPTY, es), c);
  }

  /** A timer that fires after its connection found a partner changes nothing; none touches another connection. */
  lemma StaleTimer(es: seq<Event>, c: ConnId)
    requires Legal(EMPTY, es) && Enabled(Exec(EMPTY, es), Timer(c))
    ensures var s := Exec(EMPTY, es); var t := Apply(s, Timer(c));
      && (forall d :: d in s.conns && d != c ==>
           d in t.conns && t.conns[d] == s.conns[d] && (IsWaiter(t, d) <==> IsWaiter(s, d)))
      && t.timers == s.timers - {c}
      && (t.conns[c].status.TimedOut? <==> s.conns[c].status.Waiting?)
      && (!s.conns[c].status.Waiting? ==> t.conns == s.conns && t.pending == s.pending)
  {
    RunInv(EMPTY, es);
    assert Placed(Exec(EMPTY, es), c);
  }

  // ---------------------------------------------------------------- conservation

  function InRoom(s: Relay, room: Room): set<ConnId> { set c | c in s.conns && s.conns[c].room == room }

  function PairedIn(s: Relay, room: Room): set<ConnId> { set c | c in InRoom(s, room) && s.conns[c].status.Paired? }

  function TimedOutIn(s: Relay, room: Room): set<ConnId> { set c | c in InRoom(s, room) && s.conns[c].status.TimedOut? }

  function PairsIn(pairs: seq<Pair>, room: Room): nat {
    if pairs == [] then 0
    else PairsIn(pairs[..|pairs| - 1], room) + if pairs[|pairs| - 1].room == room then 1 else 0
  }

  /** Every paired connection is accounted for by a pair. */
  ghost predicate Counted(s: Relay) {
    forall room :: |PairedIn(s, room)| == 2 * PairsIn(s.pairs, room)
  }

  lemma StepCounted(s: Relay, e: Event)
    requires Inv(s) && Counted(s) && Enabled(s, e)
    ensures Counted(Apply(s, e))
  {
    if e.Arrive? && e.room in s.pending {
      PairingCounted(s, e.c, e.room, e.role);
    } else {
      OtherCounted(s, e);
    }
  }

  lemma PairingPairs(s: Relay, c: ConnId, room: Room, role: Octet, r: Room)
    requires Inv(s) && Enabled(s, Arrive(c, room, role)) && room in s.pending
    ensures var t := Apply(s, Arrive(c, room, role)); var peer := s.pending[room];
      && PairedIn(t, r) == (if r == room then PairedIn(s, r) + {c, peer} else PairedIn(s, r))
      && c !in PairedIn(s, r) && peer !in PairedIn(s, r) && c != peer
  {
    var t, peer := Apply(s, Arrive(c, room, role)), s.pending[room];
    assert Placed(s, peer) && IsWaiter(s, peer);
    assert t.conns[c] == Conn(room, role, Paired(peer));
    assert t.conns[peer].room == room && t.conns[peer].status == Paired(c);
    forall d ensures d in PairedIn(t, r) <==> d in PairedIn(s, r) || (r == room && (d == c || d == peer)) {
      if d != c && d != peer {
        assert d in t.conns <==> d in s.conns;
      }
    }
  }

  lemma PairingCounted(s: Relay, c: ConnId, room: Room, role: Octet)
    requires Inv(s) && Counted(s) && Enabled(s, Arrive(c, room, role)) && room in s.pending
    ensures Counted(Apply(s, Arrive(c, room, role)))
  {
    var t, peer := Apply(s, Arrive(c, room, role)), s.pending[room];
    assert t.pairs == s.pairs + [Pair(room, c, peer)] && t.pairs[..|t.pairs| - 1] == s.pairs;
    forall r ensures |PairedIn(t, r)| == 2 * PairsIn(t.pairs, r) {
      PairingPairs(s, c, room, role, r);
      AddTwo(PairedIn(s, r), c, peer);
      assert |PairedIn(s, r)| == 2 * PairsIn(s.pairs, r);
    }
  }

  lemma AddTwo(s: set<ConnId>, c: ConnId, d: ConnId)
    requires c !in s && d !in s && c != d
    ensures |s + {c, d}| == |s| + 2
  {
    assert s + {c, d} == s + {c} + {d};
  }

  lemma OtherCounted(s: Relay, e: Event)
    requires Inv(s) && Counted(s) && Enabled(s, e) && !(e.Arrive? && e.room in s.pending)
    ensures Counted(Apply(s, e))
  {
    var t := Apply(s, e);
    if e.Timer? {
      assert Placed(s, e.c);
    }
    forall r ensures |PairedIn(t, r)| == 2 * PairsIn(t.pairs, r) {
      assert |PairedIn(s, r)| == 2 * PairsIn(s.pairs, r);
      assert PairedIn(t, r) == PairedIn(s, r);
    }
  }

  lemma {:induction false} RunCounted(s: Relay, es: seq<Event>)
    requires Inv(s) && Counted(s) && Legal(s, es)
    ensures Counted(Exec(s, es))
    decreases |es|
  {
    if es != [] {
      StepCounted(s, es[0]);
      StepInv(s, es[0]);
      RunCounted(Apply(s, es[0]), es[1..]);
    }
  }

  /** Every arrival in a room is half of a pair, timed out, or the one that waits. */
  lemma RoomBalance(es: seq<Event>, room: Room)
    requires Legal(EMPTY, es)
    ensures var s := Exec(EMPTY, es);
      |InRoom(s, room)| == 2 * PairsIn(s.pairs, room) + |TimedOutIn(s, room)| + if room in s.pending then 1 else 0
  {
    var s := Exec(EMPTY, es);
    assert Counted(EMPTY) by {
      assert forall r :: PairedIn(EMPTY, r) == {};
    }
    RunInv(EMPTY, es);
    RunCounted(EMPTY, es);
    assert |PairedIn(s, room)| == 2 * PairsIn(s.pairs, room);
    var waiting := if room in s.pending then {s.pending[room]} else {};
    forall c | c in InRoom(s, room) ensures c in PairedIn(s, room) + TimedOutIn(s, room) + waiting {
      assert Placed(s, c);
    }
    if room in s.pending {
      assert Placed(s, s.pending[room]);
    }
    assert InRoom(s, room) == PairedIn(s, room) + TimedOutIn(s, room) + waiting;
    assert |InRoom(s, room)| == |PairedIn(s, room)| + |TimedOutIn(s, room)| + |waiting|;
  }

  // ---------------------------------------------------------------- roles

  /** The relay never looks at the role: two senders of one room are paired with each other. */
  lemma TwoSendersPair(room: Room)
    ensures var es := [Arrive(0, room, 83), Arrive(1, room, 83)];
      && Legal(EMPTY, es)
      && Exec(EMPTY, es).pairs == [Pair(room, 1, 0)]
      && Exec(EMPTY, es).conns == map[0 := Conn(room, 83, Paired(1)), 1 := Conn(room, 83, Paired(0))]
  {
    var e0, e1 := Arrive(0, room, 83), Arrive(1, room, 83);
    Append(EMPTY, [], e0);
    assert [] + [e0] == [e0];
    Append(EMPTY, [e0], e1);
    assert [e0] + [e1] == [e0, e1];
  }

  /** The guard the pairing branch does not have: whoever waits has the other role. */
  predicate Matched(s: Relay, e: Event) {
    e.Arrive? && e.room in s.pending && s.pending[e.room] in s.conns ==> s.conns[s.pending[e.room]].role != e.role
  }

  predicate RunMatched(s: Relay, es: seq<Event>)
    requires Legal(s, es)
    decreases |es|
  {
    es == [] || (Matched(s, es[0]) && RunMatched(Apply(s, es[0]), es[1..]))
  }

  ghost predicate Complementary(s: Relay) {
    forall k :: 0 <= k < |s.pairs| ==>
      s.pairs[k].a in s.conns && s.pairs[k].b in s.conns && s.conns[s.pairs[k].a].role != s.conns[s.pairs[k].b].role
  }

  lemma StepComplementary(s: Relay, e: Event)
    requires Inv(s) && Enabled(s, e)
    ensures Complementary(Apply(s, e)) <==> Complementary(s) && Matched(s, e)
  {
    var t := Apply(s, e);
    assert forall d :: d in s.conns ==> d in t.conns && t.conns[d].role == s.conns[d].role;
    assert forall k :: 0 <= k < |s.pairs| ==> t.pairs[k] == s.pairs[k] && PairHolds(s, s.pairs[k]);
    if e.Arrive? && e.room in s.pending {
      assert t.pairs[|s.pairs|] == Pair(e.room, e.c, s.pending[e.room]);
    }
  }

  lemma {:induction false} RunComplementary(s: Relay, es: seq<Event>)
    requires Inv(s) && Legal(s, es)
    ensures Complementary(Exec(s, es)) <==> Complementary(s) && RunMatched(s, es)
    decreases |es|
  {
    if es != [] {
      StepComplementary(s, es[0]);
      StepInv(s, es[0]);
      RunComplementary(Apply(s, es[0]), es[1..]);
    }
  }

  /** Every pair is a sender and a receiver iff every arrival that found a waiter found one of the other role. */
  lemma ComplementaryPairs(es: seq<Event>)
    requires Legal(EMPTY, es)
    ensures Complementary(Exec(EMPTY, es)) <==> RunMatched(EMPTY, es)
  {
    RunComplementary(EMPTY, es);
  }

  // ---------------------------------------------------------------- the hub

  class RelayHub {
    var pending: map<Room, ConnId>
    ghost var st: Relay
    ghost var trace: seq<Event>

    ghost predicate Valid()
      reads this
    {
      Legal(EMPTY, trace) && Exec(EMPTY, trace) == st && pending == st.pending
    }

    constructor ()
      ensures Valid() && trace == []
    {
      pending, st, trace := map[], EMPTY, [];
    }

    ghost method Record(e: Event)
      requires Valid() && Enabled(st, e)
      modifies this`st, this`trace
      ensures Legal(EMPTY, trace) && Exec(EMPTY, trace) == st == Apply(old(st), e) && trace == old(trace) + [e]
    {
      Append(EMPTY, trace, e);
      st, trace := Apply(st, e), trace + [e];
    }

    /**
     A new connection has sent its header, or failed to. Returns the partner to relay with, if there
     is one; otherwise the connection waits, and its timer is set. A short header changes nothing.
     */
    method HandleRelayConn(c: ConnId, header: Octets) returns (accepted: bool, peer: Option<ConnId>)
      requires Valid() && c !in st.conns
      modifies this
      ensures Valid() && accepted == (|header| >= HEADER_LEN)
      ensures !accepted ==> st == old(st) && peer.None?
      ensures |header| == 13 ==>
        accepted && c in st.conns && st.conns[c].room == header[..12] && st.conns[c].role == header[12]
      ensures |header| < 13 ==> !accepted
      ensures accepted ==>
        && st == Apply(old(st), Arrive(c, header[..12], header[12]))
        && st.conns[c].status == if peer.Some? then Paired(peer.value) else Waiting
    {
      peer := None;
      accepted := |header| >= HEADER_LEN;
      if accepted {
        var roomID := header[..12];
        RunInv(EMPTY, trace);
        Record(Arrive(c, roomID, header[12]));
        if roomID in pending {
          peer := Some(pending[roomID]);
          pending := pending - {roomID};
        } else {
          pending := pending[roomID := c];
        }
      }
    }

    /** The timer set for c fires; true if it closes the connection. */
    method OnTimer(c: ConnId, roomID: Room) returns (closed: bool)
      requires Valid() && c in st.timers && c in st.conns && st.conns[c].room == roomID
      modifies this
      ensures Valid() && st == Apply(old(st), Timer(c)) && closed == old(st).conns[c].status.Waiting?
    {
      RunInv(EMPTY, trace);
      assert Placed(st, c);
      Record(Timer(c));
      closed := roomID in pending && pending[roomID] == c;
      if closed {
        pending := pending - {roomID};
      }
    }
  }

  lemma {:induction false} Append(s: Relay, es: seq<Event>, e: Event)
    requires Legal(s, es) && Enabled(Exec(s, es), e)
    ensures Legal(s, es + [e]) && Exec(s, es + [e]) == Apply(Exec(s, es), e)
    decreases |es|
  {
    if es == [] {
      assert [e][1..] == [];
    } else {
      assert (es + [e])[1..] == es[1..] + [e];
      Append(Apply(s, es[0]), es[1..], e);
    }
  }
}

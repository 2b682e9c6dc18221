/** The engine's candidate buffers and the two handlers that drain them across their awaits. */
module IceEngine {
  import opened Bytes
  import opened IceProtocol

  /** The part of a connection record that matters here; `added` logs the calls of pc.addIceCandidate. */
  datatype Connection = Connection(remoteDescriptionSet: bool, pendingCandidates: seq<Candidate>, added: seq<Candidate>)

  /** While others run, all that can happen to a connection whose handler is suspended is arrivals. */
  ghost predicate OnlyArrivals(l: Link, m: Link) {
    exists cs :: m == ArriveAll(l, cs)
  }

  lemma {:induction false} ArriveAllKeeps(l: Link, cs: seq<Candidate>)
    ensures var m := ArriveAll(l, cs);
      && m.progress == l.progress && m.made == l.made && m.remote == l.remote
      && (l.made ==> m.global == l.global)
      && (l.remote ==> m.pending == l.pending)
    decreases |cs|
  {
    if cs != [] {
      ArriveAllKeeps(Arrived(l, cs[0]), cs[1..]);
    }
  }

  lemma OnlyArrivalsKeeps(l: Link, m: Link)
    requires OnlyArrivals(l, m)
    ensures m.progress == l.progress && m.made == l.made && m.remote == l.remote
    ensures (l.made ==> m.global == l.global) && (l.remote ==> m.pending == l.pending)
  {
    var cs :| m == ArriveAll(l, cs);
    ArriveAllKeeps(l, cs);
  }

  /** The events in trace make of a fresh index what l says. */
  ghost predicate Ran(trace: seq<Event>, l: Link) {
    Legal(UNKNOWN, trace) && Exec(UNKNOWN, trace) == l
  }

  function LinkOf(links: map<nat, Link>, i: nat): Link { if i in links then links[i] else UNKNOWN }

  function TraceOf(traces: map<nat, seq<Event>>, i: nat): seq<Event> { if i in traces then traces[i] else [] }

  ghost predicate AllRan(links: map<nat, Link>, traces: map<nat, seq<Event>>) {
    forall i: nat :: Ran(TraceOf(traces, i), LinkOf(links, i))
  }

  /** No event recorded at any index is forgotten. */
  ghost predicate Extends(a: map<nat, seq<Event>>, b: map<nat, seq<Event>>) {
    forall j: nat :: TraceOf(a, j) <= TraceOf(b, j)
  }

  lemma ExtendsTwice(a: map<nat, seq<Event>>, b: map<nat, seq<Event>>, c: map<nat, seq<Event>>)
    requires Extends(a, b) && Extends(b, c)
    ensures Extends(a, c)
  {
    forall j: nat ensures TraceOf(a, j) <= TraceOf(c, j) {
      assert TraceOf(a, j) <= TraceOf(b, j) <= TraceOf(c, j);
    }
  }

  lemma RanSound(trace: seq<Event>, l: Link)
    requires Ran(trace, l)
    ensures Inv(l) && l.received == Candidates(trace)
  {
    RunInv(UNKNOWN, trace);
    ReceivedIs(UNKNOWN, trace);
    assert [] + Candidates(trace) == Candidates(trace);
  }

  lemma RanNext(links: map<nat, Link>, traces: map<nat, seq<Event>>, i: nat, e: Event)
    requires AllRan(links, traces) && Enabled(LinkOf(links, i), e)
    ensures AllRan(links[i := Apply(LinkOf(links, i), e)], traces[i := TraceOf(traces, i) + [e]])
  {
    var links1, traces1 := links[i := Apply(LinkOf(links, i), e)], traces[i := TraceOf(traces, i) + [e]];
    assert Ran(TraceOf(traces, i), LinkOf(links, i));
    Append(UNKNOWN, TraceOf(traces, i), e);
    forall j: nat ensures Ran(TraceOf(traces1, j), LinkOf(links1, j)) {
      assert Ran(TraceOf(traces, j), LinkOf(links, j));
    }
  }

  /** At an index whose handler has ended, only the global buffer can hold anything back. */
  lemma SettledHas(trace: seq<Event>, l: Link)
    requires Ran(trace, l) && l.progress.Settled?
    ensures l.early == 0 && l.pending == [] && SameTimes(l.handed + l.global, Candidates(trace))
    ensures l.global == [] ==> SameTimes(l.handed, Candidates(trace))
    ensures InOrder(trace, l)
  {
    HandedInOrder(trace);
    RanSound(trace, l);
    assert Waiting(l) == l.global;
    assert l.global == [] ==> l.handed + l.global == l.handed;
  }

  class Engine {
    var connections: seq<Option<Connection>>
    var globalPendingIce: map<nat, seq<Candidate>>
    ghost var links: map<nat, Link>           // the protocol state of every index
    ghost var traces: map<nat, seq<Event>>    // what has happened so far at every index

    ghost function LinkAt(i: nat): Link
      reads this
    {
      LinkOf(links, i)
    }

    ghost function TraceAt(i: nat): seq<Event>
      reads this
    {
      TraceOf(traces, i)
    }

    function Conn(i: nat): Option<Connection>
      reads this
    {
      if i < |connections| then connections[i] else None
    }

    function Buffered(i: nat): seq<Candidate>
      reads this
    {
      if i in globalPendingIce then globalPendingIce[i] else []
    }

    /** The fields hold what the protocol state of each index says. */
    ghost predicate Tied(i: nat)
      reads this
    {
      var l := LinkAt(i);
      && l.global == Buffered(i)
      && Conn(i) == if l.made then Some(Connection(l.remote, l.pending, l.handed)) else None
    }

    ghost predicate Valid()
      reads this
    {
      AllRan(links, traces) && forall i: nat :: Tied(i)
    }

    twostate predicate Grows()
      reads this
    {
      Extends(old(traces), traces)
    }

    /** At index i no candidate is dropped from the logs, and each one received is handed over or waiting once. */
    twostate predicate Accounts(i: nat)
      reads this
    {
      && old(LinkAt(i)).received <= LinkAt(i).received && old(LinkAt(i)).handed <= LinkAt(i).handed
      && SameTimes(LinkAt(i).handed + Waiting(LinkAt(i)), Candidates(TraceAt(i)))
      && LinkAt(i).received == Candidates(TraceAt(i))
    }

    twostate lemma GrownAccounts(i: nat)
      requires old(Valid()) && Valid() && Grows()
      ensures Accounts(i)
    {
      assert old(Ran(TraceAt(i), LinkAt(i))) && Ran(TraceAt(i), LinkAt(i));
      RanSound(TraceAt(i), LinkAt(i));
      LogsGrow(UNKNOWN, old(TraceAt(i)), TraceAt(i));
    }

    /** All that has happened is event e at index i. */
    twostate predicate Took(i: nat, e: Event)
      requires Enabled(old(LinkAt(i)), e)
      reads this
    {
      && links == old(links)[i := Apply(old(LinkAt(i)), e)]
      && traces == old(traces)[i := old(TraceAt(i)) + [e]]
    }

    constructor ()
      ensures Valid() && links == map[] && traces == map[]
    {
      connections, globalPendingIce, links, traces := [], map[], map[], map[];
    }

    /** An await of the handler for index i: candidates may arrive, and other handlers run. */
    method Await(i: nat)
      requires Valid()
      modifies this
      ensures Valid() && Grows() && OnlyArrivals(old(LinkAt(i)), LinkAt(i))
    {
      assert LinkAt(i) == ArriveAll(LinkAt(i), []);
    }

    /** A protocol step at index i. */
    ghost method Step(i: nat, e: Event)
      requires AllRan(links, traces) && Enabled(LinkAt(i), e)
      modifies this`links, this`traces
      ensures AllRan(links, traces) && Took(i, e) && Grows()
    {
      RanNext(links, traces, i, e);
      links, traces := links[i := Apply(LinkAt(i), e)], traces[i := TraceAt(i) + [e]];
    }

    /** What the history of index i says of its state. */
    lemma Known(i: nat)
      requires Valid()
      ensures Tied(i) && Inv(LinkAt(i)) && LinkAt(i).received == Candidates(TraceAt(i))
    {
      assert Ran(TraceAt(i), LinkAt(i));
      RanSound(TraceAt(i), LinkAt(i));
    }

    /** Buffer a candidate, or hand it over at once if the remote description is set. */
    method Store(i: nat, c: Candidate)
      modifies this`connections, this`globalPendingIce
      ensures forall j: nat :: j != i ==> Conn(j) == old(Conn(j)) && Buffered(j) == old(Buffered(j))
      ensures Buffered(i) == old(Buffered(i)) + if old(Conn(i)).None? then [c] else []
      ensures old(Conn(i)).None? ==> Conn(i).None?
      ensures old(Conn(i)).Some? ==> var conn := old(Conn(i)).value;
        Conn(i) == Some(if conn.remoteDescriptionSet then conn.(added := conn.added + [c])
                        else conn.(pendingCandidates := conn.pendingCandidates + [c]))
    {
      match Conn(i) {
        case None => globalPendingIce := globalPendingIce[i := Buffered(i) + [c]];
        case Some(conn) =>
          if !conn.remoteDescriptionSet {
            SetConn(i, conn.(pendingCandidates := conn.pendingCandidates + [c]));
          } else {
            SetConn(i, conn.(added := conn.added + [c]));
          }
      }
    }

    method AddIceCandidate(i: nat, candidate: Option<Candidate>)
      requires Valid()
      modifies this
      ensures Valid()
      ensures candidate.Some? ==> Took(i, Arrive(candidate.value))
      ensures candidate.None? ==> links == old(links) && traces == old(traces)
    {
      if candidate.None? {
        return;
      }
      var c := candidate.value;
      assert Tied(i);
      Step(i, Arrive(c));
      Store(i, c);
      assert Tied(i);
      forall j: nat ensures Tied(j) {
        if j != i {
          assert old(Tied(j));
        }
      }
    }

    /** Update the record of connection i. */
    method SetConn(i: nat, conn: Connection)
      requires Conn(i).Some?
      modifies this`connections
      ensures Conn(i) == Some(conn) && forall j: nat :: j != i ==> Conn(j) == old(Conn(j))
    {
      connections := connections[i := Some(conn)];
    }

    /** The synchronous start of handleOffer: the connection exists from here on, and no other does. */
    method InstallConnection(i: nat)
      requires Valid() && Enabled(LinkAt(i), Offer)
      modifies this
      ensures Valid() && Took(i, Offer) && Grows()
      ensures Conn(i) == Some(Connection(false, [], [])) && forall j: nat :: j != i ==> Conn(j) == old(Conn(j))
    {
      Known(i);
      Step(i, Offer);
      while |connections| <= i
        invariant forall j: nat :: Conn(j) == old(Conn(j))
        modifies this`connections
      {
        connections := connections + [None];
      }
      connections := connections[i := Some(Connection(false, [], []))];
      forall j: nat ensures Tied(j) {
        assert old(Tied(j));
      }
    }

    /** setRemoteDescription has resolved. */
    method SetRemote(i: nat)
      requires Valid() && Enabled(LinkAt(i), RemoteSet) && LinkAt(i).made
      modifies this`links, this`traces, this`connections
      ensures Valid() && Took(i, RemoteSet) && Grows()
    {
      assert Tied(i);
      Step(i, RemoteSet);
      SetConn(i, Conn(i).value.(remoteDescriptionSet := true));
      forall j: nat ensures Tied(j) {
        assert old(Tied(j));
      }
    }

    /** Hand over the next buffered candidate. */
    method HandNow(i: nat, c: Candidate)
      requires Valid() && Enabled(LinkAt(i), HandNext) && LinkAt(i).remote && LinkAt(i).made
      requires var l := LinkAt(i); c == if l.progress.Global? then l.global[l.progress.k] else l.pending[l.progress.k]
      modifies this`links, this`traces, this`connections
      ensures Valid() && Took(i, HandNext) && Grows()
    {
      assert Tied(i);
      Step(i, HandNext);
      SetConn(i, Conn(i).value.(added := Conn(i).value.added + [c]));
      forall j: nat ensures Tied(j) {
        assert old(Tied(j));
      }
    }

    /** One turn of either drain loop: hand over the next buffered candidate, then wait for the call. */
    method HandOne(i: nat, c: Candidate)
      requires Valid() && Enabled(LinkAt(i), HandNext) && LinkAt(i).remote && LinkAt(i).made
      requires var l := LinkAt(i); c == if l.progress.Global? then l.global[l.progress.k] else l.pending[l.progress.k]
      modifies this
      ensures Valid() && Grows() && OnlyArrivals(Apply(old(LinkAt(i)), HandNext), LinkAt(i))
    {
      HandNow(i, c);
      ghost var mid := traces;
      Await(i);
      ExtendsTwice(old(traces), mid, traces);
    }

    /** The first loop of handleOffer, over what came before the connection existed. */
    method DrainGlobal(i: nat)
      requires Valid() && LinkAt(i).progress == Global(0) && LinkAt(i).remote && LinkAt(i).made
      modifies this
      ensures Valid() && Grows() && Accounts(i)
      ensures LinkAt(i).progress == Own(0) && LinkAt(i).remote && LinkAt(i).made && LinkAt(i).global == []
    {
      assert Tied(i);
      ghost var g := Buffered(i);
      if i in globalPendingIce {
        var k := 0;
        while k < |Buffered(i)|
          invariant Valid() && Grows() && LinkAt(i).progress == Global(k) && LinkAt(i).remote && LinkAt(i).made
          invariant k <= |g| && Buffered(i) == LinkAt(i).global == g
          decreases |g| - k
        {
          ghost var l, before := Apply(LinkAt(i), HandNext), traces;
          HandOne(i, Buffered(i)[k]);
          ExtendsTwice(old(traces), before, traces);
          OnlyArrivalsKeeps(l, LinkAt(i));
          assert Tied(i);
          k := k + 1;
        }
      }
      ghost var drained := traces;
      FinishGlobal(i);
      ExtendsTwice(old(traces), drained, traces);
      GrownAccounts(i);
    }

    method FinishGlobal(i: nat)
      requires Valid() && Enabled(LinkAt(i), DropGlobal)
      modifies this`links, this`traces, this`globalPendingIce
      ensures Valid() && Took(i, DropGlobal) && Grows()
    {
      assert Tied(i);
      Step(i, DropGlobal);
      globalPendingIce := globalPendingIce - {i};
      forall j: nat ensures Tied(j) {
        assert old(Tied(j));
      }
    }

    /** The last loop of both handlers, over what came before the remote description was set. */
    method DrainOwn(i: nat)
      requires Valid() && LinkAt(i).progress == Own(0) && LinkAt(i).remote && LinkAt(i).made
      modifies this
      ensures Valid() && Grows() && Accounts(i)
      ensures LinkAt(i).progress == Settled && LinkAt(i).remote && LinkAt(i).made
      ensures LinkAt(i).global == old(LinkAt(i)).global
    {
      assert Tied(i);
      ghost var g := LinkAt(i).pending;
      var k := 0;
      while k < |Conn(i).value.pendingCandidates|
        invariant Valid() && Grows() && LinkAt(i).progress == Own(k) && LinkAt(i).remote && LinkAt(i).made
        invariant Conn(i).Some? && k <= |g| && Conn(i).value.pendingCandidates == LinkAt(i).pending == g
        invariant LinkAt(i).global == old(LinkAt(i)).global
        decreases |g| - k
      {
        ghost var l, before := Apply(LinkAt(i), HandNext), traces;
        HandOne(i, Conn(i).value.pendingCandidates[k]);
        ExtendsTwice(old(traces), before, traces);
        OnlyArrivalsKeeps(l, LinkAt(i));
        assert Tied(i);
        k := k + 1;
      }
      ghost var drained := traces;
      FinishOwn(i);
      ExtendsTwice(old(traces), drained, traces);
      GrownAccounts(i);
    }

    method FinishOwn(i: nat)
      requires Valid() && Enabled(LinkAt(i), Finish) && LinkAt(i).made
      modifies this`links, this`traces, this`connections
      ensures Valid() && Took(i, Finish) && Grows()
    {
      assert Tied(i);
      Step(i, Finish);
      SetConn(i, Conn(i).value.(pendingCandidates := []));
      forall j: nat ensures Tied(j) {
        assert old(Tied(j));
      }
    }

    /** An await at which the handler only waits. */
    method Pause(i: nat)
      requires Valid()
      modifies this
      ensures Valid() && Grows() && Accounts(i)
      ensures var l, m := old(LinkAt(i)), LinkAt(i);
        && m.progress == l.progress && m.made == l.made && m.remote == l.remote
        && (l.made ==> m.global == l.global)
    {
      ghost var l := LinkAt(i);
      Await(i);
      OnlyArrivalsKeeps(l, LinkAt(i));
      GrownAccounts(i);
    }

    /**
     The first offer for index i. When the handler returns, the peer connection has been given exactly
     the candidates that have arrived for i, before the call or during its awaits, each once and none
     early, and no buffer holds any. Nothing that had happened at any index is undone.
     */
    method HandleOffer(i: nat)
      requires Valid() && Enabled(LinkAt(i), Offer)
      modifies this
      ensures Valid() && Grows() && LinkAt(i).progress == Settled && LinkAt(i).early == 0
      ensures Conn(i).Some? && Conn(i).value.pendingCandidates == Buffered(i) == []
      ensures SameTimes(Conn(i).value.added, Candidates(TraceAt(i))) && Accounts(i)
      ensures Conn(i).value.added == LinkAt(i).handed && InOrder(TraceAt(i), LinkAt(i))
    {
      BeginOffer(i);
      ghost var begun := traces;
      DrainGlobal(i);
      ExtendsTwice(old(traces), begun, traces);
      ghost var emptied := traces;
      DrainOwn(i);
      ExtendsTwice(old(traces), emptied, traces);
      ghost var drained := traces;
      EndOffer(i);
      ExtendsTwice(old(traces), drained, traces);
      GrownAccounts(i);
    }

    /** Up to where the remote description is set. */
    method BeginOffer(i: nat)
      requires Valid() && Enabled(LinkAt(i), Offer)
      modifies this
      ensures Valid() && Grows()
      ensures LinkAt(i).progress == Global(0) && LinkAt(i).remote && LinkAt(i).made
    {
      InstallConnection(i);
      ghost var installed := traces;
      Pause(i); // setRemoteDescription
      ExtendsTwice(old(traces), installed, traces);
      ghost var waited := traces;
      SetRemote(i);
      ExtendsTwice(old(traces), waited, traces);
    }

    /** The last two awaits, after both buffers have been drained. */
    method EndOffer(i: nat)
      requires Valid() && LinkAt(i).progress.Settled? && LinkAt(i).made && LinkAt(i).global == []
      modifies this
      ensures Valid() && Grows() && LinkAt(i).progress == Settled && LinkAt(i).early == 0
      ensures Conn(i).Some? && Conn(i).value.pendingCandidates == Buffered(i) == []
      ensures SameTimes(Conn(i).value.added, Candidates(TraceAt(i)))
      ensures Conn(i).value.added == LinkAt(i).handed && InOrder(TraceAt(i), LinkAt(i))
    {
      Pause(i); // createAnswer
      ghost var created := traces;
      Pause(i); // setLocalDescription
      ExtendsTwice(old(traces), created, traces);
      assert Tied(i) && Ran(TraceAt(i), LinkAt(i));
      SettledHas(TraceAt(i), LinkAt(i));
    }

    /**
     The first answer for index i; it is ignored if createOffer has made no connection for it. What the
     global buffer holds stays there, and all else that has arrived for i has been handed over once.
     */
    method HandleAnswer(i: nat) returns (handled: bool)
      requires Valid() && LinkAt(i).progress.Idle?
      modifies this
      ensures Valid() && Grows() && handled == old(Conn(i)).Some?
      ensures !handled ==> traces == old(traces) && connections == old(connections)
      ensures !handled ==> links == old(links) && globalPendingIce == old(globalPendingIce)
      ensures handled ==>
        && LinkAt(i).progress == Settled && LinkAt(i).early == 0
        && Conn(i).Some? && Conn(i).value.pendingCandidates == [] && Buffered(i) == old(Buffered(i))
        && SameTimes(Conn(i).value.added + Buffered(i), Candidates(TraceAt(i)))
        && Accounts(i) && Conn(i).value.added == LinkAt(i).handed && InOrder(TraceAt(i), LinkAt(i))
    {
      assert Tied(i);
      handled := Conn(i).Some?;
      if !handled {
        return;
      }
      BeginAnswer(i);
      ghost var begun := traces;
      Pause(i); // setRemoteDescription
      ExtendsTwice(old(traces), begun, traces);
      ghost var waited := traces;
      SetRemote(i);
      ExtendsTwice(old(traces), waited, traces);
      ghost var told := traces;
      DrainOwn(i);
      ExtendsTwice(old(traces), told, traces);
      assert Tied(i) && Ran(TraceAt(i), LinkAt(i));
      SettledHas(TraceAt(i), LinkAt(i));
      GrownAccounts(i);
    }

    ghost method BeginAnswer(i: nat)
      requires Valid() && Enabled(LinkAt(i), Answer)
      modifies this`links, this`traces
      ensures Valid() && Took(i, Answer) && Grows()
    {
      assert Tied(i);
      Step(i, Answer);
      forall j: nat ensures Tied(j) {
        assert old(Tied(j));
      }
    }
  }
}

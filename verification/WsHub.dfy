/** The WebSocket relay's hub and its handler goroutine. Pairs live in a table; a pointer is an index. */
module WsHub {
  import opened Bytes
  import opened WsRelay

  /** One turn of the forwarding loop: what arrives on the source, and whether the destination takes it. */
  datatype Turn = Turn(message: Option<Message>, written: bool)

  /** What is read under a script, up to the first failure, and what of that is passed on. */
  function ReadUnder(script: seq<Turn>): seq<Message> {
    if script == [] || script[0].message.None? then []
    else [script[0].message.value] + if script[0].written then ReadUnder(script[1..]) else []
  }

  function PassedUnder(script: seq<Turn>): seq<Message> {
    if script == [] || script[0].message.None? || !script[0].written then []
    else [script[0].message.value] + PassedUnder(script[1..])
  }

  /** What has been done so far, together with what a script still makes the loop do, is what `all` makes it do. */
  ghost predicate OnCourse(all: seq<Turn>, read: seq<Message>, passed: seq<Message>, rest: seq<Turn>) {
    read + ReadUnder(rest) == ReadUnder(all) && passed + PassedUnder(rest) == PassedUnder(all)
  }

  lemma CourseStart(all: seq<Turn>)
    ensures OnCourse(all, [], [], all)
  {
    assert [] + ReadUnder(all) == ReadUnder(all) && [] + PassedUnder(all) == PassedUnder(all);
  }

  lemma CourseEnd(all: seq<Turn>, read: seq<Message>, passed: seq<Message>)
    requires OnCourse(all, read, passed, [])
    ensures read == ReadUnder(all) && passed == PassedUnder(all)
  {
    assert read + [] == read && passed + [] == passed;
  }

  /** The source has failed: the rest of the script does not matter. */
  lemma CourseStops(all: seq<Turn>, read: seq<Message>, passed: seq<Message>, rest: seq<Turn>)
    requires OnCourse(all, read, passed, rest) && rest != [] && rest[0].message.None?
    ensures OnCourse(all, read, passed, [])
  {
  }

  /** One more message. */
  lemma CourseTurn(all: seq<Turn>, read: seq<Message>, passed: seq<Message>, rest: seq<Turn>)
    requires OnCourse(all, read, passed, rest) && rest != [] && rest[0].message.Some?
    ensures var m := [rest[0].message.value];
      if rest[0].written then OnCourse(all, read + m, passed + m, rest[1..]) else OnCourse(all, read + m, passed, [])
  {
    var m := [rest[0].message.value];
    if rest[0].written {
      assert read + (m + ReadUnder(rest[1..])) == (read + m) + ReadUnder(rest[1..]);
      assert passed + (m + PassedUnder(rest[1..])) == (passed + m) + PassedUnder(rest[1..]);
    } else {
      assert ReadUnder(rest) == m && PassedUnder(rest) == [];
      assert read + m == (read + m) + [];
    }
  }

  /** The hub as seen at one key, with the connections of the two handlers that use it. */
  class Hub {
    const key: string
    const sender: ConnId
    const receiver: ConnId
    var pairs: map<string, nat>
    var table: seq<Pair>

    ghost var st: Session
    ghost var trace: seq<Event>

    ghost predicate Valid()
      reads this
    {
      && Legal(Init(sender, receiver), trace) && Exec(Init(sender, receiver), trace) == st
      && table == st.pairs
      && st.entry == if key in pairs then Some(pairs[key]) else None
    }

    constructor (key: string, sender: ConnId, receiver: ConnId)
      ensures Valid() && st == Init(sender, receiver)
    {
      this.key, this.sender, this.receiver := key, sender, receiver;
      pairs, table, st, trace := map[], [], Init(sender, receiver), [];
    }

    /** Between two operations of one handler, the other one may do anything the protocol allows. */
    method Await(role: Role)
      requires Valid()
      modifies this
      ensures Valid() && st.H(role) == old(st).H(role) && old(trace) <= trace
      ensures forall k :: |old(trace)| <= k < |trace| ==> trace[k].role != role
    {
    }

    ghost method Record(e: Event)
      requires Legal(Init(sender, receiver), trace) && Exec(Init(sender, receiver), trace) == st && Enabled(st, e)
      modifies this`st, this`trace
      ensures Legal(Init(sender, receiver), trace) && Exec(Init(sender, receiver), trace) == st
      ensures st == Apply(old(st), e) && trace == old(trace) + [e]
    {
      Append(Init(sender, receiver), trace, e);
      st, trace := Apply(st, e), trace + [e];
    }

    lemma Known(role: Role)
      requires Valid()
      ensures Inv(st) && HandlerInv(st, role) && st.s.conn == sender && st.r.conn == receiver
    {
      RunInv(Init(sender, receiver), trace);
    }

    method GetOrCreatePair(role: Role) returns (p: nat)
      requires Valid() && st.H(role).place.Start?
      modifies this
      ensures Valid() && st == Apply(old(st), Look(role)) && old(trace) <= trace
      ensures st.H(role).place == Got(p)
    {
      Record(Look(role));
      if key in pairs {
        p := pairs[key];
      } else {
        p := |table|;
        table := table + [Pair(None, None, 0)];
        pairs := pairs[key := p];
      }
    }

    /** Under the pair's lock: set this side, and see whether both are set. */
    method SetSide(role: Role, p: nat) returns (bothReady: bool)
      requires Valid() && st.H(role).place == Got(p)
      modifies this
      ensures Valid() && st.H(role) == old(st).H(role).(place := if bothReady then Closer(p) else Waiter(p))
      ensures old(trace) <= trace
    {
      Known(role);
      Record(Set(role));
      if role.AsSender? {
        table := table[p := table[p].(sender := Some(sender))];
      } else {
        table := table[p := table[p].(receiver := Some(receiver))];
      }
      bothReady := table[p].sender.Some? && table[p].receiver.Some?;
    }

    /** close(pair.ready): it has not been closed before. */
    method CloseReady(role: Role, p: nat)
      requires Valid() && st.H(role).place == Closer(p)
      modifies this
      ensures Valid() && st.H(role) == old(st).H(role).(place := Ready(p)) && old(trace) <= trace
      ensures p < |old(table)| && old(table)[p].closes == 0
      ensures p < |table| && table[p].closes == 1
    {
      Known(role);
      Record(Shut(role));
      table := table[p := table[p].(closes := table[p].closes + 1)];
    }

    /** <-pair.ready, given up after `patience` looks. */
    method AwaitReady(role: Role, p: nat, patience: nat) returns (woken: bool)
      requires Valid() && st.H(role).place == Waiter(p)
      modifies this
      ensures Valid() && old(trace) <= trace
      ensures st.H(role) == if woken then old(st).H(role).(place := Ready(p)) else old(st).H(role)
      ensures p < |table| && (woken <==> table[p].closes > 0)
    {
      var looks := 0;
      Known(role);
      while looks < patience && table[p].closes == 0
        invariant Valid() && st.H(role) == old(st).H(role) && old(trace) <= trace && p < |table|
      {
        Await(role);
        Known(role);
        looks := looks + 1;
      }
      woken := table[p].closes > 0;
      if woken {
        Record(Wake(role));
      }
    }

    /** The second critical section: read both sides, and know whom to relay between. */
    method PeekSides(role: Role, p: nat) returns (src: ConnId, dst: ConnId)
      requires Valid() && st.H(role).place == Ready(p)
      modifies this`st, this`trace
      ensures Valid() && old(trace) <= trace
      ensures st.H(role) == old(st).H(role).(place := Relaying(Some(src), Some(dst)))
      ensures src == (if role.AsSender? then sender else receiver)
      ensures dst == (if role.AsSender? then receiver else sender)
    {
      Known(role);
      Known(role.Other());
      Record(Peek(role));
      Known(role);
      var s, r := table[p].sender, table[p].receiver;
      src := if role.AsSender? then s.value else r.value;
      dst := if role.AsSender? then r.value else s.value;
    }

    /** Read one message and pass it on; false if the write side failed. */
    method ForwardOne(role: Role, message: Message, written: bool) returns (more: bool)
      requires Valid() && st.H(role).place.Relaying? && st.H(role).read == st.H(role).forwarded
      modifies this
      ensures Valid() && old(trace) <= trace && st.H(role).place.Relaying? && more == written
      ensures st.H(role).read == old(st).H(role).read + [message]
      ensures st.H(role).forwarded == old(st).H(role).forwarded + if more then [message] else []
    {
      Record(Read(role, message));
      Await(role);
      more := written;
      if more {
        Record(Forward(role));
        Await(role);
      }
    }

    /** One turn of the loop; `after` is what the script still has in store. */
    method PipeOne(role: Role, ghost all: seq<Turn>, rest: seq<Turn>) returns (after: seq<Turn>)
      requires Valid() && st.H(role).place.Relaying? && rest != [] && st.H(role).read == st.H(role).forwarded
      requires OnCourse(all, st.H(role).read, st.H(role).forwarded, rest)
      modifies this
      ensures Valid() && old(trace) <= trace && st.H(role).place.Relaying? && |after| < |rest|
      ensures OnCourse(all, st.H(role).read, st.H(role).forwarded, after)
      ensures after != [] ==> st.H(role).read == st.H(role).forwarded
    {
      match rest[0].message {
        case None => // NextReader failed
          CourseStops(all, st.H(role).read, st.H(role).forwarded, rest);
          after := [];
        case Some(m) =>
          CourseTurn(all, st.H(role).read, st.H(role).forwarded, rest);
          var more := ForwardOne(role, m, rest[0].written);
          assert !more ==> st.H(role).forwarded == old(st).H(role).forwarded;
          after := if more then rest[1..] else [];
      }
    }

    /** wsRelay: forward whole messages, in order, until a read or a write fails. */
    method Pipe(role: Role, script: seq<Turn>)
      requires Valid() && st.H(role).place.Relaying? && st.H(role).read == st.H(role).forwarded == []
      modifies this
      ensures Valid() && old(trace) <= trace && st.H(role).place == Stopped
      ensures st.H(role).read == ReadUnder(script) && st.H(role).forwarded == PassedUnder(script)
    {
      var rest := script;
      CourseStart(script);
      while rest != []
        invariant Valid() && st.H(role).place.Relaying? && old(trace) <= trace
        invariant OnCourse(script, st.H(role).read, st.H(role).forwarded, rest)
        invariant rest != [] ==> st.H(role).read == st.H(role).forwarded
        decreases |rest|
      {
        rest := PipeOne(role, script, rest);
      }
      CourseEnd(script, st.H(role).read, st.H(role).forwarded);
      Record(Stop(role));
    }

    method RemovePair(role: Role)
      requires Valid() && st.H(role).place.Stopped?
      modifies this
      ensures Valid() && st == Apply(old(st), Remove(role)) && old(trace) <= trace
    {
      Record(Remove(role));
      pairs := pairs - {key};
    }

    /** Up to the rendezvous: whoever completes the pair closes the channel, the other waits for it. */
    method Meet(role: Role, patience: nat) returns (met: bool, p: nat)
      requires Valid() && st.H(role).place.Start?
      modifies this
      ensures Valid() && old(trace) <= trace
      ensures st.H(role) == old(st).H(role).(place := if met then Ready(p) else Waiter(p))
      ensures p < |table| && (met <==> table[p].closes > 0)
    {
      p := GetOrCreatePair(role);
      Await(role);
      var bothReady := SetSide(role, p);
      Await(role);
      met := true;
      if bothReady {
        CloseReady(role, p);
      } else {
        met := AwaitReady(role, p, patience);
      }
    }

    /**
     One handler goroutine from its upgrade to its end, interleaved with the other in any way. If it
     ever relays, it does so after exactly one close of the channel, whole messages in order.
     */
    method HandleRelayWS(role: Role, patience: nat, script: seq<Turn>) returns (relayed: bool)
      requires Valid() && st.H(role).place.Start? && st.H(role).read == st.H(role).forwarded == []
      modifies this
      ensures Valid() && old(trace) <= trace
      ensures if relayed then st.H(role).place == Exited else st.H(role).place.Waiter?
      ensures Shuts(trace) == if relayed then 1 else 0
      ensures relayed ==> st.H(role).read == ReadUnder(script) && st.H(role).forwarded == PassedUnder(script)
      ensures relayed ==> key !in pairs
    {
      var p;
      relayed, p := Meet(role, patience);
      if relayed {
        Await(role);
        var src, dst := PeekSides(role, p);
        Pipe(role, script);
        RemovePair(role); // after conn.Close()
        OneCloser(sender, receiver, trace);
      } else {
        Known(role);
        ShutsCounted(Init(sender, receiver), trace);
      }
    }
  }
}

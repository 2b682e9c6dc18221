/**
 The WebSocket relay's rendezvous for one key, with one sender and one receiver handler. Each event
 is one critical section or one channel or socket operation of a handler goroutine.
 */
module WsRelay {
  import opened Bytes

  type ConnId = nat
  type Message = Octets

  datatype Role = AsSender | AsReceiver
  {
    function Other(): Role { if this.AsSender? then AsReceiver else AsSender }
  }

  /** A relayPair: its two sides, and how often its ready channel has been closed (twice would panic). */
  datatype Pair = Pair(sender: Option<ConnId>, receiver: Option<ConnId>, closes: nat)
  {
    function Side(r: Role): Option<ConnId> { if r.AsSender? then sender else receiver }
    function With(r: Role, c: ConnId): Pair {
      if r.AsSender? then this.(sender := Some(c)) else this.(receiver := Some(c))
    }
    predicate Full() { sender.Some? && receiver.Some? }
  }

  datatype Place =
    | Start
    | Got(p: nat)                                                // has looked the pair up
    | Closer(p: nat)                                             // found both sides set
    | Waiter(p: nat)                                             // blocks on <-ready
    | Ready(p: nat)
    | Relaying(src: Option<ConnId>, dst: Option<ConnId>)
    | Stopped
    | Exited

  datatype Handler = Handler(conn: ConnId, place: Place, read: seq<Message>, forwarded: seq<Message>)

  /** `entry` is the hub's map at this key; `pairs` are all pairs ever made for it. */
  datatype Session = Session(entry: Option<nat>, pairs: seq<Pair>, s: Handler, r: Handler)
  {
    function H(role: Role): Handler { if role.AsSender? then s else r }
    function Put(role: Role, h: Handler): Session { if role.AsSender? then this.(s := h) else this.(r := h) }
    function At(role: Role, pl: Place): Session { Put(role, H(role).(place := pl)) }
  }

  function Init(sender: ConnId, receiver: ConnId): Session {
    Session(None, [], Handler(sender, Start, [], []), Handler(receiver, Start, [], []))
  }

  datatype Event =
    | Look(role: Role)
    | Set(role: Role)
    | Shut(role: Role)
    | Wake(role: Role)
    | Peek(role: Role)
    | Read(role: Role, m: Message)
    | Forward(role: Role)
    | Stop(role: Role)
    | Remove(role: Role)

  predicate Enabled(t: Session, e: Event) {
    var h := t.H(e.role);
    match e
    case Look(_) => h.place.Start?
    case Set(_) => h.place.Got? && h.place.p < |t.pairs|
    case Shut(_) => h.place.Closer? && h.place.p < |t.pairs|
    case Wake(_) => h.place.Waiter? && h.place.p < |t.pairs| && t.pairs[h.place.p].closes > 0
    case Peek(_) => h.place.Ready? && h.place.p < |t.pairs|
    case Read(_, _) => h.place.Relaying? && h.read == h.forwarded
    case Forward(_) => h.place.Relaying? && |h.read| > |h.forwarded|
    case Stop(_) => h.place.Relaying?
    case Remove(_) => h.place.Stopped?
  }

  function Apply(t: Session, e: Event): Session
    requires Enabled(t, e)
  {
    var h := t.H(e.role);
    match e
    case Look(role) =>
      if t.entry.Some? then t.At(role, Got(t.entry.value))
      else t.(entry := Some(|t.pairs|), pairs := t.pairs + [Pair(None, None, 0)]).At(role, Got(|t.pairs|))
    case Set(role) =>
      var p := h.place.p;
      var q := t.pairs[p].With(role, h.conn);
      t.(pairs := t.pairs[p := q]).At(role, if q.Full() then Closer(p) else Waiter(p))
    case Shut(role) =>
      var p := h.place.p;
      t.(pairs := t.pairs[p := t.pairs[p].(closes := t.pairs[p].closes + 1)]).At(role, Ready(p))
    case Wake(role) => t.At(role, Ready(h.place.p))
    case Peek(role) =>
      var q := t.pairs[h.place.p];
      t.At(role, Relaying(q.Side(role), q.Side(role.Other())))
    case Read(role, m) => t.Put(role, h.(read := h.read + [m]))
    case Forward(role) => t.Put(role, h.(forwarded := h.forwarded + [h.read[|h.forwarded|]]))
    case Stop(role) => t.At(role, Stopped)
    case Remove(role) => t.(entry := None).At(role, Exited)
  }

  predicate Legal(t: Session, es: seq<Event>)
    decreases |es|
  {
    es == [] || (Enabled(t, es[0]) && Legal(Apply(t, es[0]), es[1..]))
  }

  function Exec(t: Session, es: seq<Event>): Session
    requires Legal(t, es)
    decreases |es|
  {
    if es == [] then t else Exec(Apply(t, es[0]), es[1..])
  }

  // ---------------------------------------------------------------- invariant

  function Stage(pl: Place): nat {
    match pl
    case Start => 0
    case Got(_) => 1
    case Closer(_) => 2
    case Waiter(_) => 2
    case _ => 3
  }

  /** There is one pair, and each side of it is set exactly by a handler that got that far. */
  ghost predicate HandlerInv(t: Session, role: Role) {
    var h := t.H(role);
    && (!h.place.Start? ==> |t.pairs| == 1)
    && (h.place.Got? || h.place.Closer? || h.place.Waiter? || h.place.Ready? ==> h.place.p == 0)
    && (|t.pairs| == 1 ==> t.pairs[0].Side(role) == if Stage(h.place) >= 2 then Some(h.conn) else None)
    && (h.place.Closer? ==> t.pairs[0].closes == 0 && t.H(role.Other()).place.Waiter?)
    && (Stage(h.place) == 3 ==> t.pairs[0].closes == 1)
    && (h.place.Relaying? ==> h.place.src == Some(h.conn) && h.place.dst == Some(t.H(role.Other()).conn))
    && h.forwarded <= h.read && |h.read| <= |h.forwarded| + 1
  }

  ghost predicate Inv(t: Session) {
    && |t.pairs| <= 1
    && (t.entry.Some? ==> t.entry.value < |t.pairs|)
    && (|t.pairs| == 1 && !t.pairs[0].Full() ==> t.entry == Some(0) && t.pairs[0].closes == 0)
    && (|t.pairs| == 1 && t.pairs[0].Full() && t.pairs[0].closes == 0 ==> t.s.place.Closer? || t.r.place.Closer?)
    && (|t.pairs| == 1 ==> t.pairs[0].closes <= 1)
    && (t.s.place.Exited? || t.r.place.Exited? ==> t.entry.None?)
    && HandlerInv(t, AsSender) && HandlerInv(t, AsReceiver)
  }

  lemma Meeting(t: Session, e: Event)
    requires Inv(t) && Enabled(t, e) && (e.Look? || e.Set? || e.Shut?)
    ensures HandlerInv(Apply(t, e), e.role)
  {
    assert HandlerInv(t, e.role) && HandlerInv(t, e.role.Other());
  }

  lemma Passing(t: Session, e: Event)
    requires Inv(t) && Enabled(t, e) && !(e.Look? || e.Set? || e.Shut?)
    ensures HandlerInv(Apply(t, e), e.role)
  {
    assert HandlerInv(t, e.role) && HandlerInv(t, e.role.Other());
    assert Apply(t, e).pairs == t.pairs;
  }

  /** What a step does to the handler that takes it. */
  lemma OwnSide(t: Session, e: Event)
    requires Inv(t) && Enabled(t, e)
    ensures HandlerInv(Apply(t, e), e.role)
    ensures Apply(t, e).H(e.role.Other()) == t.H(e.role.Other())
    ensures Apply(t, e).H(e.role).conn == t.H(e.role).conn
  {
    if e.Look? || e.Set? || e.Shut? {
      Meeting(t, e);
    } else {
      Passing(t, e);
    }
  }

  /** What it does to the other one. */
  lemma OtherSide(t: Session, e: Event)
    requires Inv(t) && Enabled(t, e)
    ensures HandlerInv(Apply(t, e), e.role.Other())
  {
    OwnSide(t, e);
    assert HandlerInv(t, e.role) && HandlerInv(t, e.role.Other());
  }

  /** What it does to the pair and the hub's entry. */
  lemma PairSide(t: Session, e: Event)
    requires Inv(t) && Enabled(t, e)
    ensures var u := Apply(t, e);
      && |u.pairs| <= 1
      && (u.entry.Some? ==> u.entry.value < |u.pairs|)
      && (|u.pairs| == 1 && !u.pairs[0].Full() ==> u.entry == Some(0) && u.pairs[0].closes == 0)
      && (|u.pairs| == 1 && u.pairs[0].Full() && u.pairs[0].closes == 0 ==> u.s.place.Closer? || u.r.place.Closer?)
      && (|u.pairs| == 1 ==> u.pairs[0].closes <= 1)
      && (u.s.place.Exited? || u.r.place.Exited? ==> u.entry.None?)
  {
    assert HandlerInv(t, e.role) && HandlerInv(t, e.role.Other());
  }

  lemma StepInv(t: Session, e: Event)
    requires Inv(t) && Enabled(t, e)
    ensures Inv(Apply(t, e))
    ensures Apply(t, e).s.conn == t.s.conn && Apply(t, e).r.conn == t.r.conn
  {
    OwnSide(t, e);
    OtherSide(t, e);
    PairSide(t, e);
  }

  lemma {:induction false} RunInv(t: Session, es: seq<Event>)
    requires Inv(t) && Legal(t, es)
    ensures Inv(Exec(t, es))
    ensures Exec(t, es).s.conn == t.s.conn && Exec(t, es).r.conn == t.r.conn
    decreases |es|
  {
    if es != [] {
      StepInv(t, es[0]);
      RunInv(Apply(t, es[0]), es[1..]);
    }
  }

  /**
   In every interleaving: the ready channel is closed at most once; whoever relays reads its own
   connection and writes the other one, so each connection has one relay reader and one relay writer;
   what has been forwarded is a prefix of what has been read, at most one message behind; and once a
   handler has ended, the hub has no entry left for the key.
   */
  lemma Rendezvous(sender: ConnId, receiver: ConnId, es: seq<Event>, role: Role)
    requires Legal(Init(sender, receiver), es)
    ensures var t := Exec(Init(sender, receiver), es); var h := t.H(role);
      && |t.pairs| <= 1
      && (forall p :: 0 <= p < |t.pairs| ==> t.pairs[p].closes <= 1)
      && (h.place.Relaying? ==>
           && h.place.src == Some(if role.AsSender? then sender else receiver)
           && h.place.dst == Some(if role.AsSender? then receiver else sender)
           && t.pairs == [Pair(Some(sender), Some(receiver), 1)])
      && h.forwarded <= h.read && |h.read| <= |h.forwarded| + 1
      && (h.place.Exited? ==> t.entry.None?)
  {
    RunInv(Init(sender, receiver), es);
    assert HandlerInv(Exec(Init(sender, receiver), es), role);
    assert HandlerInv(Exec(Init(sender, receiver), es), role.Other());
  }

  /** How many handlers a run lets close the channel. */
  function Shuts(es: seq<Event>): nat {
    if es == [] then 0 else (if es[0].Shut? then 1 else 0) + Shuts(es[1..])
  }

  function Closes(t: Session): nat { if |t.pairs| > 0 then t.pairs[0].closes else 0 }

  lemma StepCloses(t: Session, e: Event)
    requires Inv(t) && Enabled(t, e)
    ensures Closes(Apply(t, e)) == Closes(t) + if e.Shut? then 1 else 0
  {
    assert HandlerInv(t, e.role);
  }

  lemma {:induction false} ShutsCounted(t: Session, es: seq<Event>)
    requires Inv(t) && Legal(t, es)
    ensures Closes(Exec(t, es)) == Closes(t) + Shuts(es)
    decreases |es|
  {
    if es != [] {
      StepInv(t, es[0]);
      StepCloses(t, es[0]);
      ShutsCounted(Apply(t, es[0]), es[1..]);
    }
  }

  /** Exactly one handler closes the channel before anyone gets past it, and never a second one. */
  lemma OneCloser(sender: ConnId, receiver: ConnId, es: seq<Event>)
    requires Legal(Init(sender, receiver), es)
    ensures var t := Exec(Init(sender, receiver), es);
      && Shuts(es) <= 1
      && (Stage(t.s.place) == 3 || Stage(t.r.place) == 3 ==> Shuts(es) == 1)
  {
    RunInv(Init(sender, receiver), es);
    ShutsCounted(Init(sender, receiver), es);
  }

  /** The next step of a handler on its way to relaying. */
  function Onward(t: Session, role: Role): Event {
    match t.H(role).place
    case Closer(_) => Shut(role)
    case Waiter(_) => Wake(role)
    case _ => Peek(role)
  }

  /** No wake-up is lost: once both sides are set, a handler short of relaying can move or is about to be released. */
  lemma NoLostWakeup(sender: ConnId, receiver: ConnId, es: seq<Event>, role: Role)
    requires Legal(Init(sender, receiver), es)
    requires var t := Exec(Init(sender, receiver), es);
      && |t.pairs| == 1 && t.pairs[0].Full()
      && (t.H(role).place.Closer? || t.H(role).place.Waiter? || t.H(role).place.Ready?)
    ensures var t := Exec(Init(sender, receiver), es);
      Enabled(t, Onward(t, role)) || (t.H(role).place.Waiter? && Enabled(t, Shut(role.Other())))
  {
    RunInv(Init(sender, receiver), es);
    var t := Exec(Init(sender, receiver), es);
    assert HandlerInv(t, role) && HandlerInv(t, role.Other());
  }

  /** The handler has a step towards the meeting that it can take. */
  predicate CanMeet(t: Session, role: Role) {
    || Enabled(t, Look(role)) || Enabled(t, Set(role)) || Enabled(t, Shut(role))
    || Enabled(t, Wake(role)) || Enabled(t, Peek(role))
  }

  /** Past the rendezvous. */
  predicate Met(pl: Place) { pl.Relaying? || pl.Stopped? || pl.Exited? }

  /** Freedom from deadlock: whenever neither handler can take a step towards the meeting, both are past it. */
  lemma DeadlockFree(sender: ConnId, receiver: ConnId, es: seq<Event>)
    requires Legal(Init(sender, receiver), es)
    ensures var t := Exec(Init(sender, receiver), es);
      CanMeet(t, AsSender) || CanMeet(t, AsReceiver) || (Met(t.s.place) && Met(t.r.place))
  {
    RunInv(Init(sender, receiver), es);
    var t := Exec(Init(sender, receiver), es);
    Unmet(t, AsSender);
    Unmet(t, AsReceiver);
  }

  /** A handler that has not met and cannot move waits for one that still can. */
  lemma Unmet(t: Session, role: Role)
    requires Inv(t)
    ensures Met(t.H(role).place) || CanMeet(t, role) || CanMeet(t, role.Other())
  {
    assert HandlerInv(t, role) && HandlerInv(t, role.Other());
    if t.H(role).place.Waiter? && t.pairs[0].closes == 0 {
      assert t.pairs[0].Full() ==> t.H(role.Other()).place.Closer?;
    }
  }

  lemma {:induction false} Append(t: Session, es: seq<Event>, e: Event)
    requires Legal(t, es) && Enabled(Exec(t, es), e)
    ensures Legal(t, es + [e]) && Exec(t, es + [e]) == Apply(Exec(t, es), e)
    decreases |es|
  {
    if es == [] {
      assert [e][1..] == [];
    } else {
      assert (es + [e])[1..] == es[1..] + [e];
      Append(Apply(t, es[0]), es[1..], e);
    }
  }
}

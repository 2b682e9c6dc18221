/**
 ICE candidates and remote descriptions, one connection index at a time. A candidate may arrive
 before the connection exists, before its remote description is set, or between any two awaits of
 the handler that drains the buffers.
 */
module IceProtocol {
  import opened Bytes

  type Candidate = string

  datatype Progress =
    | Idle              // no offer or answer handled yet
    | Offered           // handleOffer awaits setRemoteDescription
    | Answered          // handleAnswer awaits setRemoteDescription
    | Global(k: nat)    // handing over the k-th candidate of the global buffer
    | Own(k: nat)       // handing over the k-th candidate of the connection's buffer
    | Settled

  /** `handed` logs the calls on the peer connection; `early` counts those made before the remote description. */
  datatype Link = Link(made: bool, remote: bool, global: seq<Candidate>, pending: seq<Candidate>,
                       progress: Progress, received: seq<Candidate>, handed: seq<Candidate>, early: nat)

  const UNKNOWN: Link := Link(false, false, [], [], Idle, [], [], 0)

  datatype Event =
    | Arrive(c: Candidate)
    | Create             // sender: createOffer makes the connection
    | Offer              // receiver: handleOffer makes the connection
    | Answer             // sender: handleAnswer
    | RemoteSet
    | HandNext
    | DropGlobal
    | Finish

  function Hand(l: Link, c: Candidate): Link {
    l.(handed := l.handed + [c], early := l.early + if l.remote then 0 else 1)
  }

  predicate Enabled(l: Link, e: Event) {
    match e
    case Arrive(_) => true
    case Create => !l.made && l.progress.Idle?
    case Offer => !l.made && l.progress.Idle?
    case Answer => l.made && l.progress.Idle?
    case RemoteSet => l.progress.Offered? || l.progress.Answered?
    case HandNext =>
      (l.progress.Global? && l.progress.k < |l.global|) || (l.progress.Own? && l.progress.k < |l.pending|)
    case DropGlobal => l.progress.Global? && l.progress.k >= |l.global|
    case Finish => l.progress.Own? && l.progress.k >= |l.pending|
  }

  function Arrived(l: Link, c: Candidate): Link {
    var m := l.(received := l.received + [c]);
    if !l.made then m.(global := l.global + [c])
    else if !l.remote then m.(pending := l.pending + [c])
    else Hand(m, c)
  }

  function Apply(l: Link, e: Event): Link
    requires Enabled(l, e)
  {
    match e
    case Arrive(c) => Arrived(l, c)
    case Create => l.(made := true)
    case Offer => l.(made := true, progress := Offered)
    case Answer => l.(progress := Answered)
    case RemoteSet => l.(remote := true, progress := if l.progress.Offered? then Global(0) else Own(0))
    case HandNext =>
      if l.progress.Global? then Hand(l, l.global[l.progress.k]).(progress := Global(l.progress.k + 1))
      else Hand(l, l.pending[l.progress.k]).(progress := Own(l.progress.k + 1))
    case DropGlobal => l.(global := [], progress := Own(0))
    case Finish => l.(pending := [], progress := Settled)
  }

  function ArriveAll(l: Link, cs: seq<Candidate>): Link
    decreases |cs|
  {
    if cs == [] then l else ArriveAll(Arrived(l, cs[0]), cs[1..])
  }

  predicate Legal(l: Link, es: seq<Event>)
    decreases |es|
  {
    es == [] || (Enabled(l, es[0]) && Legal(Apply(l, es[0]), es[1..]))
  }

  function Exec(l: Link, es: seq<Event>): Link
    requires Legal(l, es)
    decreases |es|
  {
    if es == [] then l else Exec(Apply(l, es[0]), es[1..])
  }

  lemma {:induction false} Append(l: Link, es: seq<Event>, e: Event)
    requires Legal(l, es) && Enabled(Exec(l, es), e)
    ensures Legal(l, es + [e]) && Exec(l, es + [e]) == Apply(Exec(l, es), e)
    decreases |es|
  {
    if es == [] {
      assert [e][1..] == [];
    } else {
      assert (es + [e])[1..] == es[1..] + [e];
      Append(Apply(l, es[0]), es[1..], e);
    }
  }

  /** The candidates that arrive during a run. */
  function Candidates(es: seq<Event>): seq<Candidate> {
    if es == [] then [] else (if es[0].Arrive? then [es[0].c] else []) + Candidates(es[1..])
  }

  /** The log of received candidates is that of the run's arrivals, in order: no step rewrites it. */
  lemma {:induction false} ReceivedIs(l: Link, es: seq<Event>)
    requires Legal(l, es)
    ensures Exec(l, es).received == l.received + Candidates(es)
    decreases |es|
  {
    if es != [] {
      ReceivedIs(Apply(l, es[0]), es[1..]);
    }
  }

  /** The logs only grow as a run goes on. */
  lemma {:induction false} LogsGrow(l: Link, a: seq<Event>, b: seq<Event>)
    requires a <= b && Legal(l, a) && Legal(l, b)
    ensures Exec(l, a).received <= Exec(l, b).received && Exec(l, a).handed <= Exec(l, b).handed
    decreases |b|
  {
    if b != [] {
      var m := Apply(l, b[0]);
      if a == [] {
        LogsGrow(m, [], b[1..]);
        assert l.received <= m.received && l.handed <= m.handed;
      } else {
        LogsGrow(m, a[1..], b[1..]);
      }
    }
  }

  /** Received but not yet handed over. */
  function Waiting(l: Link): seq<Candidate> {
    (if l.progress.Global? && l.progress.k <= |l.global| then l.global[l.progress.k..] else l.global)
    + (if l.progress.Own? && l.progress.k <= |l.pending| then l.pending[l.progress.k..] else l.pending)
  }

  ghost predicate Inv(l: Link) {
    && l.early == 0
    && SameTimes(l.received, l.handed + Waiting(l))
    && (l.remote <==> l.progress.Global? || l.progress.Own? || l.progress.Settled?)
    && (!l.made ==> l.progress.Idle? && l.pending == [])
    && (!l.remote ==> l.handed == [])
    && (l.progress.Global? ==> l.progress.k <= |l.global|)
    && (l.progress.Own? ==> l.progress.k <= |l.pending|)
    && (l.progress.Settled? ==> l.pending == [])
  }

  lemma StepInv(l: Link, e: Event)
    requires Inv(l) && Enabled(l, e)
    ensures Inv(Apply(l, e))
  {
    match e
    case Arrive(c) => ArriveInv(l, c);
    case HandNext => HandNextInv(l);
    case RemoteSet => assert Waiting(Apply(l, e)) == Waiting(l);
    case DropGlobal => assert Waiting(Apply(l, e)) == Waiting(l);
    case Finish => assert Waiting(Apply(l, e)) == Waiting(l);
    case Create =>
    case Offer =>
    case Answer =>
  }

  lemma HandNextInv(l: Link)
    requires Inv(l) && Enabled(l, HandNext)
    ensures Inv(Apply(l, HandNext))
  {
    var m, k := Apply(l, HandNext), l.progress.k;
    forall x: Candidate ensures Times(m.received, x) == Times(m.handed + Waiting(m), x) {
      if l.progress.Global? {
        assert l.handed + Waiting(l) == m.handed + Waiting(m);
      } else {
        assert l.handed + Waiting(l) == l.handed + l.global + [l.pending[k]] + l.pending[k + 1..];
        assert m.handed + Waiting(m) == l.handed + [l.pending[k]] + l.global + l.pending[k + 1..];
        TimesSwap(l.handed, l.global, [l.pending[k]], l.pending[k + 1..], x);
      }
    }
  }

  lemma TimesSwap(a: seq<Candidate>, b: seq<Candidate>, c: seq<Candidate>, d: seq<Candidate>, x: Candidate)
    ensures Times(a + b + c + d, x) == Times(a + c + b + d, x)
    ensures Times(a + b + c + d, x) == Times(a, x) + Times(b, x) + Times(c, x) + Times(d, x)
  {
    TimesConcat(a + b + c, d, x);
    TimesConcat(a + b, c, x);
    TimesConcat(a, b, x);
    TimesConcat(a + c + b, d, x);
    TimesConcat(a + c, b, x);
    TimesConcat(a, c, x);
  }

  lemma ArriveInv(l: Link, c: Candidate)
    requires Inv(l)
    ensures Inv(Arrived(l, c))
  {
    var m := Arrived(l, c);
    forall x: Candidate ensures Times(m.received, x) == Times(m.handed + Waiting(m), x) {
      TimesConcat(l.received, [c], x);
      if !l.made {
        assert l.handed + Waiting(l) == l.handed + l.global + [] + [];
        assert m.handed + Waiting(m) == l.handed + l.global + [c] + [];
        TimesSwap(l.handed, l.global, [c], [], x);
        TimesSwap(l.handed, l.global, [], [], x);
      } else if !l.remote {
        assert m.handed + Waiting(m) == l.handed + Waiting(l) + [c];
        TimesConcat(l.handed + Waiting(l), [c], x);
      } else {
        assert m.handed + Waiting(m) == l.handed + [c] + Waiting(l) + [];
        assert l.handed + [] + Waiting(l) + [] == l.handed + Waiting(l);
        TimesSwap(l.handed, [c], Waiting(l), [], x);
        TimesSwap(l.handed, [], Waiting(l), [], x);
      }
    }
  }

  lemma {:induction false} RunInv(l: Link, es: seq<Event>)
    requires Inv(l) && Legal(l, es)
    ensures Inv(Exec(l, es))
    decreases |es|
  {
    if es != [] {
      StepInv(l, es[0]);
      RunInv(Apply(l, es[0]), es[1..]);
    }
  }

  ghost predicate AnswerSide(l: Link) {
    l.made && !l.progress.Offered? && !l.progress.Global?
  }

  /** On the sender side the global buffer is never touched again once the connection exists. */
  lemma {:induction false} GlobalStays(l: Link, es: seq<Event>)
    requires Legal(l, es) && AnswerSide(l)
    ensures Exec(l, es).global == l.global
    decreases |es|
  {
    if es != [] {
      GlobalStays(Apply(l, es[0]), es[1..]);
    }
  }

  ghost predicate OfferSide(l: Link) {
    && (l.made ==> !l.progress.Idle? && !l.progress.Answered?)
    && (l.progress.Own? || l.progress.Settled? ==> l.global == [])
  }

  lemma {:induction false} OfferSideRun(l: Link, es: seq<Event>)
    requires Legal(l, es) && OfferSide(l) && forall k :: 0 <= k < |es| ==> !es[k].Create?
    requires !l.made ==> l.progress.Idle?
    ensures OfferSide(Exec(l, es))
    decreases |es|
  {
    if es != [] {
      assert !es[0].Create?;
      OfferSideRun(Apply(l, es[0]), es[1..]);
    }
  }

  /**
   Receiver side, over every interleaving of arrivals with the handler's awaits: nothing reaches the
   peer connection early, and from the moment the handler ends every candidate received so far has
   been handed over exactly once and no buffer holds any.
   */
  lemma OfferSideBuffering(es: seq<Event>)
    requires Legal(UNKNOWN, es) && forall k :: 0 <= k < |es| ==> !es[k].Create?
    ensures var l := Exec(UNKNOWN, es);
      && l.early == 0
      && (forall x: Candidate :: Times(l.handed, x) <= Times(l.received, x))
      && (l.progress.Settled? ==>
           && l.global == l.pending == []
           && SameTimes(l.handed, l.received))
  {
    RunInv(UNKNOWN, es);
    var l := Exec(UNKNOWN, es);
    forall x: Candidate ensures Times(l.received, x) == Times(l.handed, x) + Times(Waiting(l), x) {
      TimesConcat(l.handed, Waiting(l), x);
    }
    OfferSideRun(UNKNOWN, es);
  }

  /**
   Sender side: the handler never looks at the global buffer. When it ends, every candidate received
   has been handed over iff none arrived before createOffer had made the connection.
   */
  lemma AnswerSideBuffering(before: seq<Event>, after: seq<Event>)
    requires Legal(UNKNOWN, before) && Enabled(Exec(UNKNOWN, before), Create)
    requires Legal(Apply(Exec(UNKNOWN, before), Create), after)
    requires Exec(Apply(Exec(UNKNOWN, before), Create), after).progress.Settled?
    ensures var l := Exec(Apply(Exec(UNKNOWN, before), Create), after);
      && l.early == 0 && l.pending == []
      && (SameTimes(l.handed, l.received) <==> before == [])
  {
    RunInv(UNKNOWN, before);
    StrayCandidates(UNKNOWN, before);
    var m := Apply(Exec(UNKNOWN, before), Create);
    StepInv(Exec(UNKNOWN, before), Create);
    RunInv(m, after);
    GlobalStays(m, after);
    var l := Exec(m, after);
    assert Waiting(l) == l.global;
    forall x: Candidate ensures Times(l.received, x) == Times(l.handed, x) + Times(l.global, x) {
      TimesConcat(l.handed, l.global, x);
    }
    if before != [] {
      TimesIn(l.global, l.global[0]);
      assert Times(l.handed, l.global[0]) < Times(l.received, l.global[0]);
    }
  }

  /** One candidate before createOffer: the answer is handled to its end, and the candidate never handed over. */
  lemma StrayExample(c: Candidate)
    ensures var before, after := [Arrive(c)], [Answer, RemoteSet, Finish];
      && Legal(UNKNOWN, before) && Enabled(Exec(UNKNOWN, before), Create)
      && Legal(Apply(Exec(UNKNOWN, before), Create), after)
      && var l := Exec(Apply(Exec(UNKNOWN, before), Create), after);
         l.progress.Settled? && l.received == [c] && l.handed == []
  {
    assert [Arrive(c)][1..] == [];
    assert [Answer, RemoteSet, Finish][1..] == [RemoteSet, Finish];
    assert [RemoteSet, Finish][1..] == [Finish] && [Finish][1..] == [];
  }

  /** Until the connection exists, only candidates can have come, and all of them are in the global buffer. */
  lemma {:induction false} StrayCandidates(l: Link, es: seq<Event>)
    requires !l.made && l.progress.Idle? && Legal(l, es) && !Exec(l, es).made
    ensures |Exec(l, es).global| == |l.global| + |es|
    decreases |es|
  {
    if es != [] {
      if !es[0].Arrive? {
        ExistsStays(Apply(l, es[0]), es[1..]);
      } else {
        StrayCandidates(Apply(l, es[0]), es[1..]);
      }
    }
  }

  lemma {:induction false} ExistsStays(l: Link, es: seq<Event>)
    requires l.made && Legal(l, es)
    ensures Exec(l, es).made
    decreases |es|
  {
    if es != [] {
      ExistsStays(Apply(l, es[0]), es[1..]);
    }
  }

  // ---------------------------------------------------------------- order

  /** h interleaves a and b, each in its own order. */
  ghost predicate Shuffle(h: seq<Candidate>, a: seq<Candidate>, b: seq<Candidate>)
    decreases |h|
  {
    if h == [] then a == [] && b == []
    else
      var x, rest := h[|h| - 1], h[..|h| - 1];
      || (a != [] && x == a[|a| - 1] && Shuffle(rest, a[..|a| - 1], b))
      || (b != [] && x == b[|b| - 1] && Shuffle(rest, a, b[..|b| - 1]))
  }

  lemma ShuffleMore(h: seq<Candidate>, a: seq<Candidate>, b: seq<Candidate>, x: Candidate)
    requires Shuffle(h, a, b)
    ensures Shuffle(h + [x], a + [x], b) && Shuffle(h + [x], a, b + [x])
  {
    assert (h + [x])[..|h|] == h && (a + [x])[..|a|] == a && (b + [x])[..|b|] == b;
  }

  /** Of the candidates received before the remote description was set, those from Low up to High are handed over. */
  function Low(l: Link): nat { if l.progress.Global? then 0 else |l.global| }

  function High(l: Link, e: nat): int {
    match l.progress
    case Global(k) => k
    case Own(k) => e - |l.pending| + k
    case _ => e
  }

  /** The rest of them waits. */
  ghost predicate Waits(l: Link, e: nat)
    requires e <= |l.received|
  {
    match l.progress
    case Global(k) => k <= |l.global| && l.global + l.pending == l.received[..e]
    case Own(k) => k <= |l.pending| && |l.global| + |l.pending| <= e && l.pending == l.received[e - |l.pending|..e]
    case _ => true
  }

  /**
   Until the remote description is set everything received waits, in order. From then on, e being how much
   had been received by that time, what has been handed over interleaves what waited then with what came
   after, each in the order of arrival; on the sending side what the global buffer keeps is left out.
   */
  ghost predicate Ordered(l: Link, e: nat) {
    if !l.remote then l.handed == [] && l.received == l.global + l.pending
    else
      && e <= |l.received| && Low(l) <= High(l, e) <= e
      && Waits(l, e)
      && Shuffle(l.handed, l.received[Low(l)..High(l, e)], l.received[e..])
  }

  lemma LaterOne(h: seq<Candidate>, r: seq<Candidate>, a: nat, b: nat, e: nat, c: Candidate)
    requires a <= b <= e <= |r| && Shuffle(h, r[a..b], r[e..])
    ensures Shuffle(h + [c], (r + [c])[a..b], (r + [c])[e..])
  {
    assert (r + [c])[a..b] == r[a..b] && (r + [c])[e..] == r[e..] + [c];
    ShuffleMore(h, r[a..b], r[e..], c);
  }

  lemma NextOne(h: seq<Candidate>, r: seq<Candidate>, a: nat, b: nat, e: nat)
    requires a <= b < e <= |r| && Shuffle(h, r[a..b], r[e..])
    ensures Shuffle(h + [r[b]], r[a..b + 1], r[e..])
  {
    assert r[a..b + 1] == r[a..b] + [r[b]];
    ShuffleMore(h, r[a..b], r[e..], r[b]);
  }

  lemma WaitsStill(l: Link, e: nat, c: Candidate)
    requires l.remote && l.made && e <= |l.received| && Waits(l, e)
    ensures Waits(Arrived(l, c), e)
  {
    var r := l.received;
    assert (r + [c])[..e] == r[..e];
    assert l.progress.Own? && |l.pending| <= e ==> (r + [c])[e - |l.pending|..e] == r[e - |l.pending|..e];
  }

  lemma OrderArrive(l: Link, e: nat, c: Candidate)
    requires Inv(l) && Ordered(l, e)
    ensures Ordered(Arrived(l, c), e)
  {
    if l.remote {
      WaitsStill(l, e, c);
      LaterOne(l.handed, l.received, Low(l), High(l, e), e, c);
    } else {
      WaitingOne(l.global, l.pending, c);
    }
  }

  lemma WaitingOne(g: seq<Candidate>, p: seq<Candidate>, c: Candidate)
    ensures g + p + [c] == g + (p + [c])
    ensures p == [] ==> g + p + [c] == (g + [c]) + p
  {
  }

  /** The candidate that is handed over next is the next one in order of arrival. */
  lemma NextInOrder(l: Link, e: nat)
    requires e <= |l.received| && Waits(l, e) && Enabled(l, HandNext)
    ensures 0 <= High(l, e) < e
    ensures l.received[High(l, e)] == if l.progress.Global? then l.global[l.progress.k] else l.pending[l.progress.k]
  {
    if l.progress.Global? {
      assert l.received[..e][l.progress.k] == (l.global + l.pending)[l.progress.k];
    } else {
      assert l.pending[l.progress.k] == l.received[e - |l.pending|..e][l.progress.k];
    }
  }

  lemma OrderHand(l: Link, e: nat)
    requires Inv(l) && Ordered(l, e) && Enabled(l, HandNext)
    ensures Ordered(Apply(l, HandNext), e)
  {
    NextInOrder(l, e);
    NextOne(l.handed, l.received, Low(l), High(l, e), e);
  }

  /** The remote description is set: all that has been received waits, and nothing has been handed over. */
  lemma OrderSet(l: Link)
    requires Inv(l) && Ordered(l, 0) && Enabled(l, RemoteSet)
    ensures Ordered(Apply(l, RemoteSet), |l.received|)
  {
    var e, a := |l.received|, |l.global|;
    assert l.received[..e] == l.received && l.received[e..] == [] && l.received[a..e] == l.pending;
    assert l.received[0..0] == [] && l.received[a..a] == [];
  }

  lemma OrderDrop(l: Link, e: nat)
    requires Inv(l) && Ordered(l, e) && Enabled(l, DropGlobal)
    ensures Ordered(Apply(l, DropGlobal), e)
  {
    assert |l.global| + |l.pending| == |l.received[..e]| == e;
    assert l.received[..e][|l.global|..] == l.pending;
    assert l.received[|l.global|..e] == l.received[..e][|l.global|..];
  }

  lemma OrderStep(l: Link, e: nat, ev: Event)
    requires Inv(l) && Ordered(l, e) && Enabled(l, ev) && !ev.RemoteSet?
    ensures Ordered(Apply(l, ev), e)
  {
    match ev
    case Arrive(c) => OrderArrive(l, e, c);
    case HandNext => OrderHand(l, e);
    case DropGlobal => OrderDrop(l, e);
    case Finish =>
    case Create =>
    case Offer =>
    case Answer =>
  }

  /** Where the remote description is set in a run. */
  function RemoteAt(es: seq<Event>): (k: Option<nat>)
    ensures k.Some? ==> k.value < |es|
  {
    if es == [] then None
    else if es[0].RemoteSet? then Some(0)
    else
      match RemoteAt(es[1..])
      case None => None
      case Some(k) => Some(k + 1)
  }

  lemma {:induction false} OrderStays(l: Link, e: nat, es: seq<Event>)
    requires Inv(l) && Ordered(l, e) && l.remote && Legal(l, es)
    ensures Exec(l, es).remote && Ordered(Exec(l, es), e)
    decreases |es|
  {
    if es != [] {
      StepInv(l, es[0]);
      OrderStep(l, e, es[0]);
      OrderStays(Apply(l, es[0]), e, es[1..]);
    }
  }

  lemma {:induction false} OrderRun(l: Link, es: seq<Event>)
    requires Inv(l) && Ordered(l, 0) && !l.remote && Legal(l, es)
    ensures var k, m := RemoteAt(es), Exec(l, es);
      && (m.remote <==> k.Some?)
      && Ordered(m, if k.Some? then |l.received| + |Candidates(es[..k.value])| else 0)
    decreases |es|
  {
    if es != [] {
      RemoteAtSplit(es);
      BeforeRemote(l, es[0]);
      if es[0].RemoteSet? {
        OrderStays(Apply(l, es[0]), |l.received|, es[1..]);
      } else {
        OrderRun(Apply(l, es[0]), es[1..]);
      }
    }
  }

  lemma BeforeRemote(l: Link, ev: Event)
    requires Inv(l) && Ordered(l, 0) && !l.remote && Enabled(l, ev)
    ensures var m := Apply(l, ev);
      && Inv(m) && (m.remote <==> ev.RemoteSet?)
      && |m.received| == |l.received| + (if ev.Arrive? then 1 else 0)
      && Ordered(m, if ev.RemoteSet? then |l.received| else 0)
  {
    StepInv(l, ev);
    if ev.RemoteSet? {
      OrderSet(l);
    } else {
      OrderStep(l, 0, ev);
    }
  }

  lemma RemoteAtSplit(es: seq<Event>)
    requires es != []
    ensures var k, j := RemoteAt(es), RemoteAt(es[1..]);
      if es[0].RemoteSet? then k == Some(0) && Candidates(es[..0]) == []
      else
        && (k.Some? <==> j.Some?)
        && (k.Some? ==>
             |Candidates(es[..k.value])| == (if es[0].Arrive? then 1 else 0) + |Candidates(es[1..][..j.value])|)
  {
    var j := RemoteAt(es[1..]);
    if !es[0].RemoteSet? && j.Some? {
      assert es[..j.value + 1][1..] == es[1..][..j.value];
    }
  }

  /** The order in which the candidates of a settled index have been handed over, read off its history. */
  ghost predicate InOrder(es: seq<Event>, l: Link) {
    && RemoteAt(es).Some?
    && var e := |Candidates(es[..RemoteAt(es).value])|;
       && |l.global| <= e <= |l.received|
       && Shuffle(l.handed, l.received[|l.global|..e], l.received[e..])
  }

  /**
   Order, over every interleaving: when a handler has ended, the candidates that had come before the remote
   description was set have been handed over in the order of their arrival, and so have the later ones.
   */
  lemma HandedInOrder(es: seq<Event>)
    requires Legal(UNKNOWN, es) && Exec(UNKNOWN, es).progress.Settled?
    ensures InOrder(es, Exec(UNKNOWN, es))
  {
    RunInv(UNKNOWN, es);
    OrderRun(UNKNOWN, es);
  }
}

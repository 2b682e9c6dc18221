/**
 The sending half of the browser engine as a transition system: any number of pumps share one
 chunk counter and one retry queue. One event is one uninterrupted piece of a pump between two
 awaits or two sends, so every schedule of the event loop is a legal run. Back-pressure yields
 change nothing and are stutter steps.
 */
module PumpProtocol {
  import opened Bytes
  import opened Chunking
  import opened Frames

  const BATCH: nat := 64

  datatype Kind = Relay | P2P

  datatype Phase =
    | Dormant                                // no pump launched yet
    | Looping                                // at the _moreWork test
    | Reading(batch: seq<nat>)               // claimed, awaiting the disk
    | Sending(batch: seq<nat>, at: nat)      // batch[at] is next
    | Failing(rest: seq<nat>)                // P2P only: channel found dead, not yet requeued
    | Exited

  datatype Sender = Sender(
    size: nat, total: nat, kinds: seq<Kind>,
    next: nat, retry: seq<nat>, sent: seq<nat>,
    sentChunks: nat, bytes: nat, completeFired: bool, completions: nat,
    pumps: seq<Phase>)
  {
    predicate MoreWork() { next < total || |retry| > 0 }
    predicate AllSent() { |sent| == total }
    function At(p: nat, ph: Phase): Sender requires p < |pumps| { this.(pumps := pumps[p := ph]) }
  }

  datatype Event =
    | Start(p: nat)
    | Claim(p: nat)
    | Quit(p: nat)
    | ReadDone(p: nat)
    | Send(p: nat)
    | BatchEnd(p: nat, open: bool)
    | Fail(p: nat)        // relay pump: socket closed or send threw; requeue and return
    | Detect(p: nat)      // P2P pump: the blast loop resolves early
    | HandBack(p: nat)    // P2P pump: requeue and return

  function Init(size: nat, kinds: seq<Kind>): Sender {
    Sender(size, Count(size, CHUNK), kinds, 0, [], [], 0, 0, false, 0, seq(|kinds|, i => Dormant))
  }

  /** What a pump claims: up to 64 retries first, then fresh indices from the counter. */
  function Retries(s: Sender): nat { Min(BATCH, |s.retry|) }

  function Fresh(s: Sender): nat {
    if s.next < s.total then Min(BATCH - Retries(s), s.total - s.next) else 0
  }

  function ClaimedBatch(s: Sender): seq<nat> { s.retry[..Retries(s)] + Range(s.next, Fresh(s)) }

  /** Everything a pump could take, in the order in which it would. */
  function Ahead(s: Sender): seq<nat> { s.retry + if s.next < s.total then Range(s.next, s.total - s.next) else [] }

  /** A claim is as large as it can be: the first 64 of all that is queued or unclaimed, retries first. */
  lemma ClaimIs(s: Sender)
    ensures ClaimedBatch(s) == Ahead(s)[..Min(64, |Ahead(s)|)]
  {
    var k := Min(64, |Ahead(s)|);
    assert |ClaimedBatch(s)| == k;
    forall j | 0 <= j < k ensures ClaimedBatch(s)[j] == Ahead(s)[j] {
    }
  }

  predicate Enabled(s: Sender, e: Event) {
    && e.p < |s.pumps| == |s.kinds|
    && var ph := s.pumps[e.p];
       match e
       case Start(_) => ph.Dormant?
       case Claim(_) => ph.Looping? && s.MoreWork()
       case Quit(_) => ph.Looping? && !s.MoreWork()
       case ReadDone(_) => ph.Reading?
       case Send(_) => ph.Sending? && ph.at < |ph.batch|
       case BatchEnd(p, open) => ph.Sending? && ph.at == |ph.batch| && (s.kinds[p].Relay? ==> open)
       case Fail(p) => s.kinds[p].Relay? && ph.Sending? && ph.at < |ph.batch|
       case Detect(p) => s.kinds[p].P2P? && ph.Sending? && ph.at < |ph.batch|
       case HandBack(_) => ph.Failing?
  }

  function Apply(s: Sender, e: Event): Sender
    requires Enabled(s, e)
  {
    var ph := s.pumps[e.p];
    match e
    case Start(p) => s.At(p, Looping)
    case Claim(p) => s.(next := s.next + Fresh(s), retry := s.retry[Retries(s)..]).At(p, Reading(ClaimedBatch(s)))
    case Quit(p) => s.At(p, Exited)
    case ReadDone(p) => s.At(p, Sending(ph.batch, 0))
    case Send(p) => Counted(s, ph.batch[ph.at]).At(p, Sending(ph.batch, ph.at + 1))
    case BatchEnd(p, open) => s.At(p, if open then Looping else Exited)
    case Fail(p) => s.(retry := s.retry + ph.batch[ph.at..]).At(p, Exited)
    case Detect(p) => s.At(p, Failing(ph.batch[ph.at..]))
    case HandBack(p) => s.(retry := s.retry + ph.rest).At(p, Exited)
  }

  /** send() returned for chunk i: count it, then _checkDone. */
  function Counted(s: Sender, i: nat): Sender {
    var done := s.sentChunks + 1 == s.total && !s.completeFired;
    s.(sent := s.sent + [i],
       sentChunks := s.sentChunks + 1,
       bytes := s.bytes + ChunkLen(s.size, CHUNK, i),
       completeFired := s.completeFired || done,
       completions := s.completions + if done then 1 else 0)
  }

  predicate Legal(s: Sender, es: seq<Event>)
    decreases |es|
  {
    es == [] || (Enabled(s, es[0]) && Legal(Apply(s, es[0]), es[1..]))
  }

  function Exec(s: Sender, es: seq<Event>): Sender
    requires Legal(s, es)
    decreases |es|
  {
    if es == [] then s else Exec(Apply(s, es[0]), es[1..])
  }

  lemma {:induction false} ExecConcat(s: Sender, a: seq<Event>, b: seq<Event>)
    requires Legal(s, a) && Legal(Exec(s, a), b)
    ensures Legal(s, a + b) && Exec(s, a + b) == Exec(Exec(s, a), b)
    decreases |a|
  {
    if a == [] {
      assert a + b == b;
    } else {
      assert (a + b)[1..] == a[1..] + b;
      ExecConcat(Apply(s, a[0]), a[1..], b);
    }
  }

  // ---------------------------------------------------------------- conservation

  function Holding(ph: Phase): seq<nat> {
    match ph
    case Reading(batch) => batch
    case Sending(batch, at) => if at <= |batch| then batch[at..] else []
    case Failing(rest) => rest
    case _ => []
  }

  /** Copies of index i in all pumps' hands, and how many indices they hold altogether. */
  function HeldTimes(pumps: seq<Phase>, i: nat): nat {
    if pumps == [] then 0 else Times(Holding(pumps[0]), i) + HeldTimes(pumps[1..], i)
  }

  function HeldSize(pumps: seq<Phase>): nat {
    if pumps == [] then 0 else |Holding(pumps[0])| + HeldSize(pumps[1..])
  }

  /** Copies of index i anywhere: sent, waiting for a retry, or unsent in some pump's hands. */
  function Copies(s: Sender, i: nat): nat {
    Times(s.sent, i) + Times(s.retry, i) + HeldTimes(s.pumps, i)
  }

  ghost predicate Conserved(s: Sender) {
    && s.next <= s.total
    && |s.sent| + |s.retry| + HeldSize(s.pumps) == s.next
    && forall i: nat :: Copies(s, i) == if i < s.next then 1 else 0
  }

  ghost predicate Accounted(s: Sender) {
    && s.sentChunks == |s.sent|
    && s.bytes == Payload(s.size, CHUNK, s.total, SetOf(s.sent))
    && (s.completeFired <==> s.AllSent() && s.total > 0)
    && s.completions == if s.completeFired then 1 else 0
  }

  ghost predicate WellFormed(ph: Phase) {
    && |Holding(ph)| <= BATCH
    && (ph.Sending? ==> ph.at <= |ph.batch|)
    && (ph.Reading? ==> 0 < |ph.batch|)
    && (ph.Failing? ==> 0 < |ph.rest|)
  }

  ghost predicate Inv(s: Sender) {
    && |s.pumps| == |s.kinds|
    && s.total == Count(s.size, CHUNK)
    && Conserved(s)
    && Accounted(s)
    && forall p :: 0 <= p < |s.pumps| ==> WellFormed(s.pumps[p])
  }

  lemma {:induction false} HeldUpdate(pumps: seq<Phase>, p: nat, ph: Phase, i: nat)
    requires p < |pumps|
    ensures HeldTimes(pumps[p := ph], i) == HeldTimes(pumps, i) - Times(Holding(pumps[p]), i) + Times(Holding(ph), i)
    ensures HeldSize(pumps[p := ph]) == HeldSize(pumps) - |Holding(pumps[p])| + |Holding(ph)|
  {
    if p > 0 {
      assert pumps[p := ph][1..] == pumps[1..][p - 1 := ph];
      HeldUpdate(pumps[1..], p - 1, ph, i);
    } else {
      assert pumps[p := ph][1..] == pumps[1..];
    }
  }

  lemma {:induction false} HeldContains(pumps: seq<Phase>, p: nat, i: nat)
    requires p < |pumps|
    ensures Times(Holding(pumps[p]), i) <= HeldTimes(pumps, i)
    ensures |Holding(pumps[p])| <= HeldSize(pumps)
  {
    if p > 0 {
      HeldContains(pumps[1..], p - 1, i);
    }
  }

  lemma {:induction false} NothingHeld(pumps: seq<Phase>, i: nat)
    ensures HeldSize(pumps) == 0 ==> HeldTimes(pumps, i) == 0
    ensures (forall p :: 0 <= p < |pumps| ==> Holding(pumps[p]) == []) ==> HeldSize(pumps) == 0
  {
    if pumps != [] {
      NothingHeld(pumps[1..], i);
    }
  }

  lemma InitInv(size: nat, kinds: seq<Kind>)
    ensures Inv(Init(size, kinds))
  {
    var s := Init(size, kinds);
    NothingHeld(s.pumps, 0);
    forall i: nat ensures Copies(s, i) == 0 {
      NothingHeld(s.pumps, i);
    }
    PayloadEmpty(size, CHUNK, s.total);
    assert SetOf(s.sent) == {};
  }

  /** Indices the event takes from the counter. */
  function Taken(s: Sender, e: Event): seq<nat> {
    if e.Claim? then Range(s.next, Fresh(s)) else []
  }

  /** A step only moves indices between its own pump, the sent list and the retry queue. */
  lemma StepMoves(s: Sender, e: Event, i: nat)
    requires Enabled(s, e) && WellFormed(s.pumps[e.p])
    ensures var t := Apply(s, e);
      Times(t.sent, i) + Times(t.retry, i) + Times(Holding(t.pumps[e.p]), i)
      == Times(s.sent, i) + Times(s.retry, i) + Times(Holding(s.pumps[e.p]), i) + Times(Taken(s, e), i)
  {
    match e
    case Claim(p) => MoveClaim(s, p, i);
    case Send(p) => SendMoves(s, p, i);
    case Fail(_) => RestMoves(s, e, i);
    case HandBack(_) => RestMoves(s, e, i);
    case _ => QuietStep(s, e);
  }

  lemma SendMoves(s: Sender, p: nat, i: nat)
    requires Enabled(s, Send(p))
    ensures var t := Apply(s, Send(p));
      && t.retry == s.retry
      && Times(t.sent, i) + Times(Holding(t.pumps[p]), i) == Times(s.sent, i) + Times(Holding(s.pumps[p]), i)
  {
    var ph := s.pumps[p];
    TimesConcat(s.sent, [ph.batch[ph.at]], i);
    assert ph.batch[ph.at..][1..] == ph.batch[ph.at + 1..];
  }

  lemma RestMoves(s: Sender, e: Event, i: nat)
    requires Enabled(s, e) && (e.Fail? || e.HandBack?)
    ensures var t := Apply(s, e);
      && t.sent == s.sent && Holding(t.pumps[e.p]) == []
      && Times(t.retry, i) == Times(s.retry, i) + Times(Holding(s.pumps[e.p]), i)
  {
    TimesConcat(s.retry, Holding(s.pumps[e.p]), i);
  }

  /** The other steps leave the pump holding what it held. */
  lemma QuietStep(s: Sender, e: Event)
    requires Enabled(s, e) && (e.Start? || e.Quit? || e.ReadDone? || e.BatchEnd? || e.Detect?)
    ensures var t := Apply(s, e);
      t.sent == s.sent && t.retry == s.retry && Holding(t.pumps[e.p]) == Holding(s.pumps[e.p])
  {
    if e.ReadDone? {
      assert s.pumps[e.p].batch[0..] == s.pumps[e.p].batch;
    }
  }

  /** None is lost in number either, and the pump stays well formed. */
  lemma StepSizes(s: Sender, e: Event)
    requires Enabled(s, e) && WellFormed(s.pumps[e.p])
    ensures var t := Apply(s, e);
      && |t.sent| + |t.retry| + |Holding(t.pumps[e.p])|
         == |s.sent| + |s.retry| + |Holding(s.pumps[e.p])| + |Taken(s, e)|
      && t.next == s.next + |Taken(s, e)|
      && (s.next <= s.total ==> t.next <= t.total)
      && WellFormed(t.pumps[e.p])
  {
  }

  lemma MoveClaim(s: Sender, p: nat, i: nat)
    requires Enabled(s, Claim(p))
    ensures Times(s.retry[Retries(s)..], i) + Times(ClaimedBatch(s), i)
         == Times(s.retry, i) + Times(Range(s.next, Fresh(s)), i)
    ensures 0 < |ClaimedBatch(s)| <= BATCH
  {
    assert s.retry == s.retry[..Retries(s)] + s.retry[Retries(s)..];
    TimesConcat(s.retry[..Retries(s)], s.retry[Retries(s)..], i);
    TimesConcat(s.retry[..Retries(s)], Range(s.next, Fresh(s)), i);
  }

  lemma StepConserves(s: Sender, e: Event)
    requires Enabled(s, e) && WellFormed(s.pumps[e.p]) && Conserved(s)
    ensures Conserved(Apply(s, e))
  {
    var t := Apply(s, e);
    StepSizes(s, e);
    HeldUpdate(s.pumps, e.p, t.pumps[e.p], 0);
    forall i: nat ensures Copies(t, i) == if i < t.next then 1 else 0 {
      StepMoves(s, e, i);
      HeldUpdate(s.pumps, e.p, t.pumps[e.p], i);
      TimesRange(s.next, |Taken(s, e)|, i);
      assert Copies(s, i) == if i < s.next then 1 else 0;
    }
  }

  /** An index held by a pump is below the counter, has one copy, and has not been sent. */
  lemma HeldUnsent(s: Sender, p: nat, i: nat)
    requires Conserved(s) && p < |s.pumps| && i in Holding(s.pumps[p])
    ensures i < s.next && i !in s.sent && i !in s.retry && Times(Holding(s.pumps[p]), i) == 1
  {
    HeldContains(s.pumps, p, i);
    TimesIn(Holding(s.pumps[p]), i);
    TimesIn(s.sent, i);
    TimesIn(s.retry, i);
    assert Copies(s, i) <= 1;
  }

  /** No index occurs twice in one pump's hands. */
  lemma HeldDistinct(s: Sender, p: nat)
    requires Conserved(s) && p < |s.pumps|
    ensures Distinct(Holding(s.pumps[p]))
  {
    var h := Holding(s.pumps[p]);
    forall j, k | 0 <= j < k < |h| ensures h[j] != h[k] {
      HeldUnsent(s, p, h[j]);
      if h[j] == h[k] {
        TimesTwice(h, j, k);
      }
    }
  }

  lemma SendAccounts(s: Sender, p: nat)
    requires Enabled(s, Send(p)) && WellFormed(s.pumps[p]) && Conserved(s) && Accounted(s)
    ensures Accounted(Apply(s, Send(p)))
  {
    var t := Apply(s, Send(p));
    var i := s.pumps[p].batch[s.pumps[p].at];
    assert s.pumps[p].batch[s.pumps[p].at..][0] == i;
    HeldUnsent(s, p, i);
    assert SetOf(t.sent) == SetOf(s.sent) + {i};
    PayloadAdd(s.size, CHUNK, s.total, SetOf(s.sent), i);
    StepConserves(s, Send(p));
  }

  /** Every step keeps the invariant; in particular the batch a pump claims is never empty. */
  lemma StepInv(s: Sender, e: Event)
    requires Inv(s) && Enabled(s, e)
    ensures Inv(Apply(s, e))
  {
    var t := Apply(s, e);
    StepConserves(s, e);
    StepAccounts(s, e);
    forall p | 0 <= p < |t.pumps| ensures WellFormed(t.pumps[p]) {
      if p == e.p {
        StepSizes(s, e);
      } else {
        assert t.pumps[p] == s.pumps[p];
      }
    }
  }

  lemma StepAccounts(s: Sender, e: Event)
    requires Enabled(s, e) && WellFormed(s.pumps[e.p]) && Conserved(s) && Accounted(s)
    ensures Accounted(Apply(s, e))
  {
    if e.Send? {
      SendAccounts(s, e.p);
    }
  }

  lemma {:induction false} RunInv(s: Sender, es: seq<Event>)
    requires Inv(s) && Legal(s, es)
    ensures Inv(Exec(s, es))
    ensures Exec(s, es).size == s.size && Exec(s, es).kinds == s.kinds
    decreases |es|
  {
    if es != [] {
      StepInv(s, es[0]);
      RunInv(Apply(s, es[0]), es[1..]);
    }
  }

  lemma Reached(size: nat, kinds: seq<Kind>, es: seq<Event>)
    requires Legal(Init(size, kinds), es)
    ensures var s := Exec(Init(size, kinds), es); Inv(s) && s.size == size && s.kinds == kinds
  {
    InitInv(size, kinds);
    RunInv(Init(size, kinds), es);
  }

  /**
   Conservation over every run: each claimed index has exactly one copy, either sent, or queued for
   retry, or unsent in the hands of exactly one pump; nothing beyond the counter exists anywhere.
   */
  lemma Conservation(size: nat, kinds: seq<Kind>, es: seq<Event>, i: nat)
    requires Legal(Init(size, kinds), es)
    ensures var s := Exec(Init(size, kinds), es);
      && s.next <= Count(size, CHUNK)
      && s.sentChunks == |s.sent|
      && Times(s.sent, i) + Times(s.retry, i) + HeldTimes(s.pumps, i) == (if i < s.next then 1 else 0)
      && forall p, q :: 0 <= p < q < |s.pumps| ==> !(i in Holding(s.pumps[p]) && i in Holding(s.pumps[q]))
  {
    var s := Exec(Init(size, kinds), es);
    Reached(size, kinds, es);
    assert Copies(s, i) <= 1;
    forall p, q | 0 <= p < q < |s.pumps| ensures !(i in Holding(s.pumps[p]) && i in Holding(s.pumps[q])) {
      HeldByOne(s.pumps, p, q, i);
    }
  }

  lemma {:induction false} HeldByOne(pumps: seq<Phase>, p: nat, q: nat, i: nat)
    requires p < q < |pumps| && HeldTimes(pumps, i) <= 1
    ensures !(i in Holding(pumps[p]) && i in Holding(pumps[q]))
  {
    if p > 0 {
      HeldByOne(pumps[1..], p - 1, q - 1, i);
    } else {
      HeldContains(pumps[1..], q - 1, i);
      TimesIn(Holding(pumps[0]), i);
      TimesIn(Holding(pumps[q]), i);
    }
  }

  // ---------------------------------------------------------------- completion

  /** Every index below n occurs exactly once. */
  ghost predicate EachOnce(s: seq<nat>, n: nat) {
    forall i: nat :: i < n ==> Times(s, i) == 1
  }

  lemma AllSentExactly(s: Sender)
    requires Inv(s)
    ensures s.AllSent() <==> EachOnce(s.sent, s.total)
  {
    if s.AllSent() {
      forall i: nat | i < s.total ensures Times(s.sent, i) == 1 {
        NothingHeld(s.pumps, i);
        assert Copies(s, i) == 1;
      }
    }
    if EachOnce(s.sent, s.total) {
      forall i | i in Range(0, s.total) ensures i in s.sent {
        TimesIn(s.sent, i);
      }
      SubsetOfDistinct(Range(0, s.total), s.sent);
      assert s.AllSent();
    }
  }

  /** A sequence without repeats whose elements all occur in b is no longer than b. */
  lemma {:induction false} SubsetOfDistinct(a: seq<nat>, b: seq<nat>)
    requires Distinct(a)
    requires forall x :: x in a ==> x in b
    ensures |a| <= |b|
  {
    if a != [] {
      assert a[0] in a;
      var k :| 0 <= k < |b| && b[k] == a[0];
      var c := b[..k] + b[k + 1..];
      forall x | x in a[1..] ensures x in c {
        assert x in b && x != a[0];
      }
      SubsetOfDistinct(a[1..], c);
    }
  }

  /** Completion is announced at most once, exactly when every chunk of a non-empty file has been sent once. */
  lemma CompletionAccounting(size: nat, kinds: seq<Kind>, es: seq<Event>)
    requires Legal(Init(size, kinds), es)
    ensures var s := Exec(Init(size, kinds), es); var n := Count(size, CHUNK);
      && s.completions <= 1
      && (s.completeFired <==> s.completions == 1)
      && (s.completeFired <==> n > 0 && EachOnce(s.sent, n))
      && s.bytes == Payload(size, CHUNK, n, SetOf(s.sent))
      && (s.completeFired ==> s.bytes == size)
  {
    var s := Exec(Init(size, kinds), es);
    Reached(size, kinds, es);
    AllSentExactly(s);
    if s.completeFired {
      forall i: nat | i < s.total ensures i in SetOf(s.sent) {
        TimesIn(s.sent, i);
      }
      LastOffset(size, CHUNK);
      PayloadAll(size, CHUNK, s.total, SetOf(s.sent));
    }
  }

  /** The zero-byte file: the check that would announce completion is never reached. */
  lemma EmptyFileNeverCompletes(kinds: seq<Kind>, es: seq<Event>)
    requires Legal(Init(0, kinds), es)
    ensures !Exec(Init(0, kinds), es).completeFired && Exec(Init(0, kinds), es).sent == []
  {
    Reached(0, kinds, es);
  }

  // ---------------------------------------------------------------- termination

  function Weight(ph: Phase): nat {
    |Holding(ph)| + match ph
                    case Dormant => 204
                    case Reading(_) => 203
                    case Sending(_, _) => 202
                    case Looping => 201
                    case Failing(_) => 201
                    case Exited => 0
  }

  function Weights(pumps: seq<Phase>): nat {
    if pumps == [] then 0 else Weight(pumps[0]) + Weights(pumps[1..])
  }

  function Potential(s: Sender): int { Weights(s.pumps) + 4 * (s.total - s.next + |s.retry|) }

  lemma {:induction false} WeightsUpdate(pumps: seq<Phase>, p: nat, ph: Phase)
    requires p < |pumps|
    ensures Weights(pumps[p := ph]) == Weights(pumps) - Weight(pumps[p]) + Weight(ph)
  {
    if p > 0 {
      assert pumps[p := ph][1..] == pumps[1..][p - 1 := ph];
      WeightsUpdate(pumps[1..], p - 1, ph);
    } else {
      assert pumps[p := ph][1..] == pumps[1..];
    }
  }

  lemma StepWeight(s: Sender, e: Event)
    requires Enabled(s, e) && WellFormed(s.pumps[e.p])
    ensures var t := Apply(s, e);
      Weight(t.pumps[e.p]) + 4 * (|t.retry| - t.next) < Weight(s.pumps[e.p]) + 4 * (|s.retry| - s.next)
  {
    match e
    case Claim(p) => ClaimWeight(s, p);
    case Fail(p) => assert |s.pumps[p].batch[s.pumps[p].at..]| <= BATCH;
    case HandBack(p) => assert |s.pumps[p].rest| <= BATCH;
    case Send(_) =>
    case _ => QuietStep(s, e);
  }

  lemma ClaimWeight(s: Sender, p: nat)
    requires Enabled(s, Claim(p))
    ensures var t := Apply(s, Claim(p));
      Weight(t.pumps[p]) + 4 * (|t.retry| - t.next) < Weight(s.pumps[p]) + 4 * (|s.retry| - s.next)
  {
    MoveClaim(s, p, 0);
    assert |ClaimedBatch(s)| == Retries(s) + Fresh(s);
  }

  /** Every step that is not a yield uses up potential. */
  lemma StepDecreases(s: Sender, e: Event)
    requires Inv(s) && Enabled(s, e)
    ensures 0 <= Potential(Apply(s, e)) < Potential(s)
  {
    StepSizes(s, e);
    StepWeight(s, e);
    WeightsUpdate(s.pumps, e.p, Apply(s, e).pumps[e.p]);
  }

  lemma {:induction false} RunLength(s: Sender, es: seq<Event>)
    requires Inv(s) && Legal(s, es)
    ensures |es| <= Potential(s)
    decreases |es|
  {
    if es != [] {
      StepDecreases(s, es[0]);
      StepInv(s, es[0]);
      RunLength(Apply(s, es[0]), es[1..]);
    }
  }

  lemma {:induction false} DormantWeights(n: nat)
    ensures Weights(seq(n, i => Dormant)) == 204 * n
  {
    if n > 0 {
      assert seq(n, i => Dormant)[1..] == seq(n - 1, i => Dormant);
      DormantWeights(n - 1);
    }
  }

  /** However pumps fail and hand work back, a transfer has at most 204 steps a pump plus 4 a chunk. */
  lemma EveryRunIsShort(size: nat, kinds: seq<Kind>, es: seq<Event>)
    requires Legal(Init(size, kinds), es)
    ensures |es| <= 204 * |kinds| + 4 * Count(size, CHUNK)
  {
    InitInv(size, kinds);
    RunLength(Init(size, kinds), es);
    DormantWeights(|kinds|);
  }

  ghost predicate Quiescent(s: Sender) {
    forall p :: 0 <= p < |s.pumps| ==> s.pumps[p].Dormant? || s.pumps[p].Exited?
  }

  /** A launched pump that has not exited always has a step of its own that is not a failure. */
  function NextStep(s: Sender, p: nat): (e: Event)
    requires p < |s.pumps| == |s.kinds| && !s.pumps[p].Exited?
    requires s.pumps[p].Sending? ==> s.pumps[p].at <= |s.pumps[p].batch|
    ensures Enabled(s, e) && e.p == p && Smooth(e) == !s.pumps[p].Failing?
  {
    match s.pumps[p]
    case Dormant => Start(p)
    case Looping => if s.MoreWork() then Claim(p) else Quit(p)
    case Reading(_) => ReadDone(p)
    case Sending(batch, at) => if at < |batch| then Send(p) else BatchEnd(p, true)
    case Failing(_) => HandBack(p)
  }

  predicate Smooth(e: Event) {
    !e.Fail? && !e.Detect? && !e.HandBack? && (e.BatchEnd? ==> e.open)
  }

  /** At rest nothing is in flight, so what is missing is exactly what the counters still show. */
  lemma AtRest(s: Sender)
    requires Inv(s) && Quiescent(s)
    ensures s.AllSent() <==> !s.MoreWork()
    ensures |s.sent| + |s.retry| == s.next
  {
    NothingHeld(s.pumps, 0);
  }

  /**
   Everywhere, not only at rest: all is sent iff the work test is false and no pump holds anything. So a
   pump that is parked for good with a batch in its hands keeps a transfer from completing.
   */
  lemma Standstill(size: nat, kinds: seq<Kind>, es: seq<Event>)
    requires Legal(Init(size, kinds), es)
    ensures var s := Exec(Init(size, kinds), es);
      s.AllSent() <==> !s.MoreWork() && HeldSize(s.pumps) == 0
  {
    Reached(size, kinds, es);
  }

  /**
   How the last pump leaves decides: with it gone, all is sent iff it left at the work test, or after a
   whole batch over a channel that had closed when no other work was left.
   */
  lemma LastLeaver(size: nat, kinds: seq<Kind>, es: seq<Event>, e: Event)
    requires Legal(Init(size, kinds), es) && Enabled(Exec(Init(size, kinds), es), e)
    requires Quiescent(Apply(Exec(Init(size, kinds), es), e))
    ensures var s := Exec(Init(size, kinds), es);
      Apply(s, e).AllSent() <==> e.Quit? || (e.BatchEnd? && !s.MoreWork())
  {
    var s := Exec(Init(size, kinds), es);
    Reached(size, kinds, es);
    StepInv(s, e);
    AtRest(Apply(s, e));
    assert WellFormed(s.pumps[e.p]);
    assert Apply(s, e).pumps[e.p].Dormant? || Apply(s, e).pumps[e.p].Exited?;
    assert e.Fail? ==> 0 < |s.pumps[e.p].batch[s.pumps[e.p].at..]|;
  }

  /** If the last pump to leave leaves for want of work, everything has been sent, whatever failed before. */
  lemma LastQuitCompletes(size: nat, kinds: seq<Kind>, es: seq<Event>, p: nat)
    requires Legal(Init(size, kinds), es) && Enabled(Exec(Init(size, kinds), es), Quit(p))
    requires Quiescent(Apply(Exec(Init(size, kinds), es), Quit(p)))
    ensures Exec(Init(size, kinds), es).AllSent()
  {
    LastLeaver(size, kinds, es, Quit(p));
  }

  /** Pumps that never fail leave nothing in the retry queue and exit only after the last claim. */
  ghost predicate Untroubled(s: Sender) {
    && s.retry == []
    && forall p :: 0 <= p < |s.pumps| ==> !s.pumps[p].Failing? && (s.pumps[p].Exited? ==> s.next == s.total)
  }

  lemma {:induction false} SmoothRun(s: Sender, es: seq<Event>)
    requires Inv(s) && Untroubled(s) && Legal(s, es)
    requires forall k :: 0 <= k < |es| ==> Smooth(es[k])
    ensures Untroubled(Exec(s, es))
    decreases |es|
  {
    if es != [] {
      assert Smooth(es[0]);
      StepInv(s, es[0]);
      SmoothRun(Apply(s, es[0]), es[1..]);
    }
  }

  /** A failure-free run that has come to rest after any pump ran has sent every chunk. */
  lemma FailureFreeCompletes(size: nat, kinds: seq<Kind>, es: seq<Event>, p: nat)
    requires Legal(Init(size, kinds), es)
    requires forall k :: 0 <= k < |es| ==> Smooth(es[k])
    requires var s := Exec(Init(size, kinds), es); Quiescent(s) && p < |s.pumps| && s.pumps[p].Exited?
    ensures Exec(Init(size, kinds), es).AllSent()
  {
    Reached(size, kinds, es);
    InitInv(size, kinds);
    SmoothRun(Init(size, kinds), es);
    AtRest(Exec(Init(size, kinds), es));
  }

  /** The steps by which a pump leaves. */
  predicate Leaves(e: Event) { e.Quit? || e.Fail? || e.HandBack? || (e.BatchEnd? && !e.open) }

  lemma {:induction false} StaysOut(s: Sender, p: nat, es: seq<Event>, k: nat)
    requires Legal(s, es) && p < |s.pumps| && s.pumps[p].Exited? && k < |es|
    ensures es[k].p != p
    decreases |es|
  {
    assert es[0].p != p;
    if k > 0 {
      StaysOut(Apply(s, es[0]), p, es[1..], k - 1);
    }
  }

  /** A pump that has left takes no further step: not after its work is done, nor after its socket failed or closed. */
  lemma {:induction false} GoneForGood(s: Sender, es: seq<Event>, j: nat, k: nat)
    requires Legal(s, es) && j < k < |es| && Leaves(es[j])
    ensures es[k].p != es[j].p
    decreases |es|
  {
    if j == 0 {
      StaysOut(Apply(s, es[0]), es[0].p, es[1..], k - 1);
    } else {
      GoneForGood(Apply(s, es[0]), es[1..], j - 1, k - 1);
    }
  }

  // ---------------------------------------------------------------- stall and recovery

  /** A one-chunk transfer over two relay pumps, nothing sent yet. */
  function TwoPumps(next: nat, retry: seq<nat>, a: Phase, b: Phase): Sender {
    Sender(1, 1, [Relay, Relay], next, retry, [], 0, 0, false, 0, [a, b])
  }

  lemma FirstStarts(s: Sender)
    requires s == Init(1, [Relay, Relay])
    ensures Enabled(s, Start(0)) && Apply(s, Start(0)) == TwoPumps(0, [], Looping, Dormant)
  {
    assert s.pumps == [Dormant, Dormant];
    assert s.pumps[0 := Looping] == [Looping, Dormant];
  }

  lemma FirstClaims(s: Sender)
    requires s == TwoPumps(0, [], Looping, Dormant)
    ensures Enabled(s, Claim(0)) && Apply(s, Claim(0)) == TwoPumps(1, [], Reading([0]), Dormant)
  {
    assert Retries(s) == 0 && Fresh(s) == 1;
    assert Range(0, 1) == [0];
    assert ClaimedBatch(s) == [0];
    assert s.retry[0..] == [];
    assert s.pumps[0 := Reading([0])] == [Reading([0]), Dormant];
  }

  lemma SecondStarts(s: Sender)
    requires s == TwoPumps(1, [], Reading([0]), Dormant)
    ensures Enabled(s, Start(1)) && Apply(s, Start(1)) == TwoPumps(1, [], Reading([0]), Looping)
  {
    assert s.pumps[1 := Looping] == [Reading([0]), Looping];
  }

  lemma SecondLeaves(s: Sender)
    requires s == TwoPumps(1, [], Reading([0]), Looping)
    ensures Enabled(s, Quit(1)) && Apply(s, Quit(1)) == TwoPumps(1, [], Reading([0]), Exited)
  {
    assert s.pumps[1 := Exited] == [Reading([0]), Exited];
  }

  lemma FirstReads(s: Sender)
    requires s == TwoPumps(1, [], Reading([0]), Exited)
    ensures Enabled(s, ReadDone(0)) && Apply(s, ReadDone(0)) == TwoPumps(1, [], Sending([0], 0), Exited)
  {
    assert s.pumps[0 := Sending([0], 0)] == [Sending([0], 0), Exited];
  }

  lemma FirstFails(s: Sender)
    requires s == TwoPumps(1, [], Sending([0], 0), Exited)
    ensures Enabled(s, Fail(0)) && Apply(s, Fail(0)) == TwoPumps(1, [0], Exited, Exited)
  {
    assert [0][0..] == [0] && [] + [0] == [0];
    assert s.pumps[0 := Exited] == [Exited, Exited];
  }

  /**
   Completion is not guaranteed: with one chunk and two relay pumps, the second may start and leave for
   want of work while the first still holds the chunk, and then the first may fail.
   */
  lemma StallExample() returns (es: seq<Event>)
    ensures es == [Start(0), Claim(0), Start(1), Quit(1), ReadDone(0), Fail(0)]
    ensures Legal(Init(1, [Relay, Relay]), es)
    ensures Exec(Init(1, [Relay, Relay]), es) == TwoPumps(1, [0], Exited, Exited)
    ensures Quiescent(TwoPumps(1, [0], Exited, Exited)) && !TwoPumps(1, [0], Exited, Exited).AllSent()
  {
    es := StallFromClaim(TwoPumps(1, [], Reading([0]), Dormant));
    FirstClaims(TwoPumps(0, [], Looping, Dormant));
    es := Then(TwoPumps(0, [], Looping, Dormant), Claim(0), es);
    FirstStarts(Init(1, [Relay, Relay]));
    es := Then(Init(1, [Relay, Relay]), Start(0), es);
  }

  lemma StallFromClaim(s: Sender) returns (es: seq<Event>)
    requires s == TwoPumps(1, [], Reading([0]), Dormant)
    ensures es == [Start(1), Quit(1), ReadDone(0), Fail(0)]
    ensures Legal(s, es) && Exec(s, es) == TwoPumps(1, [0], Exited, Exited)
  {
    FirstFails(TwoPumps(1, [], Sending([0], 0), Exited));
    es := Then(TwoPumps(1, [], Sending([0], 0), Exited), Fail(0), []);
    FirstReads(TwoPumps(1, [], Reading([0]), Exited));
    es := Then(TwoPumps(1, [], Reading([0]), Exited), ReadDone(0), es);
    SecondLeaves(TwoPumps(1, [], Reading([0]), Looping));
    es := Then(TwoPumps(1, [], Reading([0]), Looping), Quit(1), es);
    SecondStarts(s);
    es := Then(s, Start(1), es);
  }

  /** One chunk, a data channel and a relay socket, nothing sent yet. */
  function ParkedPair(next: nat, a: Phase, b: Phase): Sender {
    Sender(1, 1, [P2P, Relay], next, [], [], 0, 0, false, 0, [a, b])
  }

  lemma ChannelStarts(s: Sender)
    requires s == Init(1, [P2P, Relay])
    ensures Enabled(s, Start(0)) && Apply(s, Start(0)) == ParkedPair(0, Looping, Dormant)
  {
    assert s.pumps == [Dormant, Dormant];
    assert s.pumps[0 := Looping] == [Looping, Dormant];
  }

  lemma ChannelClaims(s: Sender)
    requires s == ParkedPair(0, Looping, Dormant)
    ensures Enabled(s, Claim(0)) && Apply(s, Claim(0)) == ParkedPair(1, Reading([0]), Dormant)
  {
    assert Retries(s) == 0 && Fresh(s) == 1;
    assert Range(0, 1) == [0];
    assert ClaimedBatch(s) == [0];
    assert s.retry[0..] == [];
    assert s.pumps[0 := Reading([0])] == [Reading([0]), Dormant];
  }

  lemma ChannelReads(s: Sender)
    requires s == ParkedPair(1, Reading([0]), Dormant)
    ensures Enabled(s, ReadDone(0)) && Apply(s, ReadDone(0)) == ParkedPair(1, Sending([0], 0), Dormant)
  {
    assert s.pumps[0 := Sending([0], 0)] == [Sending([0], 0), Dormant];
  }

  lemma SocketStarts(s: Sender)
    requires s == ParkedPair(1, Sending([0], 0), Dormant)
    ensures Enabled(s, Start(1)) && Apply(s, Start(1)) == ParkedPair(1, Sending([0], 0), Looping)
  {
    assert s.pumps[1 := Looping] == [Sending([0], 0), Looping];
  }

  lemma SocketLeaves(s: Sender)
    requires s == ParkedPair(1, Sending([0], 0), Looping)
    ensures Enabled(s, Quit(1)) && Apply(s, Quit(1)) == ParkedPair(1, Sending([0], 0), Exited)
  {
    assert s.pumps[1 := Exited] == [Sending([0], 0), Exited];
  }

  /**
   A second stall: a data channel is full when its pump is about to send, so the pump parks on the
   low-buffer callback; a relay pump finds no work and leaves. From there only the parked pump could
   move. If its channel dies now, nothing calls it back, and the chunk it holds is never requeued.
   */
  lemma ParkedExample() returns (es: seq<Event>)
    ensures es == [Start(0), Claim(0), ReadDone(0), Start(1), Quit(1)]
    ensures Legal(Init(1, [P2P, Relay]), es)
    ensures var t := Exec(Init(1, [P2P, Relay]), es);
      && t == ParkedPair(1, Sending([0], 0), Exited)
      && !t.AllSent() && !t.MoreWork() && forall e :: Enabled(t, e) ==> e.p == 0
  {
    SocketLeaves(ParkedPair(1, Sending([0], 0), Looping));
    es := Then(ParkedPair(1, Sending([0], 0), Looping), Quit(1), []);
    SocketStarts(ParkedPair(1, Sending([0], 0), Dormant));
    es := Then(ParkedPair(1, Sending([0], 0), Dormant), Start(1), es);
    ChannelReads(ParkedPair(1, Reading([0]), Dormant));
    es := Then(ParkedPair(1, Reading([0]), Dormant), ReadDone(0), es);
    ChannelClaims(ParkedPair(0, Looping, Dormant));
    es := Then(ParkedPair(0, Looping, Dormant), Claim(0), es);
    ChannelStarts(Init(1, [P2P, Relay]));
    es := Then(Init(1, [P2P, Relay]), Start(0), es);
    OnlyParked(ParkedPair(1, Sending([0], 0), Exited));
  }

  lemma OnlyParked(t: Sender)
    requires t == ParkedPair(1, Sending([0], 0), Exited)
    ensures forall e :: Enabled(t, e) ==> e.p == 0
  {
    forall e | Enabled(t, e) ensures e.p == 0 {
      assert t.pumps[1] == Exited;
    }
  }

  lemma Then(s: Sender, e: Event, rest: seq<Event>) returns (es: seq<Event>)
    requires Enabled(s, e) && Legal(Apply(s, e), rest)
    ensures es == [e] + rest && Legal(s, es) && Exec(s, es) == Exec(Apply(s, e), rest)
  {
    es := [e] + rest;
    assert es[1..] == rest;
  }

  ghost predicate OthersAtRest(s: Sender, p: nat) {
    forall q :: 0 <= q < |s.pumps| && q != p ==> s.pumps[q].Dormant? || s.pumps[q].Exited?
  }

  /** Steps of pump p alone, none of them a failure. */
  ghost predicate OnlySmooth(p: nat, es: seq<Event>) {
    forall k :: 0 <= k < |es| ==> es[k].p == p && Smooth(es[k])
  }

  ghost predicate OthersSame(s: Sender, t: Sender, p: nat) {
    |t.pumps| == |s.pumps| && forall q :: 0 <= q < |s.pumps| && q != p ==> t.pumps[q] == s.pumps[q]
  }

  /** Nothing is queued or unclaimed: everything has been sent but for what pumps still hold. */
  ghost predicate Served(t: Sender) {
    !t.MoreWork() && |t.sent| + HeldSize(t.pumps) == t.total
  }

  /** One step of such a pump: either it leaves, and then all has been served, or it is still on its way. */
  lemma AloneStep(s: Sender, p: nat, e: Event)
    requires Inv(s) && p < |s.pumps| && !s.pumps[p].Failing?
    requires Enabled(s, e) && e.p == p && Smooth(e)
    ensures var t := Apply(s, e);
      && Inv(t) && OthersSame(s, t, p) && !t.pumps[p].Failing?
      && Potential(t) < Potential(s)
      && (t.pumps[p].Exited? && !s.pumps[p].Exited? ==> Served(t))
  {
    StepInv(s, e);
    StepDecreases(s, e);
  }

  /** If nobody else holds anything, what has been served has been sent. */
  lemma ServedAtRest(s: Sender, t: Sender, p: nat)
    requires Inv(t) && Served(t) && p < |t.pumps| && t.pumps[p].Exited? && OthersSame(s, t, p)
    ensures OthersAtRest(s, p) ==> t.AllSent() && Quiescent(t)
  {
    if OthersAtRest(s, p) {
      assert Quiescent(t);
      AtRest(t);
    }
  }

  /**
   Recovery: whatever the other pumps hold, parked or not, every run of one pump that meets no failure is
   finite, can go on until the pump leaves, and has then sent everything that the others do not hold. If
   they are at rest, that is everything.
   */
  lemma {:induction false} Recovery(s: Sender, p: nat, es: seq<Event>)
    requires Inv(s) && p < |s.pumps| && !s.pumps[p].Exited? && !s.pumps[p].Failing?
    requires Legal(s, es) && OnlySmooth(p, es)
    ensures |es| <= Potential(s)
    ensures var t := Exec(s, es);
      && OthersSame(s, t, p)
      && if t.pumps[p].Exited? then Served(t) && (OthersAtRest(s, p) ==> t.AllSent() && Quiescent(t))
         else exists e :: Enabled(t, e) && e.p == p && Smooth(e)
    decreases |es|
  {
    if es == [] {
      assert WellFormed(s.pumps[p]);
      assert Enabled(s, NextStep(s, p)) && Smooth(NextStep(s, p));
    } else {
      var t := Apply(s, es[0]);
      AloneStep(s, p, es[0]);
      if t.pumps[p].Exited? {
        NothingAfterExit(t, p, es[1..]);
        ServedAtRest(s, t, p);
      } else {
        Recovery(t, p, es[1..]);
      }
    }
  }

  lemma NothingAfterExit(t: Sender, p: nat, es: seq<Event>)
    requires p < |t.pumps| && t.pumps[p].Exited? && Legal(t, es) && OnlySmooth(p, es)
    ensures es == []
  {
    if es != [] {
      assert false;
    }
  }

  /** Such a run to the end exists. */
  lemma {:induction false} CompletingRun(s: Sender, p: nat) returns (es: seq<Event>)
    requires Inv(s) && p < |s.pumps| && !s.pumps[p].Exited? && !s.pumps[p].Failing?
    ensures Legal(s, es) && OnlySmooth(p, es) && OthersSame(s, Exec(s, es), p)
    ensures Exec(s, es).pumps[p].Exited? && Served(Exec(s, es))
    ensures OthersAtRest(s, p) ==> Exec(s, es).AllSent() && Quiescent(Exec(s, es))
    decreases Potential(s)
  {
    var e := NextStep(s, p);
    var t := Apply(s, e);
    AloneStep(s, p, e);
    if t.pumps[p].Exited? {
      es := Then(s, e, []);
      ServedAtRest(s, t, p);
    } else {
      var rest := CompletingRun(t, p);
      es := Then(s, e, rest);
    }
  }

  /** One more stream becomes ready. */
  function AddStream(s: Sender, kind: Kind): Sender {
    s.(kinds := s.kinds + [kind], pumps := s.pumps + [Dormant])
  }

  lemma {:induction false} HeldAppend(pumps: seq<Phase>, i: nat)
    ensures HeldTimes(pumps + [Dormant], i) == HeldTimes(pumps, i)
    ensures HeldSize(pumps + [Dormant]) == HeldSize(pumps)
  {
    if pumps != [] {
      assert (pumps + [Dormant])[1..] == pumps[1..] + [Dormant];
      HeldAppend(pumps[1..], i);
    }
  }

  lemma AddStreamInv(s: Sender, kind: Kind)
    requires Inv(s)
    ensures Inv(AddStream(s, kind))
  {
    var t := AddStream(s, kind);
    HeldAppend(s.pumps, 0);
    forall i: nat ensures Copies(t, i) == if i < t.next then 1 else 0 {
      HeldAppend(s.pumps, i);
      assert Copies(s, i) == if i < s.next then 1 else 0;
    }
  }

  /**
   Wherever a run has got to, a new stream that does not fail serves all that the other pumps do not hold:
   each of its runs is finite, can go on until its pump leaves, and then only what parked pumps hold is
   unsent. A run that had come to rest, however it stalled, is thereby completed.
   */
  lemma {:induction false} NewStreamCompletes(size: nat, kinds: seq<Kind>, es: seq<Event>, kind: Kind, more: seq<Event>)
    requires Legal(Init(size, kinds), es)
    requires Legal(AddStream(Exec(Init(size, kinds), es), kind), more) && OnlySmooth(|kinds|, more)
    ensures var was := Exec(Init(size, kinds), es); var s := AddStream(was, kind); var t := Exec(s, more);
      && |more| <= Potential(s)
      && |s.pumps| == |kinds| + 1 && OthersSame(s, t, |kinds|)
      && if t.pumps[|kinds|].Exited? then Served(t) && (Quiescent(was) ==> t.AllSent() && Quiescent(t))
         else exists e :: Enabled(t, e) && e.p == |kinds| && Smooth(e)
  {
    Reached(size, kinds, es);
    var s := AddStream(Exec(Init(size, kinds), es), kind);
    AddStreamInv(Exec(Init(size, kinds), es), kind);
    Recovery(s, |kinds|, more);
  }
}

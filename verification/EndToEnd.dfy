/**
 Sender, network and receiver together. Whatever a socket has accepted may arrive at any time, any
 number of times, in any order, or never; pumps fail and start late; the download may not exist yet.
 */
module EndToEnd {
  import opened Bytes
  import opened Chunking
  import opened Frames
  import P = PumpProtocol
  import R = ReceiverProtocol
  import W = ServiceWorker

  datatype System = System(sender: P.Sender, receiver: R.Receiver)

  datatype Event =
    | Pump(e: P.Event)
    | Arrive(k: nat)       // the k-th frame handed to any socket arrives (again)
    | Info                 // the file info arrives
    | Prepared(mode: R.Mode)

  function Init(file: Octets, kinds: seq<P.Kind>): System {
    System(P.Init(|file|, kinds), R.INITIAL)
  }

  predicate Enabled(file: Octets, s: System, e: Event) {
    match e
    case Pump(pe) => P.Enabled(s.sender, pe)
    case Arrive(k) => k < |s.sender.sent|
    case Info => true
    case Prepared(mode) => R.Enabled(file, s.receiver, R.Prepared(mode))
  }

  function Apply(file: Octets, s: System, e: Event): System
    requires Enabled(file, s, e)
  {
    match e
    case Pump(pe) => s.(sender := P.Apply(s.sender, pe))
    case Arrive(k) => s.(receiver := R.Deliver(s.receiver, Frame(file, s.sender.sent[k])))
    case Info => s.(receiver := R.OnInfo(s.receiver, s.sender.total))
    case Prepared(mode) => s.(receiver := R.OnPrepared(s.receiver, mode))
  }

  predicate Legal(file: Octets, s: System, es: seq<Event>)
    decreases |es|
  {
    es == [] || (Enabled(file, s, es[0]) && Legal(file, Apply(file, s, es[0]), es[1..]))
  }

  function Exec(file: Octets, s: System, es: seq<Event>): System
    requires Legal(file, s, es)
    decreases |es|
  {
    if es == [] then s else Exec(file, Apply(file, s, es[0]), es[1..])
  }

  /** Both ends keep their invariants, and only chunks that were sent have arrived. */
  ghost predicate Inv(file: Octets, got: set<nat>, s: System) {
    && P.Inv(s.sender) && s.sender.size == |file|
    && R.Inv(file, got, s.receiver)
    && forall i :: i in got ==> i in s.sender.sent
  }

  lemma StepInv(file: Octets, got: set<nat>, s: System, e: Event)
    requires Inv(file, got, s) && Enabled(file, s, e) && |file| <= MAX_INDEX_COUNT * CHUNK
    ensures Inv(file, if e.Arrive? then got + {s.sender.sent[e.k]} else got, Apply(file, s, e))
  {
    match e
    case Pump(pe) => P.StepInv(s.sender, pe);
    case Arrive(k) =>
      SentInRange(s.sender, k);
      R.ArrivalInv(file, got, s.receiver, s.sender.sent[k]);
    case Info => R.StepInv(file, got, s.receiver, R.Info);
    case Prepared(mode) => R.StepInv(file, got, s.receiver, R.Prepared(mode));
  }

  lemma SentInRange(s: P.Sender, k: nat)
    requires P.Inv(s) && k < |s.sent|
    ensures s.sent[k] < s.total
  {
    TimesIn(s.sent, s.sent[k]);
    assert P.Copies(s, s.sent[k]) >= 1;
  }

  lemma {:induction false} RunInv(file: Octets, got: set<nat>, s: System, es: seq<Event>) returns (final: set<nat>)
    requires Inv(file, got, s) && Legal(file, s, es) && |file| <= MAX_INDEX_COUNT * CHUNK
    ensures Inv(file, final, Exec(file, s, es))
    decreases |es|
  {
    if es == [] {
      final := got;
    } else {
      StepInv(file, got, s, es[0]);
      var got1 := if es[0].Arrive? then got + {s.sender.sent[es[0].k]} else got;
      final := RunInv(file, got1, Apply(file, s, es[0]), es[1..]);
    }
  }

  lemma Reached(file: Octets, kinds: seq<P.Kind>, es: seq<Event>) returns (got: set<nat>)
    requires Legal(file, Init(file, kinds), es) && |file| <= MAX_INDEX_COUNT * CHUNK
    ensures Inv(file, got, Exec(file, Init(file, kinds), es))
  {
    P.InitInv(|file|, kinds);
    R.EmptySnapshot(file);
    got := RunInv(file, {}, Init(file, kinds), es);
  }

  /**
   Prefix safety, end to end: in every reachable state what has been written is the file's prefix up
   to the write index, and no chunk has been received that was not sent.
   */
  lemma PrefixSafety(file: Octets, kinds: seq<P.Kind>, es: seq<Event>)
    requires Legal(file, Init(file, kinds), es) && |file| <= MAX_INDEX_COUNT * CHUNK
    ensures var s := Exec(file, Init(file, kinds), es); var c := s.receiver.core;
      && Flatten(c.written) == file[..Min(c.nextWrite * CHUNK, |file|)]
      && c.received == c.nextWrite + |c.pending| <= s.sender.sentChunks
      && forall i :: i in c.pending ==> i in s.sender.sent && c.nextWrite < i
  {
    var got := Reached(file, kinds, es);
    var s := Exec(file, Init(file, kinds), es);
    Reassembly(file, CHUNK, s.receiver.core.nextWrite);
    R.Balance(file, got, s.receiver.core);
    SetFitsSeq(got, s.sender.sent);
  }

  lemma {:induction false} SetFitsSeq(got: set<nat>, sent: seq<nat>)
    requires forall i :: i in got ==> i in sent
    ensures |got| <= |sent|
  {
    if sent == [] {
      assert got == {};
    } else {
      forall i | i in got - {sent[0]} ensures i in sent[1..] {
      }
      SetFitsSeq(got - {sent[0]}, sent[1..]);
      assert |got| <= |got - {sent[0]}| + 1;
    }
  }

  /**
   Agreement at the end: when the receiver finishes, it has written exactly the file, the sender has
   announced completion, and both ends have counted the file's size.
   */
  lemma FinishAgrees(file: Octets, kinds: seq<P.Kind>, es: seq<Event>)
    requires Legal(file, Init(file, kinds), es) && |file| <= MAX_INDEX_COUNT * CHUNK
    ensures var s := Exec(file, Init(file, kinds), es);
      && s.receiver.finishes <= 1
      && (s.receiver.finishes == 1 ==>
           && Flatten(s.receiver.core.written) == file
           && s.sender.completeFired
           && s.sender.bytes == s.receiver.core.bytes == |file|)
  {
    var got := Reached(file, kinds, es);
    var s := Exec(file, Init(file, kinds), es);
    var n := Count(|file|, CHUNK);
    R.Balance(file, got, s.receiver.core);
    if s.receiver.finishes == 1 {
      FullSet(got, n);
      WholeFile(file, CHUNK);
      LastOffset(|file|, CHUNK);
      PayloadAll(|file|, CHUNK, n, got);
      PayloadAll(|file|, CHUNK, n, SetOf(s.sender.sent));
      SetFitsSeq(got, s.sender.sent);
    }
  }

  /**
   Progress to the end: once every sent frame of a completed sender has arrived, the receiver has
   finished, unless the file info came too late to notice.
   */
  lemma CompleteAndDelivered(file: Octets, kinds: seq<P.Kind>, es: seq<Event>)
    requires Legal(file, Init(file, kinds), es) && |file| <= MAX_INDEX_COUNT * CHUNK
    requires var s := Exec(file, Init(file, kinds), es);
      s.sender.completeFired && s.receiver.core.received == s.sender.sentChunks && s.receiver.dl.Some?
    ensures var s := Exec(file, Init(file, kinds), es);
      s.receiver.finishes == if s.receiver.atInfo < s.sender.total then 1 else 0
  {
    var got := Reached(file, kinds, es);
  }

  /** The service-worker events that a download's posted messages cause. */
  function PostsOf(id: W.Id, ms: seq<R.Message>): (r: seq<W.Post>)
    ensures |r| == |ms|
  {
    seq(|ms|, k requires 0 <= k < |ms| => if ms[k].Data? then W.Chunk(id, ms[k].data) else W.Close(id))
  }

  /**
   The streamed download, from the file on the sending side to the bytes the browser saves. Wherever the
   browser's fetch fell, its stream holds the file from the first chunk on that was written after the
   download could stream, and is closed once. So it has the length its Content-Length declares iff no
   chunk had been written before.
   */
  lemma StreamedDownload(file: Octets, kinds: seq<P.Kind>, es: seq<Event>,
                         w: W.Worker, id: W.Id, k: nat, ps: seq<W.Post>)
    requires Legal(file, Init(file, kinds), es) && |file| <= MAX_INDEX_COUNT * CHUNK
    requires var r := Exec(file, Init(file, kinds), es).receiver;
      r.finishes == 1 && r.dl.Some? && r.dl.value.blobs == [] && k <= |r.dl.value.posted|
    requires var posts := PostsOf(id, Exec(file, Init(file, kinds), es).receiver.dl.value.posted);
      W.Only(id, ps) == [W.Register(id, |file|)] + posts[..k] + [W.Fetch(id)] + posts[k..]
    ensures var l, skipped := W.At(W.Run(w, ps), id), Exec(file, Init(file, kinds), es).receiver.skipped;
      && l.entry.None? && l.ended.Some? && l.ended.value.controller.Some?
      && l.ended.value.controller.value.closes == 1
      && Flatten(l.ended.value.controller.value.enqueued) == file[Offset(|file|, CHUNK, skipped)..]
      && (|Flatten(l.ended.value.controller.value.enqueued)| == l.ended.value.size <==> skipped == 0)
  {
    var got := Reached(file, kinds, es);
    var r := Exec(file, Init(file, kinds), es).receiver;
    R.Balance(file, got, r.core);
    var data := R.Mine(file, r);
    R.Remainder(file, Count(|file|, CHUNK), r.skipped);
    Shortfall(file, r.skipped);
    var posted := r.dl.value.posted;
    assert posted == R.DataMessages(data) + [R.Close];
    assert PostsOf(id, posted) == W.Posts(id, data);
    W.FetchTimeIndependence(w, id, |file|, data, k, ps);
  }

  lemma Shortfall(file: Octets, k: nat)
    ensures Count(|file|, CHUNK) > 0 ==> (|file[Offset(|file|, CHUNK, k)..]| == |file| <==> k == 0)
  {
    InRange(|file|, CHUNK, 0);
    if k > 0 {
      OffsetMonotone(|file|, CHUNK, 1, k);
    }
  }

  // ---------------------------------------------------------------- a download that streams

  lemma {:induction false} ExecConcat(file: Octets, s: System, a: seq<Event>, b: seq<Event>)
    requires Legal(file, s, a) && Legal(file, Exec(file, s, a), b)
    ensures Legal(file, s, a + b) && Exec(file, s, a + b) == Exec(file, Exec(file, s, a), b)
    decreases |a|
  {
    if a == [] {
      assert a + b == b;
    } else {
      assert (a + b)[1..] == a[1..] + b;
      ExecConcat(file, Apply(file, s, a[0]), a[1..], b);
    }
  }

  function Pumps(es: seq<P.Event>): (r: seq<Event>)
    ensures |r| == |es|
  {
    seq(|es|, k requires 0 <= k < |es| => Pump(es[k]))
  }

  /** A run of the pumps alone is a run of the whole system. */
  lemma {:induction false} PumpsRun(file: Octets, s: System, es: seq<P.Event>)
    requires P.Legal(s.sender, es)
    ensures Legal(file, s, Pumps(es)) && Exec(file, s, Pumps(es)) == s.(sender := P.Exec(s.sender, es))
    decreases |es|
  {
    if es != [] {
      assert Pumps(es)[1..] == Pumps(es[1..]);
      PumpsRun(file, s.(sender := P.Apply(s.sender, es[0])), es[1..]);
    }
  }

  /** Once chunk 0 has been sent, the network may deliver it after the info and the switch to the service worker. */
  lemma Delivered(file: Octets, s: System, es: seq<Event>)
    requires s.receiver == R.INITIAL && s.sender.sent == [0] && s.sender.total == Count(|file|, CHUNK) == 1
    requires es == [Info, Prepared(R.Sw), Arrive(0)]
    ensures var rs := [R.Info, R.Prepared(R.Sw), R.Arrival(0)];
      && Legal(file, s, es) && R.Legal(file, R.INITIAL, rs)
      && Exec(file, s, es).receiver == R.Exec(file, R.INITIAL, rs)
  {
    var rs := [R.Info, R.Prepared(R.Sw), R.Arrival(0)];
    var s1 := Apply(file, s, Info);
    var s2 := Apply(file, s1, Prepared(R.Sw));
    var s3 := Apply(file, s2, Arrive(0));
    assert es[1..] == [Prepared(R.Sw), Arrive(0)] && es[1..][1..] == [Arrive(0)] && [Arrive(0)][1..] == [];
    assert rs[1..] == [R.Prepared(R.Sw), R.Arrival(0)] && rs[1..][1..] == [R.Arrival(0)] && [R.Arrival(0)][1..] == [];
    assert Exec(file, s2, [Arrive(0)]) == s3;
    assert Legal(file, s2, [Arrive(0)]);
    assert Exec(file, s1, [Prepared(R.Sw), Arrive(0)]) == s3;
  }

  /**
   The whole way, for every one-chunk file: one pump sends it, the download is prepared in time, and the
   browser's fetch, here between the registration and the first chunk, yields exactly the file.
   */
  lemma StreamedFromEndToEnd(file: Octets, w: W.Worker, id: W.Id) returns (es: seq<Event>)
    requires 0 < |file| <= CHUNK
    ensures Legal(file, Init(file, [P.Relay]), es)
    ensures var s := Exec(file, Init(file, [P.Relay]), es);
      && s.sender.completeFired && s.receiver.finishes == 1 && s.receiver.dl.Some?
      && s.receiver.dl.value.posted == [R.Data(file), R.Close]
    ensures var l := W.At(W.Run(w, [W.Register(id, |file|), W.Fetch(id), W.Chunk(id, file), W.Close(id)]), id);
      l.entry.None? && l.ended.Some? && l.ended.value.controller == Some(W.Stream([file], W.Closed, 1))
  {
    R.ExactCount(file, 1);
    P.InitInv(|file|, [P.Relay]);
    var pumps := P.CompletingRun(P.Init(|file|, [P.Relay]), 0);
    var t := P.Exec(P.Init(|file|, [P.Relay]), pumps);
    P.Reached(|file|, [P.Relay], pumps);
    SentOne(t);
    PumpsRun(file, Init(file, [P.Relay]), pumps);
    var rest := [Info, Prepared(R.Sw), Arrive(0)];
    Delivered(file, System(t, R.INITIAL), rest);
    R.StreamedExample(file, [R.Info, R.Prepared(R.Sw), R.Arrival(0)]);
    ExecConcat(file, Init(file, [P.Relay]), Pumps(pumps), rest);
    es := Pumps(pumps) + rest;
    FinishAgrees(file, [P.Relay], es);
    OneChunkStream(w, id, file);
  }

  lemma SentOne(t: P.Sender)
    requires P.Inv(t) && t.AllSent() && t.total == 1
    ensures t.sent == [0]
  {
    P.AllSentExactly(t);
    assert Times(t.sent, 0) == 1;
    TimesIn(t.sent, 0);
  }

  lemma OneChunkStream(w: W.Worker, id: W.Id, file: Octets)
    ensures var l := W.At(W.Run(w, [W.Register(id, |file|), W.Fetch(id), W.Chunk(id, file), W.Close(id)]), id);
      l.entry.None? && l.ended.Some? && l.ended.value.controller == Some(W.Stream([file], W.Closed, 1))
  {
    W.OwnRun(w, id, |file|, [], [file], false);
    assert W.ChunkPosts(id, []) == [] && W.ChunkPosts(id, [file]) == [W.Chunk(id, file)];
    assert W.OwnEvents(id, |file|, [], [file], false)
        == [W.Register(id, |file|), W.Fetch(id), W.Chunk(id, file), W.Close(id)];
    assert [] + [file] == [file];
  }
}

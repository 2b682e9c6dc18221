/**
 The receiving half of the browser engine: duplicates are dropped, chunks that arrive early wait in
 a map, and the file is written strictly in index order into a download that may not exist yet.
 */
module ReceiverProtocol {
  import opened Bytes
  import opened Chunking
  import opened Frames

  // ---------------------------------------------------------------- reordering

  /** The reordering state; `written` records every _writeChunk call. */
  datatype Core = Core(nextWrite: nat, pending: map<nat, Octets>, received: nat, bytes: nat, written: seq<Octets>)

  const EMPTY: Core := Core(0, map[], 0, 0, [])

  function Emit(c: Core, payload: Octets): Core {
    c.(written := c.written + [payload], nextWrite := c.nextWrite + 1)
  }

  function Unstash(c: Core): Core
    requires c.nextWrite in c.pending
  {
    Emit(c.(pending := c.pending - {c.nextWrite}), c.pending[c.nextWrite])
  }

  function Drain(c: Core): Core
    decreases |c.pending|
  {
    if c.nextWrite in c.pending then
      assert |c.pending - {c.nextWrite}| < |c.pending| by { RemoveShrinks(c.pending, c.nextWrite); }
      Drain(Unstash(c))
    else c
  }

  lemma RemoveShrinks<K, V>(m: map<K, V>, k: K)
    requires k in m
    ensures |m - {k}| == |m| - 1
  {
    assert (m - {k}).Keys == m.Keys - {k};
  }

  predicate IsNew(c: Core, i: nat) { i >= c.nextWrite && i !in c.pending }

  function Counted(c: Core, n: nat): Core { c.(received := c.received + 1, bytes := c.bytes + n) }

  /** Write the chunk and all that follow on, or stash it. */
  function Place(c: Core, i: nat, payload: Octets): Core {
    if i == c.nextWrite then Drain(Emit(c, payload)) else c.(pending := c.pending[i := payload])
  }

  /** A chunk that is not a duplicate. */
  function Accept(c: Core, i: nat, payload: Octets): Core { Place(Counted(c, |payload|), i, payload) }

  function Offer(c: Core, i: nat, payload: Octets): Core {
    if IsNew(c, i) then Accept(c, i, payload) else c
  }

  /** What the reordering state must be when exactly the chunks in `got` have arrived, in any order. */
  ghost predicate Snapshot(file: Octets, got: set<nat>, c: Core) {
    && (forall i :: i in got ==> i < Count(|file|, CHUNK))
    && Ordered(file, got, c)
    && c.nextWrite !in got
    && c.received == |got|
    && c.bytes == Payload(|file|, CHUNK, Count(|file|, CHUNK), got)
  }

  ghost predicate Ordered(file: Octets, got: set<nat>, c: Core) {
    && (forall i: nat :: i < c.nextWrite ==> i in got)
    && (forall i :: i in c.pending <==> i in got && i >= c.nextWrite)
    && (forall i :: i in c.pending ==> c.pending[i] == Chunk(file, CHUNK, i))
    && c.written == Chunks(file, CHUNK, c.nextWrite)
  }

  /** One write in order, of a chunk that has just arrived. */
  lemma EmitOrdered(file: Octets, got: set<nat>, c: Core)
    requires Ordered(file, got, c) && c.nextWrite !in got
    ensures Ordered(file, got + {c.nextWrite}, Emit(c, Chunk(file, CHUNK, c.nextWrite)))
  {
    assert Chunks(file, CHUNK, c.nextWrite + 1) == c.written + [Chunk(file, CHUNK, c.nextWrite)];
  }

  /** One write in order, of a chunk that was waiting. */
  lemma UnstashOrdered(file: Octets, got: set<nat>, c: Core)
    requires Ordered(file, got, c) && c.nextWrite in c.pending
    ensures Ordered(file, got, Unstash(c))
  {
    assert Chunks(file, CHUNK, c.nextWrite + 1) == c.written + [Chunk(file, CHUNK, c.nextWrite)];
  }

  lemma {:induction false} DrainOrdered(file: Octets, got: set<nat>, c: Core)
    requires Ordered(file, got, c)
    ensures var d := Drain(c); Ordered(file, got, d) && d.nextWrite !in got
    ensures Drain(c).received == c.received && Drain(c).bytes == c.bytes && c.nextWrite <= Drain(c).nextWrite
    decreases |c.pending|
  {
    if c.nextWrite in c.pending {
      RemoveShrinks(c.pending, c.nextWrite);
      UnstashOrdered(file, got, c);
      DrainOrdered(file, got, Unstash(c));
    }
  }

  /** The chunk the writer is waiting for: write it and all that follow on. */
  lemma InOrder(file: Octets, got: set<nat>, c: Core, i: nat, x: Octets)
    requires Ordered(file, got, c) && i == c.nextWrite && i !in got && x == Chunk(file, CHUNK, i)
    ensures var d := Drain(Emit(c, x));
      && Ordered(file, got + {i}, d) && d.nextWrite !in got + {i}
      && d.received == c.received && d.bytes == c.bytes && i < d.nextWrite
  {
    EmitOrdered(file, got, c);
    DrainOrdered(file, got + {i}, Emit(c, x));
  }

  /** The counters play no part in the order. */
  lemma OrderIgnoresCounts(file: Octets, got: set<nat>, c: Core, n: nat)
    requires Ordered(file, got, c)
    ensures Ordered(file, got, Counted(c, n))
  {
  }

  /** A later chunk: stash it. */
  lemma OutOfOrder(file: Octets, got: set<nat>, c: Core, i: nat)
    requires Ordered(file, got, c) && i > c.nextWrite
    ensures Ordered(file, got + {i}, c.(pending := c.pending[i := Chunk(file, CHUNK, i)]))
  {
  }

  /** A new chunk, once it is in its place, makes the next snapshot. */
  lemma OneMore(file: Octets, got: set<nat>, c: Core, i: nat, d: Core)
    requires Snapshot(file, got, c) && i < Count(|file|, CHUNK) && i !in got
    requires Ordered(file, got + {i}, d) && d.nextWrite !in got + {i}
    requires d.received == c.received + 1 && d.bytes == c.bytes + ChunkLen(|file|, CHUNK, i)
    ensures Snapshot(file, got + {i}, d)
  {
    PayloadAdd(|file|, CHUNK, Count(|file|, CHUNK), got, i);
  }

  lemma PlaceOrdered(file: Octets, got: set<nat>, c: Core, i: nat, x: Octets)
    requires Ordered(file, got, c) && c.nextWrite !in got && c.nextWrite <= i && x == Chunk(file, CHUNK, i)
    ensures var d := Place(c, i, x);
      && Ordered(file, got + {i}, d) && d.nextWrite !in got + {i}
      && d.received == c.received && d.bytes == c.bytes && c.nextWrite <= d.nextWrite
  {
    if i == c.nextWrite {
      InOrder(file, got, c, i, x);
    } else {
      OutOfOrder(file, got, c, i);
    }
  }

  lemma AcceptSnapshot(file: Octets, got: set<nat>, c: Core, i: nat)
    requires Snapshot(file, got, c) && i < Count(|file|, CHUNK) && i !in got
    ensures Snapshot(file, got + {i}, Accept(c, i, Chunk(file, CHUNK, i)))
    ensures c.nextWrite <= Accept(c, i, Chunk(file, CHUNK, i)).nextWrite
  {
    var x := Chunk(file, CHUNK, i);
    OrderIgnoresCounts(file, got, c, |x|);
    PlaceOrdered(file, got, Counted(c, |x|), i, x);
    OneMore(file, got, c, i, Accept(c, i, x));
  }

  lemma NewIffMissing(file: Octets, got: set<nat>, c: Core, i: nat)
    requires Snapshot(file, got, c)
    ensures IsNew(c, i) <==> i !in got
  {
  }

  lemma OfferSnapshot(file: Octets, got: set<nat>, c: Core, i: nat)
    requires Snapshot(file, got, c) && i < Count(|file|, CHUNK)
    ensures Snapshot(file, got + {i}, Offer(c, i, Chunk(file, CHUNK, i)))
    ensures IsNew(c, i) <==> i !in got
    ensures c.written <= Offer(c, i, Chunk(file, CHUNK, i)).written
  {
    NewIffMissing(file, got, c, i);
    if i in got {
      assert got + {i} == got;
    } else {
      AcceptSnapshot(file, got, c, i);
      ChunksPrefix(file, c.nextWrite, Accept(c, i, Chunk(file, CHUNK, i)).nextWrite);
    }
  }

  lemma ChunksPrefix(file: Octets, m: nat, n: nat)
    requires m <= n
    ensures Chunks(file, CHUNK, m) <= Chunks(file, CHUNK, n)
  {
  }

  lemma EmptySnapshot(file: Octets)
    ensures Snapshot(file, {}, EMPTY)
  {
    PayloadEmpty(|file|, CHUNK, Count(|file|, CHUNK));
  }

  /** The snapshot is determined by what has arrived. */
  lemma SnapshotUnique(file: Octets, got: set<nat>, c: Core, d: Core)
    requires Snapshot(file, got, c) && Snapshot(file, got, d)
    ensures c == d
  {
    assert c.nextWrite == d.nextWrite;
    assert c.pending.Keys == d.pending.Keys;
    assert c.pending == d.pending;
  }

  /** Every received chunk is either written or pending, and pending chunks lie beyond the write index. */
  lemma Balance(file: Octets, got: set<nat>, c: Core)
    requires Snapshot(file, got, c)
    ensures c.received == c.nextWrite + |c.pending| <= Count(|file|, CHUNK)
    ensures forall i :: i in c.pending ==> c.nextWrite < i < Count(|file|, CHUNK)
    ensures c.received == Count(|file|, CHUNK) <==> c.nextWrite == Count(|file|, CHUNK) && c.pending == map[]
  {
    WrittenOrPending(file, got, c);
    FullSet(got, Count(|file|, CHUNK));
  }

  lemma WrittenOrPending(file: Octets, got: set<nat>, c: Core)
    requires Snapshot(file, got, c)
    ensures |got| == c.nextWrite + |c.pending|
  {
    var below := set i | i in got && i < c.nextWrite;
    FullSet(below, c.nextWrite);
    assert got == below + c.pending.Keys;
    assert |got| == |below| + |c.pending.Keys|;
  }

  function OfferAll(file: Octets, c: Core, order: seq<nat>): Core
    decreases |order|
  {
    if order == [] then c else OfferAll(file, Offer(c, order[0], Chunk(file, CHUNK, order[0])), order[1..])
  }

  lemma {:induction false} OfferAllSnapshot(file: Octets, got: set<nat>, c: Core, order: seq<nat>)
    requires Snapshot(file, got, c) && forall i :: i in order ==> i < Count(|file|, CHUNK)
    ensures Snapshot(file, got + SetOf(order), OfferAll(file, c, order))
    decreases |order|
  {
    if order == [] {
      assert got + SetOf(order) == got;
    } else {
      assert order[0] in order;
      assert forall i :: i in order[1..] ==> i in order;
      OfferSnapshot(file, got, c, order[0]);
      OfferAllSnapshot(file, got + {order[0]}, Offer(c, order[0], Chunk(file, CHUNK, order[0])), order[1..]);
      assert got + SetOf(order) == got + {order[0]} + SetOf(order[1..]) by {
        assert order == [order[0]] + order[1..];
      }
    }
  }

  /** Confluence: only the set of chunks that arrived matters, not their order or repetition. */
  lemma {:induction false} Confluence(file: Octets, a: seq<nat>, b: seq<nat>)
    requires SetOf(a) == SetOf(b) && forall i :: i in a ==> i < Count(|file|, CHUNK)
    ensures OfferAll(file, EMPTY, a) == OfferAll(file, EMPTY, b)
  {
    EmptySnapshot(file);
    forall i | i in b ensures i < Count(|file|, CHUNK) {
      assert i in SetOf(b);
    }
    OfferAllSnapshot(file, {}, EMPTY, a);
    OfferAllSnapshot(file, {}, EMPTY, b);
    SnapshotUnique(file, {} + SetOf(a), OfferAll(file, EMPTY, a), OfferAll(file, EMPTY, b));
  }

  // ---------------------------------------------------------------- the download

  datatype Mode = Undecided | Sw | Blob

  /** Messages the page posts to the service worker about one download. */
  datatype Message = Data(data: Octets) | Close

  /** A StreamingDownloader: `posted` went to the service worker, `blobs` are the in-memory files it produced. */
  datatype Download = Download(mode: Mode, fallback: seq<Octets>, posted: seq<Message>, blobs: seq<Octets>)

  const FRESH_DOWNLOAD: Download := Download(Undecided, [], [], [])

  function DataMessages(ws: seq<Octets>): (r: seq<Message>)
    ensures |r| == |ws|
  {
    seq(|ws|, k requires 0 <= k < |ws| => Data(ws[k]))
  }

  function WriteAll(d: Option<Download>, ws: seq<Octets>): Option<Download> {
    match d
    case None => None
    case Some(x) =>
      if x.mode.Sw? then Some(x.(posted := x.posted + DataMessages(ws)))
      else Some(x.(fallback := x.fallback + ws))
  }

  function CloseDownload(d: Option<Download>): Option<Download> {
    match d
    case None => None
    case Some(x) =>
      if x.mode.Sw? then Some(x.(posted := x.posted + [Close]))
      else Some(x.(blobs := x.blobs + [Flatten(x.fallback)], fallback := []))
  }

  /**
   The whole receiver. Bookkeeping that the program does not keep: `finishes` counts calls of
   _finishDownload, `skipped` is the write index when the destination in use came into being,
   and `atInfo` is the number of chunks already received when the file info arrived.
   */
  datatype Receiver = Receiver(core: Core, total: nat, dl: Option<Download>, finishes: nat, skipped: nat, atInfo: nat)

  const INITIAL: Receiver := Receiver(EMPTY, 0, None, 0, 0, 0)

  function Finish(r: Receiver): Receiver {
    r.(dl := CloseDownload(r.dl), finishes := r.finishes + 1, core := r.core.(pending := map[]))
  }

  /** _handleChunk: a message too short to hold an index throws before any state changes. */
  function Deliver(r: Receiver, data: Octets): Receiver {
    if |data| < 4 || !IsNew(r.core, FrameIndex(data)) then r
    else Absorb(r, Accept(r.core, FrameIndex(data), data[4..]))
  }

  /** What a chunk that is not a duplicate does to the receiver. */
  function Absorb(r: Receiver, c: Core): Receiver {
    var s := r.(core := c, dl := WriteAll(r.dl, Drop(c.written, |r.core.written|)));
    if c.received == r.total then Finish(s) else s
  }

  function Drop<T>(s: seq<T>, n: nat): seq<T> { if n <= |s| then s[n..] else [] }

  /** The first file info creates the download; later ones are ignored. */
  function OnInfo(r: Receiver, total: nat): Receiver {
    if r.dl.Some? then r
    else r.(total := total, dl := Some(FRESH_DOWNLOAD), skipped := r.core.nextWrite, atInfo := r.core.received)
  }

  /** prepare() settles where bytes go from now on. */
  function OnPrepared(r: Receiver, mode: Mode): Receiver
    requires r.dl.Some? && r.dl.value.mode.Undecided? && !mode.Undecided?
  {
    r.(dl := Some(r.dl.value.(mode := mode)),
       skipped := if mode.Sw? && r.finishes == 0 then r.core.nextWrite else r.skipped)
  }

  datatype Event = Arrival(i: nat) | Info | Prepared(mode: Mode)

  predicate Enabled(file: Octets, r: Receiver, e: Event) {
    match e
    case Arrival(i) => i < Count(|file|, CHUNK)
    case Info => true
    case Prepared(mode) => r.dl.Some? && r.dl.value.mode.Undecided? && !mode.Undecided?
  }

  function Apply(file: Octets, r: Receiver, e: Event): Receiver
    requires Enabled(file, r, e)
  {
    match e
    case Arrival(i) => Deliver(r, Frame(file, i))
    case Info => OnInfo(r, Count(|file|, CHUNK))
    case Prepared(mode) => OnPrepared(r, mode)
  }

  predicate Legal(file: Octets, r: Receiver, es: seq<Event>)
    decreases |es|
  {
    es == [] || (Enabled(file, r, es[0]) && Legal(file, Apply(file, r, es[0]), es[1..]))
  }

  function Exec(file: Octets, r: Receiver, es: seq<Event>): Receiver
    requires Legal(file, r, es)
    decreases |es|
  {
    if es == [] then r else Exec(file, Apply(file, r, es[0]), es[1..])
  }

  /** The chunks that arrived during es. */
  function Arrived(es: seq<Event>): set<nat> {
    if es == [] then {} else (if es[0].Arrival? then {es[0].i} else {}) + Arrived(es[1..])
  }

  /** What has arrived after one more event. */
  function After(got: set<nat>, e: Event): set<nat> { if e.Arrival? then got + {e.i} else got }

  /** Chunks that reached the destination in use: those written since it came into being. */
  function Mine(file: Octets, r: Receiver): seq<Octets>
    requires r.skipped <= r.core.nextWrite
  {
    Chunks(file, CHUNK, r.core.nextWrite)[r.skipped..]
  }

  ghost predicate DownloadHolds(d: Download, mine: seq<Octets>, finishes: nat) {
    if finishes == 0 then
      && d.blobs == []
      && d.posted == (if d.mode.Sw? then DataMessages(mine) else [])
      && (!d.mode.Sw? ==> d.fallback == mine)
    else
      || (d.blobs == [Flatten(mine)] && d.posted == [] && d.fallback == [])
      || (d.blobs == [] && d.posted == DataMessages(mine) + [Close])
  }

  ghost predicate Inv(file: Octets, got: set<nat>, r: Receiver) {
    && Snapshot(file, got, r.core)
    && r.skipped <= r.core.nextWrite
    && match r.dl
       case None => r.total == r.finishes == r.skipped == 0
       case Some(d) =>
         && r.total == Count(|file|, CHUNK)
         && DownloadHolds(d, Mine(file, r), r.finishes)
         && r.atInfo <= r.core.received
         && r.finishes == if r.core.received == r.total && r.atInfo < r.total then 1 else 0
  }

  lemma WriteAllHolds(d: Download, mine: seq<Octets>, ws: seq<Octets>)
    requires DownloadHolds(d, mine, 0)
    ensures var x := WriteAll(Some(d), ws); x.Some? && DownloadHolds(x.value, mine + ws, 0)
  {
    assert DataMessages(mine + ws) == DataMessages(mine) + DataMessages(ws);
  }

  /** The chunks written by one arrival, and the destination's share of the file with them. */
  lemma MineGrows(file: Octets, m: nat, n: nat, skipped: nat)
    requires skipped <= m <= n
    ensures var ws := Drop(Chunks(file, CHUNK, n), m);
      && Chunks(file, CHUNK, n) == Chunks(file, CHUNK, m) + ws
      && Chunks(file, CHUNK, n)[skipped..] == Chunks(file, CHUNK, m)[skipped..] + ws
  {
    ChunksPrefix(file, m, n);
  }

  lemma FinishHolds(d: Download, mine: seq<Octets>)
    requires DownloadHolds(d, mine, 0)
    ensures var x := CloseDownload(Some(d)); x.Some? && DownloadHolds(x.value, mine, 1)
  {
  }

  lemma AbsorbInv(file: Octets, got: set<nat>, r: Receiver, more: set<nat>, c: Core)
    requires Inv(file, got, r) && r.core.received < Count(|file|, CHUNK)
    requires Snapshot(file, more, c) && c.received == r.core.received + 1 && r.core.written <= c.written
    ensures Inv(file, more, Absorb(r, c))
  {
    Balance(file, more, c);
    assert r.core.nextWrite == |r.core.written| <= |c.written| == c.nextWrite;
    MineGrows(file, r.core.nextWrite, c.nextWrite, r.skipped);
    if r.dl.Some? {
      var ws := Drop(c.written, r.core.nextWrite);
      WriteAllHolds(r.dl.value, Mine(file, r), ws);
      FinishHolds(WriteAll(r.dl, ws).value, Mine(file, r) + ws);
    } else {
      assert Absorb(r, c) == r.(core := c);
    }
    assert Absorb(r, c).core == c;
  }

  lemma ArrivalInv(file: Octets, got: set<nat>, r: Receiver, i: nat)
    requires Inv(file, got, r) && i < Count(|file|, CHUNK) && |file| <= MAX_INDEX_COUNT * CHUNK
    ensures Inv(file, got + {i}, Deliver(r, Frame(file, i)))
  {
    InRange(|file|, CHUNK, MAX_INDEX_COUNT);
    Decodes(file, i);
    OfferSnapshot(file, got, r.core, i);
    if i in got {
      assert got + {i} == got;
      assert Deliver(r, Frame(file, i)) == r;
    } else {
      var c := Accept(r.core, i, Chunk(file, CHUNK, i));
      assert Deliver(r, Frame(file, i)) == Absorb(r, c);
      FullSet(got, Count(|file|, CHUNK));
      AbsorbInv(file, got, r, got + {i}, c);
    }
  }

  lemma StepInv(file: Octets, got: set<nat>, r: Receiver, e: Event)
    requires Inv(file, got, r) && Enabled(file, r, e) && |file| <= MAX_INDEX_COUNT * CHUNK
    ensures Inv(file, After(got, e), Apply(file, r, e))
  {
    match e
    case Arrival(i) => ArrivalInv(file, got, r, i);
    case Info =>
    case Prepared(mode) =>
  }

  lemma {:induction false} RunInv(file: Octets, got: set<nat>, r: Receiver, es: seq<Event>)
    requires Inv(file, got, r) && Legal(file, r, es) && |file| <= MAX_INDEX_COUNT * CHUNK
    ensures Inv(file, got + Arrived(es), Exec(file, r, es))
    decreases |es|
  {
    if es == [] {
      assert got + Arrived(es) == got;
    } else {
      StepInv(file, got, r, es[0]);
      assert After(got, es[0]) + Arrived(es[1..]) == got + Arrived(es);
      RunInv(file, After(got, es[0]), Apply(file, r, es[0]), es[1..]);
    }
  }

  lemma Reached(file: Octets, es: seq<Event>)
    requires Legal(file, INITIAL, es) && |file| <= MAX_INDEX_COUNT * CHUNK
    ensures Inv(file, Arrived(es), Exec(file, INITIAL, es))
  {
    EmptySnapshot(file);
    RunInv(file, {}, INITIAL, es);
    assert {} + Arrived(es) == Arrived(es);
  }

  /** In every reachable state the bytes written so far are a prefix of the file, cut at a chunk boundary. */
  lemma WrittenIsPrefix(file: Octets, es: seq<Event>)
    requires Legal(file, INITIAL, es) && |file| <= MAX_INDEX_COUNT * CHUNK
    ensures var c := Exec(file, INITIAL, es).core;
      && Flatten(c.written) == file[..Offset(|file|, CHUNK, c.nextWrite)]
      && c.received == |Arrived(es)| == c.nextWrite + |c.pending|
  {
    Reached(file, es);
    var c := Exec(file, INITIAL, es).core;
    Reassembly(file, CHUNK, c.nextWrite);
    Balance(file, Arrived(es), c);
  }

  lemma ArrivedSplit(got: set<nat>, es: seq<Event>, k: nat)
    requires k < |es|
    ensures After(got, es[0]) + Arrived(es[1..][..k]) == got + Arrived(es[..k + 1])
  {
    assert es[..k + 1][1..] == es[1..][..k];
  }

  /** Where the first file info of a run is. */
  function FirstInfo(es: seq<Event>): (k: Option<nat>)
    ensures k.Some? ==> k.value < |es|
  {
    if es == [] then None
    else if es[0].Info? then Some(0)
    else
      match FirstInfo(es[1..])
      case None => None
      case Some(k) => Some(k + 1)
  }

  lemma InfoStep(file: Octets, got: set<nat>, r: Receiver, e: Event)
    requires Inv(file, got, r) && Enabled(file, r, e)
    ensures var s := Apply(file, r, e);
      && (r.dl.Some? ==> s.dl.Some? && s.atInfo == r.atInfo)
      && (r.dl.None? ==> if e.Info? then s.dl.Some? && s.atInfo == |got| else s.dl.None?)
  {
  }

  lemma {:induction false} InfoStays(file: Octets, got: set<nat>, r: Receiver, es: seq<Event>)
    requires Inv(file, got, r) && Legal(file, r, es) && |file| <= MAX_INDEX_COUNT * CHUNK && r.dl.Some?
    ensures Exec(file, r, es).dl.Some? && Exec(file, r, es).atInfo == r.atInfo
    decreases |es|
  {
    if es != [] {
      StepInv(file, got, r, es[0]);
      InfoStep(file, got, r, es[0]);
      InfoStays(file, After(got, es[0]), Apply(file, r, es[0]), es[1..]);
    }
  }

  /** The download exists iff a file info has come, and what it remembers is what had arrived before the first. */
  lemma {:induction false} InfoRun(file: Octets, got: set<nat>, r: Receiver, es: seq<Event>)
    requires Inv(file, got, r) && Legal(file, r, es) && |file| <= MAX_INDEX_COUNT * CHUNK && r.dl.None?
    ensures var k, t := FirstInfo(es), Exec(file, r, es);
      && (t.dl.Some? <==> k.Some?)
      && (k.Some? ==> t.atInfo == |got + Arrived(es[..k.value])|)
    decreases |es|
  {
    if es != [] {
      StepInv(file, got, r, es[0]);
      InfoStep(file, got, r, es[0]);
      FirstInfoSplit(got, es);
      if es[0].Info? {
        InfoStays(file, After(got, es[0]), Apply(file, r, es[0]), es[1..]);
      } else {
        InfoRun(file, After(got, es[0]), Apply(file, r, es[0]), es[1..]);
      }
    }
  }

  lemma FirstInfoSplit(got: set<nat>, es: seq<Event>)
    requires es != []
    ensures var k := FirstInfo(es);
      if es[0].Info? then k == Some(0) && got + Arrived(es[..0]) == got
      else
        && (k.Some? <==> FirstInfo(es[1..]).Some?)
        && (k.Some? ==>
             got + Arrived(es[..k.value]) == After(got, es[0]) + Arrived(es[1..][..FirstInfo(es[1..]).value]))
  {
    if !es[0].Info? && FirstInfo(es[1..]).Some? {
      ArrivedSplit(got, es, FirstInfo(es[1..]).value);
    }
  }

  /**
   When the download finishes: at most once, and exactly when every chunk has arrived and the first file
   info came before the last missing one did. If every chunk comes before the info, nothing ever finishes it.
   */
  lemma {:induction false} FinishesExactly(file: Octets, es: seq<Event>)
    requires Legal(file, INITIAL, es) && |file| <= MAX_INDEX_COUNT * CHUNK
    ensures var r, k := Exec(file, INITIAL, es), FirstInfo(es); var n := Count(|file|, CHUNK);
      && r.finishes <= 1
      && (r.finishes == 1 <==> k.Some? && |Arrived(es[..k.value])| < n && |Arrived(es)| == n)
      && (r.finishes == 1 <==> r.dl.Some? && r.atInfo < n && |Arrived(es)| == n)
      && (r.finishes == 1 ==> Flatten(r.core.written) == file && r.core.bytes == |file|)
  {
    Reached(file, es);
    var r, n := Exec(file, INITIAL, es), Count(|file|, CHUNK);
    Balance(file, Arrived(es), r.core);
    FullSet(Arrived(es), n);
    FirstInfoDecides(file, es);
    if r.finishes == 1 {
      WholeFile(file, CHUNK);
      PayloadAll(|file|, CHUNK, n, Arrived(es));
      LastOffset(|file|, CHUNK);
    }
  }

  lemma FirstInfoDecides(file: Octets, es: seq<Event>)
    requires Legal(file, INITIAL, es) && |file| <= MAX_INDEX_COUNT * CHUNK
    ensures var k, t := FirstInfo(es), Exec(file, INITIAL, es);
      (t.dl.Some? <==> k.Some?) && (k.Some? ==> t.atInfo == |Arrived(es[..k.value])|)
  {
    EmptySnapshot(file);
    InfoRun(file, {}, INITIAL, es);
    var k := FirstInfo(es);
    if k.Some? {
      assert {} + Arrived(es[..k.value]) == Arrived(es[..k.value]);
    }
  }

  function DataOf(ms: seq<Message>): seq<Octets> {
    if ms == [] then [] else (if ms[0].Data? then [ms[0].data] else []) + DataOf(ms[1..])
  }

  lemma {:induction false} DataOfMessages(ws: seq<Octets>, tail: seq<Message>)
    ensures DataOf(DataMessages(ws) + tail) == ws + DataOf(tail)
  {
    if ws == [] {
      assert DataMessages(ws) + tail == tail;
    } else {
      assert (DataMessages(ws) + tail)[1..] == DataMessages(ws[1..]) + tail;
      DataOfMessages(ws[1..], tail);
    }
  }

  /** The bytes of a finished download: the assembled blob, or what went to the service worker. */
  function Output(d: Download): Octets {
    if |d.blobs| > 0 then d.blobs[0] else Flatten(DataOf(d.posted))
  }

  /**
   What the user gets. Chunks written before the destination existed are lost, so a finished download
   is the file without its first `skipped` chunks: the whole file iff none had been written by then.
   */
  lemma DownloadExactly(file: Octets, es: seq<Event>)
    requires Legal(file, INITIAL, es) && |file| <= MAX_INDEX_COUNT * CHUNK
    requires Exec(file, INITIAL, es).finishes == 1
    ensures var r := Exec(file, INITIAL, es);
      && r.dl.Some?
      && Output(r.dl.value) == file[Offset(|file|, CHUNK, r.skipped)..]
      && (Output(r.dl.value) == file <==> r.skipped == 0)
  {
    Reached(file, es);
    FinishesExactly(file, es);
    var r, n := Exec(file, INITIAL, es), Count(|file|, CHUNK);
    Balance(file, Arrived(es), r.core);
    OutputHolds(r.dl.value, Mine(file, r));
    Remainder(file, n, r.skipped);
  }

  lemma OutputHolds(d: Download, mine: seq<Octets>)
    requires DownloadHolds(d, mine, 1)
    ensures Output(d) == Flatten(mine)
  {
    DataOfMessages(mine, [Close]);
    assert DataOf([Close]) == [] && mine + [] == mine;
  }

  lemma Remainder(file: Octets, n: nat, k: nat)
    requires n == Count(|file|, CHUNK) && k <= n
    ensures Flatten(Chunks(file, CHUNK, n)[k..]) == file[Offset(|file|, CHUNK, k)..]
    ensures n > 0 ==> (file[Offset(|file|, CHUNK, k)..] == file <==> k == 0)
  {
    var all := Chunks(file, CHUNK, n);
    assert all == all[..k] + all[k..];
    FlattenConcat(all[..k], all[k..]);
    assert all[..k] == Chunks(file, CHUNK, k);
    Reassembly(file, CHUNK, k);
    WholeFile(file, CHUNK);
    if k > 0 {
      InRange(|file|, CHUNK, 0);
      OffsetMonotone(|file|, CHUNK, 1, k);
    }
  }

  /** No chunk had been written when a destination came into being iff chunk 0 had not arrived by then. */
  lemma NothingSkippedIff(file: Octets, before: seq<Event>, e: Event)
    requires Legal(file, INITIAL, before) && |file| <= MAX_INDEX_COUNT * CHUNK
    requires Exec(file, INITIAL, before).finishes == 0 && Enabled(file, Exec(file, INITIAL, before), e)
    requires (e.Info? && Exec(file, INITIAL, before).dl.None?) || (e.Prepared? && e.mode.Sw?)
    ensures Apply(file, Exec(file, INITIAL, before), e).skipped == 0 <==> 0 !in Arrived(before)
  {
    Reached(file, before);
  }

  /** The events that bring into being the destination in use from then on. */
  predicate Decides(r: Receiver, e: Event) {
    (e.Info? && r.dl.None?) || (e.Prepared? && e.mode.Sw? && r.finishes == 0)
  }

  /** Where the last such event of a run is. */
  function LastDecision(file: Octets, r: Receiver, es: seq<Event>): (k: Option<nat>)
    requires Legal(file, r, es)
    ensures k.Some? ==> k.value < |es|
    decreases |es|
  {
    if es == [] then None
    else
      match LastDecision(file, Apply(file, r, es[0]), es[1..])
      case Some(k) => Some(k + 1)
      case None => if Decides(r, es[0]) then Some(0) else None
  }

  lemma DecisionStep(file: Octets, got: set<nat>, r: Receiver, e: Event)
    requires Inv(file, got, r) && Enabled(file, r, e)
    ensures var s := Apply(file, r, e);
      && (Decides(r, e) ==> s.dl.Some? && (s.skipped == 0 <==> 0 !in got))
      && (!Decides(r, e) ==> s.skipped == r.skipped && (s.dl.Some? <==> r.dl.Some?))
  {
  }

  lemma {:induction false} DecisionRun(file: Octets, got: set<nat>, r: Receiver, es: seq<Event>)
    requires Inv(file, got, r) && Legal(file, r, es) && |file| <= MAX_INDEX_COUNT * CHUNK
    ensures var k, s := LastDecision(file, r, es), Exec(file, r, es);
      && (k.Some? ==> s.dl.Some? && (s.skipped == 0 <==> 0 !in got + Arrived(es[..k.value])))
      && (k.None? ==> s.skipped == r.skipped && (s.dl.Some? <==> r.dl.Some?))
    decreases |es|
  {
    if es != [] {
      StepInv(file, got, r, es[0]);
      DecisionStep(file, got, r, es[0]);
      DecisionRun(file, After(got, es[0]), Apply(file, r, es[0]), es[1..]);
      var later := LastDecision(file, Apply(file, r, es[0]), es[1..]);
      if later.Some? {
        ArrivedSplit(got, es, later.value);
      }
    }
  }

  /**
   The whole story of a finished download: it is the file iff chunk 0 had not arrived before the event
   that brought its destination into being, be that the file info or the switch to the service worker.
   */
  lemma WholeIffDecidedFirst(file: Octets, es: seq<Event>)
    requires Legal(file, INITIAL, es) && |file| <= MAX_INDEX_COUNT * CHUNK
    requires Exec(file, INITIAL, es).finishes == 1
    ensures var r, k := Exec(file, INITIAL, es), LastDecision(file, INITIAL, es);
      && k.Some? && r.dl.Some?
      && (Output(r.dl.value) == file <==> 0 !in Arrived(es[..k.value]))
  {
    DownloadExactly(file, es);
    EmptySnapshot(file);
    DecisionRun(file, {}, INITIAL, es);
    var k := LastDecision(file, INITIAL, es);
    if k.Some? {
      assert {} + Arrived(es[..k.value]) == Arrived(es[..k.value]);
    }
  }

  lemma {:induction false} DecisionIsNoArrival(file: Octets, r: Receiver, es: seq<Event>)
    requires Legal(file, r, es)
    ensures var k := LastDecision(file, r, es); k.Some? ==> !es[k.value].Arrival?
    decreases |es|
  {
    if es != [] {
      DecisionIsNoArrival(file, Apply(file, r, es[0]), es[1..]);
    }
  }

  // ---------------------------------------------------------------- messages and modes

  /**
   A message counts, with all its octets but four, iff it can hold an index and that index is new. The
   download is finished, and the map cleared, by the message that makes the count the total.
   */
  lemma DeliverCounts(r: Receiver, data: Octets)
    ensures var s := Deliver(r, data);
      if |data| >= 4 && FrameIndex(data) >= r.core.nextWrite && FrameIndex(data) !in r.core.pending then
        && s.core.received == r.core.received + 1 && s.core.bytes == r.core.bytes + |data| - 4
        && if s.core.received == r.total then s.finishes == r.finishes + 1 && s.core.pending == map[]
           else s.finishes == r.finishes
      else s == r
  {
    if |data| >= 4 && IsNew(r.core, FrameIndex(data)) {
      DrainKeepsCounts(Emit(Counted(r.core, |data| - 4), data[4..]));
    }
  }

  lemma {:induction false} DrainKeepsCounts(c: Core)
    ensures Drain(c).received == c.received && Drain(c).bytes == c.bytes
    decreases |c.pending|
  {
    if c.nextWrite in c.pending {
      RemoveShrinks(c.pending, c.nextWrite);
      DrainKeepsCounts(Unstash(c));
    }
  }

  /** Only the first file info counts: it fixes the total and makes the one, empty, download. */
  lemma FirstInfoCounts(r: Receiver, total: nat, other: nat)
    requires r.dl.None?
    ensures var s := OnInfo(r, total);
      && s.total == total && s.dl == Some(Download(Undecided, [], [], [])) && s.core == r.core
      && OnInfo(s, other) == s
  {
  }

  lemma ModeStep(file: Octets, r: Receiver, e: Event, mode: Mode)
    requires Enabled(file, r, e) && !mode.Undecided?
    requires (r.dl.Some? && r.dl.value.mode == mode) || e == Prepared(mode)
    ensures Apply(file, r, e).dl.Some? && Apply(file, r, e).dl.value.mode == mode
  {
  }

  lemma {:induction false} ModeStays(file: Octets, r: Receiver, es: seq<Event>, mode: Mode)
    requires Legal(file, r, es) && r.dl.Some? && r.dl.value.mode == mode && !mode.Undecided?
    ensures Exec(file, r, es).dl.Some? && Exec(file, r, es).dl.value.mode == mode
    decreases |es|
  {
    if es != [] {
      ModeStep(file, r, es[0], mode);
      ModeStays(file, Apply(file, r, es[0]), es[1..], mode);
    }
  }

  /** The download takes the mode that prepare settled on, and keeps it in every later state of every run. */
  lemma {:induction false} PreparedMode(file: Octets, r: Receiver, es: seq<Event>, k: nat)
    requires Legal(file, r, es) && k < |es| && es[k].Prepared?
    ensures Exec(file, r, es).dl.Some? && Exec(file, r, es).dl.value.mode == es[k].mode
    decreases |es|
  {
    if k == 0 {
      ModeStep(file, r, es[0], es[0].mode);
      ModeStays(file, Apply(file, r, es[0]), es[1..], es[0].mode);
    } else {
      PreparedMode(file, Apply(file, r, es[0]), es[1..], k - 1);
    }
  }

  /** prepare settles the mode and moves no byte. */
  lemma PrepareMovesNothing(file: Octets, r: Receiver, mode: Mode)
    requires Enabled(file, r, Prepared(mode))
    ensures var s := Apply(file, r, Prepared(mode));
      && s.core == r.core && s.total == r.total && s.finishes == r.finishes && s.dl.Some?
      && s.dl.value == Download(mode, r.dl.value.fallback, r.dl.value.posted, r.dl.value.blobs)
  {
  }

  /** Every byte goes one way: to the service worker, or into the one in-memory file. */
  predicate Only(d: Download, sw: bool) {
    if sw then d.mode.Sw? && d.blobs == [] else !d.mode.Sw? && d.posted == []
  }

  lemma OnlyStep(file: Octets, r: Receiver, e: Event, sw: bool)
    requires Enabled(file, r, e) && r.dl.Some? && Only(r.dl.value, sw) && !r.dl.value.mode.Undecided?
    ensures var s := Apply(file, r, e); s.dl.Some? && Only(s.dl.value, sw) && !s.dl.value.mode.Undecided?
  {
  }

  lemma {:induction false} OnlyRun(file: Octets, r: Receiver, es: seq<Event>, sw: bool)
    requires Legal(file, r, es) && r.dl.Some? && Only(r.dl.value, sw) && !r.dl.value.mode.Undecided?
    ensures Exec(file, r, es).dl.Some? && Only(Exec(file, r, es).dl.value, sw)
    decreases |es|
  {
    if es != [] {
      OnlyStep(file, r, es[0], sw);
      OnlyRun(file, Apply(file, r, es[0]), es[1..], sw);
    }
  }

  lemma {:induction false} ExecSplit(file: Octets, r: Receiver, a: seq<Event>, b: seq<Event>)
    requires Legal(file, r, a + b)
    ensures Legal(file, r, a) && Legal(file, Exec(file, r, a), b)
    ensures Exec(file, r, a + b) == Exec(file, Exec(file, r, a), b)
    decreases |a|
  {
    if a == [] {
      assert a + b == b;
    } else {
      assert (a + b)[1..] == a[1..] + b && (a + b)[0] == a[0];
      ExecSplit(file, Apply(file, r, a[0]), a[1..], b);
    }
  }

  /**
   Where the bytes of a finished download went, if prepare was over before: with the service worker, the
   chunks were posted in order and then the close, and no blob exists; otherwise one blob, and no message.
   */
  lemma {:induction false} FinishedBy(file: Octets, es: seq<Event>, k: nat)
    requires Legal(file, INITIAL, es) && |file| <= MAX_INDEX_COUNT * CHUNK
    requires k < |es| && es[k].Prepared? && Legal(file, INITIAL, es[..k])
    requires Exec(file, INITIAL, es[..k]).finishes == 0 && Exec(file, INITIAL, es).finishes == 1
    ensures var r := Exec(file, INITIAL, es);
      && r.dl.Some? && r.skipped <= r.core.nextWrite
      && if es[k].mode.Sw? then r.dl.value.blobs == [] && r.dl.value.posted == DataMessages(Mine(file, r)) + [Close]
         else r.dl.value.posted == [] && r.dl.value.blobs == [Flatten(Mine(file, r))] && r.dl.value.fallback == []
  {
    var was := Exec(file, INITIAL, es[..k]);
    assert es == es[..k] + es[k..];
    ExecSplit(file, INITIAL, es[..k], es[k..]);
    assert es[k..][0] == es[k] && es[k..][1..] == es[k + 1..];
    Reached(file, es[..k]);
    OnlyRun(file, Apply(file, was, es[k]), es[k + 1..], es[k].mode.Sw?);
    Reached(file, es);
  }

  // ---------------------------------------------------------------- single runs, good and bad

  /** A run that starts with chunk 0 and then the file info. */
  ghost predicate InfoSecond(es: seq<Event>) {
    |es| >= 2 && es[0] == Arrival(0) && es[1] == Info
  }

  lemma InfoSecondFacts(es: seq<Event>)
    requires InfoSecond(es)
    ensures FirstInfo(es) == Some(1) && Arrived(es[..1]) == {0} && Arrived(es) == {0} + Arrived(es[2..])
  {
    assert es[1..][0] == Info && es[1..][1..] == es[2..];
    assert es[..1][0] == Arrival(0) && es[..1][1..] == [];
  }

  /** If chunk 0 comes first and the info second, and all arrives, what is finished is never the file. */
  lemma Beheaded(file: Octets, es: seq<Event>)
    requires InfoSecond(es) && Legal(file, INITIAL, es) && |file| <= MAX_INDEX_COUNT * CHUNK
    requires |Arrived(es)| == Count(|file|, CHUNK) > 1
    ensures Exec(file, INITIAL, es).finishes == 1 && Exec(file, INITIAL, es).dl.Some?
    ensures Output(Exec(file, INITIAL, es).dl.value) != file
  {
    InfoSecondFacts(es);
    FinishesExactly(file, es);
    WholeIffDecidedFirst(file, es);
    DecisionIsNoArrival(file, INITIAL, es);
    var k := LastDecision(file, INITIAL, es).value;
    assert k > 0;
    assert es[..k][0] == Arrival(0);
  }

  lemma LegalArrivals(file: Octets, r: Receiver, es: seq<Event>)
    requires forall k :: 0 <= k < |es| ==> !es[k].Prepared? && (es[k].Arrival? ==> es[k].i < Count(|file|, CHUNK))
    ensures Legal(file, r, es)
    decreases |es|
  {
    if es != [] {
      LegalArrivals(file, Apply(file, r, es[0]), es[1..]);
    }
  }

  lemma ExactCount(file: Octets, n: nat)
    requires n > 0 && (n - 1) * CHUNK < |file| <= n * CHUNK
    ensures Count(|file|, CHUNK) == n
  {
    InRange(|file|, CHUNK, n - 1);
    InRange(|file|, CHUNK, n);
  }

  /** A two-chunk file, chunk 0 before the file info: the download is finished, and is not the file. */
  lemma LostChunkExample(file: Octets, es: seq<Event>)
    requires CHUNK < |file| <= 2 * CHUNK && es == [Arrival(0), Info, Arrival(1)]
    ensures Legal(file, INITIAL, es)
    ensures Exec(file, INITIAL, es).finishes == 1 && Exec(file, INITIAL, es).dl.Some?
    ensures Output(Exec(file, INITIAL, es).dl.value) != file
  {
    ExactCount(file, 2);
    LegalArrivals(file, INITIAL, es);
    InfoSecondFacts(es);
    OneArrival(es[2..]);
    assert Arrived(es) == {0, 1};
    Beheaded(file, es);
  }

  lemma OneArrival(es: seq<Event>)
    requires |es| == 1 && es[0].Arrival?
    ensures Arrived(es) == {es[0].i}
  {
    assert es[1..] == [];
  }

  /** A one-chunk file before its file info: everything has arrived, and nothing ever finishes. */
  lemma LateInfoExample(file: Octets, es: seq<Event>)
    requires 0 < |file| <= CHUNK && es == [Arrival(0), Info]
    ensures Legal(file, INITIAL, es) && |Arrived(es)| == Count(|file|, CHUNK)
    ensures Exec(file, INITIAL, es).dl.Some? && Exec(file, INITIAL, es).finishes == 0
  {
    ExactCount(file, 1);
    LegalArrivals(file, INITIAL, es);
    InfoSecondFacts(es);
    assert es[2..] == [];
    assert Arrived(es) == {0};
    TooLate(file, es);
  }

  /** Once everything has arrived before the first file info, no run finishes the download. */
  lemma TooLate(file: Octets, es: seq<Event>)
    requires Legal(file, INITIAL, es) && |file| <= MAX_INDEX_COUNT * CHUNK
    requires FirstInfo(es).Some? && |Arrived(es[..FirstInfo(es).value])| >= Count(|file|, CHUNK)
    ensures Exec(file, INITIAL, es).dl.Some? && Exec(file, INITIAL, es).finishes == 0
  {
    FirstInfoDecides(file, es);
    FinishesExactly(file, es);
  }

  /** A streamed download that works: the file info, the service worker, the one chunk. */
  lemma StreamedExample(file: Octets, es: seq<Event>)
    requires 0 < |file| <= CHUNK && es == [Info, Prepared(Sw), Arrival(0)]
    ensures Legal(file, INITIAL, es)
    ensures var r := Exec(file, INITIAL, es);
      && r.finishes == 1 && r.skipped == 0 && r.dl.Some?
      && r.dl.value.blobs == [] && r.dl.value.posted == [Data(file), Close]
  {
    ExactCount(file, 1);
    StreamedLegal(file, es);
    StreamedFacts(file, es);
    FinishesExactly(file, es);
    Reached(file, es);
    Balance(file, Arrived(es), Exec(file, INITIAL, es).core);
    FinishedBy(file, es, 1);
    OneChunkMine(file, Exec(file, INITIAL, es));
  }

  lemma StreamedLegal(file: Octets, es: seq<Event>)
    requires Count(|file|, CHUNK) == 1 && es == [Info, Prepared(Sw), Arrival(0)]
    ensures Legal(file, INITIAL, es) && Legal(file, INITIAL, es[..1]) && Exec(file, INITIAL, es[..1]).finishes == 0
  {
    var r1 := Apply(file, INITIAL, Info);
    LegalArrivals(file, Apply(file, r1, Prepared(Sw)), [Arrival(0)]);
    assert es[1..] == [Prepared(Sw), Arrival(0)] && es[1..][1..] == [Arrival(0)];
    assert es[..1] == [Info] && es[..1][1..] == [];
  }

  /** Nothing had arrived by the second event, and chunk 0 has at the end. */
  lemma StreamedFacts(file: Octets, es: seq<Event>)
    requires Count(|file|, CHUNK) == 1 && |file| <= CHUNK && es == [Info, Prepared(Sw), Arrival(0)]
    requires Legal(file, INITIAL, es)
    ensures FirstInfo(es) == Some(0) && Arrived(es[..0]) == {} && Arrived(es) == {0}
    ensures Exec(file, INITIAL, es).skipped == 0
  {
    assert es[1..][1..] == es[2..] && es[2..][1..] == [];
    OneArrival(es[2..]);
    EmptySnapshot(file);
    DecisionRun(file, {}, INITIAL, es);
    DecisionIsNoArrival(file, INITIAL, es);
    var k := LastDecision(file, INITIAL, es);
    if k.Some? {
      assert k.value <= 1;
      assert Arrived(es[..k.value]) == {} by {
        assert k.value == 1 ==> es[..k.value][1..] == [];
      }
    }
  }

  lemma OneChunkMine(file: Octets, r: Receiver)
    requires Count(|file|, CHUNK) == 1 && |file| <= CHUNK && r.skipped == 0 && r.core.nextWrite == 1
    ensures Mine(file, r) == [file] && DataMessages(Mine(file, r)) + [Close] == [Data(file), Close]
  {
    assert Chunk(file, CHUNK, 0) == file;
    assert Chunks(file, CHUNK, 1)[0..] == [file];
  }
}

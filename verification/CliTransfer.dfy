/**
 The native transfer: eight sender loops stripe the chunks by residue, eight receiver tasks write
 them at computed offsets into one preallocated file. Tasks are named by the sender stream they
 read, so any pairing of connections is covered. One event is one uninterrupted piece of a task.
 */
module CliTransfer {
  import opened Bytes
  import opened Chunking
  import opened CliProtocol

  const CHUNK_SIZE: nat := 1024 * 1024
  const STREAMS: nat := 8

  // ---------------------------------------------------------------- chunk count

  /** (file_size + CHUNK_SIZE - 1) / CHUNK_SIZE in wrapping u64 arithmetic. */
  function TotalChunks(size: nat): nat { Wrap(size + CHUNK_SIZE - 1) / CHUNK_SIZE }

  /** The u64 expression is the true chunk count iff its sum does not overflow. */
  lemma TotalChunksExact(size: nat)
    requires size < TWO64
    ensures TotalChunks(size) == Count(size, CHUNK_SIZE) <==> size + CHUNK_SIZE - 1 < TWO64
  {
  }

  // ---------------------------------------------------------------- striping

  lemma SameResidue(i: nat)
    ensures (i + STREAMS) % STREAMS == i % STREAMS
    ensures i < STREAMS ==> i % STREAMS == i
  {
  }

  /** The indices one sender loop visits, starting at `from`. */
  function Stripe(total: nat, from: nat): seq<nat>
    decreases if from < total then total - from else 0
  {
    if from < total then [from] + Stripe(total, from + STREAMS) else []
  }

  lemma {:induction false} StripeTimes(total: nat, from: nat, i: nat)
    ensures Times(Stripe(total, from), i) == if from <= i < total && i % STREAMS == from % STREAMS then 1 else 0
    decreases if from < total then total - from else 0
  {
    if from < total {
      StripeTimes(total, from + STREAMS, i);
    }
  }

  /** The loop's k-th turn is at its start plus 8 * k. */
  lemma {:induction false} StripeAt(total: nat, from: nat, k: nat)
    requires k < |Stripe(total, from)|
    ensures Stripe(total, from)[k] == from + 8 * k < total
    decreases k
  {
    if k > 0 {
      StripeAt(total, from + STREAMS, k - 1);
    }
  }

  lemma {:induction false} StripeLength(total: nat, from: nat)
    ensures |Stripe(total, from)| == if from < total then (total - from + 7) / 8 else 0
    decreases if from < total then total - from else 0
  {
    if from < total {
      StripeLength(total, from + STREAMS);
    }
  }

  lemma StripeShare(n: nat, r: nat)
    requires r < STREAMS
    ensures |Stripe(n, r)| == n / 8 + if r < n % 8 then 1 else 0
  {
    StripeLength(n, r);
  }

  /** Visits made by the first k loops. */
  function Visits(n: nat, k: nat): nat {
    if k == 0 then 0 else Visits(n, k - 1) + |Stripe(n, k - 1)|
  }

  lemma {:induction false} VisitsShare(n: nat, q: nat, k: nat)
    requires q == n / 8 && k <= STREAMS
    ensures Visits(n, k) == k * q + Min(k, n % 8)
  {
    if k > 0 {
      VisitsShare(n, q, k - 1);
      StripeShare(n, k - 1);
      assert k * q == (k - 1) * q + q;
    }
  }

  /**
   The eight loops partition the work: each chunk index is visited once, by the loop of its residue,
   and together they make exactly as many visits as there are chunks. No offset and no index
   overflows, and no index is the end marker.
   */
  lemma StripingPartition(size: nat, i: nat, r: nat)
    requires r < STREAMS && size + CHUNK_SIZE - 1 < TWO64
    ensures var n := Count(size, CHUNK_SIZE);
      && Times(Stripe(n, r), i) == (if i < n && i % STREAMS == r then 1 else 0)
      && Visits(n, STREAMS) == n
      && (i < n ==> i * CHUNK_SIZE < size < TWO64 && i + STREAMS < END as nat)
  {
    var n := Count(size, CHUNK_SIZE);
    SameResidue(r);
    StripeTimes(n, r, i);
    VisitsShare(n, n / 8, STREAMS);
    InRange(size, CHUNK_SIZE, i);
  }

  lemma RangesPartition(size: nat, b: nat, i: nat, j: nat)
    requires i < j < Count(size, CHUNK_SIZE)
    ensures Offset(size, CHUNK_SIZE, i + 1) <= Offset(size, CHUNK_SIZE, j)
    ensures b < size ==>
      && b / CHUNK_SIZE < Count(size, CHUNK_SIZE)
      && (Offset(size, CHUNK_SIZE, i) <= b < Offset(size, CHUNK_SIZE, i + 1) <==> b / CHUNK_SIZE == i)
  {
    OffsetMonotone(size, CHUNK_SIZE, i + 1, j);
  }

  /** Every chunk but the last has 1 MiB, and chunk i starts at i MiB. */
  lemma FullChunks(size: nat, i: nat)
    requires i < Count(size, CHUNK_SIZE)
    ensures Offset(size, CHUNK_SIZE, i) == i * 1048576
    ensures ChunkLen(size, CHUNK_SIZE, i) == if i + 1 < Count(size, CHUNK_SIZE) then 1048576 else size - i * 1048576
    ensures 0 < ChunkLen(size, CHUNK_SIZE, i) <= 1048576
  {
    InRange(size, CHUNK_SIZE, i);
    InRange(size, CHUNK_SIZE, i + 1);
  }

  /** What stream r carries. */
  function Framed(file: Octets, indices: seq<nat>): (r: seq<(nat, Octets)>)
    ensures |r| == |indices|
  {
    seq(|indices|, k requires 0 <= k < |indices| => (indices[k], Chunk(file, CHUNK_SIZE, indices[k])))
  }

  /** The bytes of a stream from chunk `from` on, up to and including the end marker. */
  function Tail(file: Octets, from: nat): Octets
    decreases if from < Count(|file|, CHUNK_SIZE) then Count(|file|, CHUNK_SIZE) - from else 0
  {
    if from < Count(|file|, CHUNK_SIZE)
    then ChunkBytes(from, Chunk(file, CHUNK_SIZE, from)) + Tail(file, from + STREAMS)
    else ChunkBytes(END as nat, [])
  }

  /** It is the framing of the loop's stripe. */
  lemma {:induction false} TailFrames(file: Octets, from: nat)
    ensures Tail(file, from) == StreamBytes(Framed(file, Stripe(Count(|file|, CHUNK_SIZE), from)))
    decreases if from < Count(|file|, CHUNK_SIZE) then Count(|file|, CHUNK_SIZE) - from else 0
  {
    var n := Count(|file|, CHUNK_SIZE);
    if from < n {
      TailFrames(file, from + STREAMS);
      var chunks, more := Framed(file, Stripe(n, from)), Framed(file, Stripe(n, from + STREAMS));
      assert chunks == [(from, Chunk(file, CHUNK_SIZE, from))] + more;
      assert chunks[1..] == more;
    }
  }

  /** Reading a stream back yields exactly the chunks of its stripe, and uses every byte. */
  lemma TailDecodes(file: Octets, from: nat)
    requires |file| + CHUNK_SIZE - 1 < TWO64
    ensures DecodeStream(Tail(file, from)) == Some((Framed(file, Stripe(Count(|file|, CHUNK_SIZE), from)), []))
  {
    var chunks := Framed(file, Stripe(Count(|file|, CHUNK_SIZE), from));
    TailFrames(file, from);
    FramedSendable(file, from);
    WholeStream(chunks);
  }

  lemma FramedSendable(file: Octets, from: nat)
    requires |file| + CHUNK_SIZE - 1 < TWO64
    ensures Sendable(Framed(file, Stripe(Count(|file|, CHUNK_SIZE), from)))
  {
    var n := Count(|file|, CHUNK_SIZE);
    var stripe := Stripe(n, from);
    forall k | 0 <= k < |stripe| ensures stripe[k] < n && ChunkLen(|file|, CHUNK_SIZE, stripe[k]) <= CHUNK_SIZE {
      TimesIn(stripe, stripe[k]);
      StripeTimes(n, from, stripe[k]);
      InRange(|file|, CHUNK_SIZE, stripe[k]);
    }
  }

  /** Read one chunk at its offset and frame it onto the stream; u64 arithmetic throughout. */
  method SendOne(file: Octets, fileSize: u64, chunkIdx: u64, stream: TcpStream) returns (readSize: u64)
    requires |file| == fileSize as nat && chunkIdx as nat < Count(|file|, CHUNK_SIZE)
    modifies stream
    ensures stream.buf == old(stream.buf) + ChunkBytes(chunkIdx as nat, Chunk(file, CHUNK_SIZE, chunkIdx as nat))
    ensures readSize as nat == ChunkLen(|file|, CHUNK_SIZE, chunkIdx as nat)
  {
    ghost var i := chunkIdx as nat;
    InRange(|file|, CHUNK_SIZE, i);
    var offset := chunkIdx * (CHUNK_SIZE as u64);
    var remaining := fileSize - offset;
    readSize := if (CHUNK_SIZE as u64) < remaining then CHUNK_SIZE as u64 else remaining;
    var buf := file[offset as int..offset as int + readSize as int];
    assert buf == Chunk(file, CHUNK_SIZE, i);
    stream.SendChunk(chunkIdx, buf);
  }

  /** Payload of the chunks one loop still has to read. */
  function StripePayload(size: nat, total: nat, from: nat): nat
    decreases if from < total then total - from else 0
  {
    if from < total then ChunkLen(size, CHUNK_SIZE, from) + StripePayload(size, total, from + STREAMS) else 0
  }

  /** One sender task: stride through the file, then mark the end. */
  method SendStripe(file: Octets, fileSize: u64, totalChunks: u64, streamIdx: u64, stream: TcpStream)
    returns (bytesSent: u64)
    requires |file| == fileSize as nat && fileSize as nat + CHUNK_SIZE - 1 < TWO64
    requires totalChunks as nat == Count(|file|, CHUNK_SIZE) && streamIdx < 8
    modifies stream
    ensures stream.buf == old(stream.buf) + Tail(file, streamIdx as nat)
    ensures bytesSent as nat == StripePayload(|file|, totalChunks as nat, streamIdx as nat)
  {
    var chunkIdx := streamIdx;
    bytesSent := 0;
    ghost var n, r := totalChunks as nat, streamIdx as nat;
    SameResidue(r);
    StripePayloadIs(|file|, n, r);
    PayloadBound(|file|, CHUNK_SIZE, n, Residue(n, r, r));
    while chunkIdx < totalChunks
      invariant chunkIdx as nat <= n + 8
      invariant stream.buf + Tail(file, chunkIdx as nat) == old(stream.buf) + Tail(file, r)
      invariant bytesSent as nat + StripePayload(|file|, n, chunkIdx as nat) == StripePayload(|file|, n, r)
      decreases n + 8 - chunkIdx as nat
    {
      ghost var i, sofar := chunkIdx as nat, stream.buf;
      var readSize := SendOne(file, fileSize, chunkIdx, stream);
      Reassociate(sofar, ChunkBytes(i, Chunk(file, CHUNK_SIZE, i)), Tail(file, i + STREAMS));
      bytesSent := bytesSent + readSize;
      chunkIdx := chunkIdx + 8;
    }
    stream.SendChunk(END, []);
  }

  /** Indices of residue r from `from` on. */
  function Residue(n: nat, r: nat, from: nat): set<nat> { set i: nat | i < n && i % STREAMS == r && from <= i }

  lemma NextOfResidue(i: nat, from: nat)
    requires i % STREAMS == from % STREAMS && i > from
    ensures i >= from + STREAMS
  {
  }

  lemma {:induction false} StripePayloadIs(size: nat, n: nat, from: nat)
    ensures StripePayload(size, n, from) == Payload(size, CHUNK_SIZE, n, Residue(n, from % STREAMS, from))
    decreases if from < n then n - from else 0
  {
    var r := from % STREAMS;
    if from < n {
      StripePayloadIs(size, n, from + STREAMS);
      ResidueSplit(n, from);
      PayloadAdd(size, CHUNK_SIZE, n, Residue(n, r, from + STREAMS), from);
    } else {
      assert Residue(n, r, from) == {};
      PayloadEmpty(size, CHUNK_SIZE, n);
    }
  }

  lemma ResidueSplit(n: nat, from: nat)
    requires from < n
    ensures (from + STREAMS) % STREAMS == from % STREAMS
    ensures Residue(n, from % STREAMS, from) == Residue(n, from % STREAMS, from + STREAMS) + {from}
  {
    forall i: nat | i % STREAMS == from % STREAMS && i > from ensures i >= from + STREAMS {
      NextOfResidue(i, from);
    }
  }

  /** Bytes read by the first k loops. */
  function ReadBy(size: nat, k: nat): nat {
    if k == 0 then 0 else ReadBy(size, k - 1) + StripePayload(size, Count(size, CHUNK_SIZE), k - 1)
  }

  /** Indices the first k loops visit. */
  function LowResidues(n: nat, k: nat): set<nat> { set i: nat | i < n && i % STREAMS < k }

  lemma NextLoop(n: nat, k: nat)
    requires k < STREAMS
    ensures LowResidues(n, k + 1) == LowResidues(n, k) + Residue(n, k, k)
    ensures LowResidues(n, k) !! Residue(n, k, k)
  {
    forall i: nat ensures i % STREAMS <= i {
    }
  }

  lemma {:induction false} ReadByIs(size: nat, n: nat, k: nat)
    requires n == Count(size, CHUNK_SIZE) && k <= STREAMS
    ensures ReadBy(size, k) == Payload(size, CHUNK_SIZE, n, LowResidues(n, k))
  {
    if k > 0 {
      ReadByIs(size, n, k - 1);
      SameResidue(k - 1);
      StripePayloadIs(size, n, k - 1);
      NextLoop(n, k - 1);
      PayloadUnion(size, CHUNK_SIZE, n, LowResidues(n, k - 1), Residue(n, k - 1, k - 1));
    } else {
      assert LowResidues(n, 0) == {};
      PayloadEmpty(size, CHUNK_SIZE, n);
    }
  }

  /** The read sizes of the eight loops add up to the file. */
  lemma ReadsSumToFile(size: nat)
    ensures ReadBy(size, STREAMS) == size
  {
    var n := Count(size, CHUNK_SIZE);
    ReadByIs(size, n, STREAMS);
    PayloadAll(size, CHUNK_SIZE, n, LowResidues(n, STREAMS));
    LastOffset(size, CHUNK_SIZE);
  }
}

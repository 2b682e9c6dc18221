/**
 The sender's fields, batch reader and pump loops. Between two awaits a pump runs alone; at an
 await the other pumps may take any legal steps of PumpProtocol. Each method is shown to move the
 engine along legal runs of that protocol, so every theorem about runs holds of the loops.
 */
module SenderEngine {
  import opened Bytes
  import opened Chunking
  import opened PumpProtocol
  import opened Frames

  /** One element of a batch: the frame, its payload length and its chunk index. */
  datatype Item = Item(data: Octets, size: nat, index: nat)

  /** What a pump sees of its socket when it looks. */
  datatype Poll = Poll(open: bool, full: bool, throws: bool)

  function Indices(batch: seq<Item>): (r: seq<nat>)
    ensures |r| == |batch| && forall k :: 0 <= k < |r| ==> r[k] == batch[k].index
  {
    seq(|batch|, k requires 0 <= k < |batch| => batch[k].index)
  }

  ghost predicate Framed(file: Octets, batch: seq<Item>) {
    forall k :: 0 <= k < |batch| ==>
      && batch[k].data == Frame(file, batch[k].index)
      && batch[k].size == ChunkLen(|file|, CHUNK, batch[k].index)
  }

  /** How often pump p has sent. */
  function SendsBy(p: nat, trace: seq<Event>): nat {
    if trace == [] then 0
    else SendsBy(p, trace[..|trace| - 1]) + if trace[|trace| - 1] == Send(p) then 1 else 0
  }

  lemma SendsAppend(p: nat, trace: seq<Event>, e: Event)
    ensures SendsBy(p, trace + [e]) == SendsBy(p, trace) + if e == Send(p) then 1 else 0
  {
    assert (trace + [e])[..|trace|] == trace;
  }

  /** A P2P pump stops at a poll that shows the channel closed, or at which there is room and send throws. */
  predicate P2PStops(env: seq<Poll>, t: nat)
    requires t < |env|
  {
    !env[t].open || (!env[t].full && env[t].throws)
  }

  /**
   A relay pump looks whether its socket is open before each frame and while the buffer is full, but not
   between waiting and sending: at the first poll for a frame, that is unless it has just been waiting.
   */
  predicate RelayStops(env: seq<Poll>, t: nat)
    requires t < |env|
  {
    if env[t].full then !env[t].open
    else env[t].throws || (!env[t].open && (t == 0 || !env[t - 1].full))
  }

  ghost predicate RelayPassed(env: seq<Poll>, t: nat) {
    forall k :: 0 <= k < t && k < |env| ==> !RelayStops(env, k)
  }

  ghost predicate P2PPassed(env: seq<Poll>, t: nat) {
    forall k :: 0 <= k < t && k < |env| ==> !P2PStops(env, k)
  }

  /** How many polls found room in the buffer. */
  function Rooms(env: seq<Poll>): nat {
    if env == [] then 0 else Rooms(env[..|env| - 1]) + if env[|env| - 1].full then 0 else 1
  }

  lemma RoomsAppend(env: seq<Poll>, t: nat)
    requires t < |env|
    ensures Rooms(env[..t + 1]) == Rooms(env[..t]) + if env[t].full then 0 else 1
  {
    assert env[..t + 1][..t] == env[..t];
  }

  lemma FramedConcat(file: Octets, a: seq<Item>, b: seq<Item>)
    requires Framed(file, a) && Framed(file, b)
    ensures Framed(file, a + b) && Indices(a + b) == Indices(a) + Indices(b)
  {
  }

  /** s is where the events in trace lead from the start of the transfer. */
  ghost predicate Ran(trace: seq<Event>, s: Sender) {
    Legal(Init(s.size, s.kinds), trace) && Exec(Init(s.size, s.kinds), trace) == s
  }

  lemma RanInv(trace: seq<Event>, s: Sender)
    requires Ran(trace, s)
    ensures Inv(s)
  {
    Reached(s.size, s.kinds, trace);
  }

  lemma Extend(trace: seq<Event>, s: Sender, e: Event)
    requires Ran(trace, s) && Enabled(s, e)
    ensures Ran(trace + [e], Apply(s, e))
  {
    var es := Then(s, e, []);
    ExecConcat(Init(s.size, s.kinds), trace, [e]);
  }

  /** The wire holds the frames of the chunks sent, in order. */
  ghost predicate Carries(file: Octets, wire: seq<Octets>, sent: seq<nat>) {
    |wire| == |sent| && forall k :: 0 <= k < |wire| ==> wire[k] == Frame(file, sent[k])
  }

  lemma CarriesMore(file: Octets, wire: seq<Octets>, sent: seq<nat>, i: nat)
    requires Carries(file, wire, sent)
    ensures Carries(file, wire + [Frame(file, i)], sent + [i])
  {
  }

  /** A chunk cut out of a contiguous read is the chunk read on its own. */
  lemma BulkSlice(file: Octets, start: nat, count: nat, i: nat)
    requires i < count && start + count <= Count(|file|, CHUNK)
    ensures start * CHUNK < |file| && (start + i) * CHUNK < |file|
    ensures var big := file[start * CHUNK..Min((start + count) * CHUNK, |file|)];
      && i * CHUNK < |big|
      && big[i * CHUNK..Min(i * CHUNK + CHUNK, |big|)] == Chunk(file, CHUNK, start + i)
  {
    InRange(|file|, CHUNK, start);
    InRange(|file|, CHUNK, start + i);
    var base, end := start * CHUNK, Min((start + count) * CHUNK, |file|);
    var lo, hi := i * CHUNK, Min(i * CHUNK + CHUNK, end - base);
    SliceOfSlice(file, base, end, lo, hi);
  }

  lemma SliceOfSlice(file: Octets, base: nat, end: nat, lo: nat, hi: nat)
    requires base <= end <= |file| && lo <= hi <= end - base
    ensures file[base..end][lo..hi] == file[base + lo..base + hi]
  {
    var a, b := file[base..end][lo..hi], file[base + lo..base + hi];
    assert forall k :: 0 <= k < |a| ==> a[k] == file[base + lo + k] == b[k];
  }

  class TransferEngine {
    const file: Octets
    const totalChunks: nat

    var nextChunkIndex: nat
    var retryIndices: seq<nat>
    var sentChunks: nat
    var bytesTransferred: nat
    var completeFired: bool
    var sendingStarted: bool
    var pumpStarted: seq<bool>
    var wire: seq<Octets>           // every frame for which send() returned, in order

    ghost var st: Sender            // the protocol state these fields stand for
    ghost var trace: seq<Event>     // what has happened so far, at all pumps

    ghost predicate Valid()
      reads this
    {
      && Ran(trace, st)
      && st.size == |file| && st.total == totalChunks == Count(|file|, CHUNK)
      && |st.pumps| == |st.kinds| == |pumpStarted|
      && st.next == nextChunkIndex && st.retry == retryIndices
      && st.sentChunks == sentChunks && st.bytes == bytesTransferred && st.completeFired == completeFired
      && (forall q :: 0 <= q < |pumpStarted| ==> (pumpStarted[q] <==> !st.pumps[q].Dormant?))
      && (!sendingStarted ==> nextChunkIndex == sentChunks == bytesTransferred == 0)
      && (forall q :: 0 <= q < |pumpStarted| && pumpStarted[q] ==> sendingStarted)
      && Carries(file, wire, st.sent)
    }

    /** Nothing recorded so far is lost, and pump p is where it was. */
    twostate predicate Keeps(p: nat)
      reads this
    {
      && old(trace) <= trace && old(wire) <= wire
      && st.kinds == old(st.kinds) && |st.pumps| == old(|st.pumps|)
      && (p < |st.pumps| ==> st.pumps[p] == old(st.pumps)[p])
      && SendsBy(p, trace) == old(SendsBy(p, trace))
    }

    /** Nothing recorded so far is lost, and pump p has sent n times more. */
    twostate predicate Sends(p: nat, n: int)
      reads this
    {
      Grows() && SendsBy(p, trace) == old(SendsBy(p, trace)) + n
    }

    twostate predicate Grows()
      reads this
    {
      old(trace) <= trace && old(wire) <= wire && st.kinds == old(st.kinds) && |st.pumps| == old(|st.pumps|)
    }

    ghost function Last(): Option<Event>
      reads this
    {
      if trace == [] then None else Some(trace[|trace| - 1])
    }

    /** createOffer: fix the file and its chunk count. */
    constructor (file: Octets, kinds: seq<Kind>)
      ensures Valid() && !sendingStarted && wire == []
      ensures this.file == file && st == Init(|file|, kinds) && trace == []
    {
      this.file := file;
      totalChunks := Count(|file|, CHUNK);
      nextChunkIndex, retryIndices, sentChunks, bytesTransferred := 0, [], 0, 0;
      completeFired, sendingStarted, pumpStarted, wire := false, false, seq(|kinds|, i => false), [];
      st, trace := Init(|file|, kinds), [];
    }

    predicate MoreWork()
      reads this
    {
      nextChunkIndex < totalChunks || |retryIndices| > 0
    }

    /** Write one protocol step into the history. */
    ghost method Note(e: Event)
      requires Ran(trace, st) && Enabled(st, e)
      modifies this`st, this`trace
      ensures Ran(trace, st) && st == Apply(old(st), e) && trace == old(trace) + [e]
      ensures SendsBy(e.p, trace) == old(SendsBy(e.p, trace)) + if e.Send? then 1 else 0
    {
      Extend(trace, st, e);
      SendsAppend(e.p, trace, e);
      st, trace := Apply(st, e), trace + [e];
    }

    /** A step of pump p that changes nothing but where the pump is. */
    ghost method Moves(e: Event)
      requires Valid() && Enabled(st, e)
      requires e.Quit? || e.ReadDone? || e.BatchEnd? || e.Detect?
      modifies this`st, this`trace
      ensures Valid() && Sends(e.p, 0) && st == Apply(old(st), e) && trace == old(trace) + [e]
    {
      Note(e);
    }

    /** Launch the pump of one ready stream, unless it already has one. */
    method Launch(p: nat)
      requires Valid() && sendingStarted && p < |st.pumps|
      modifies this`pumpStarted, this`st, this`trace
      ensures Valid() && Grows()
      ensures st == if old(st).pumps[p].Dormant? then old(st).At(p, Looping) else old(st)
    {
      if !pumpStarted[p] {
        pumpStarted := pumpStarted[p := true];
        Note(Start(p));
      }
    }

    /** Called whenever a stream opens: every ready stream that has no pump gets one, others are left alone. */
    method TryStart(ready: seq<nat>)
      requires Valid() && forall k :: 0 <= k < |ready| ==> ready[k] < |st.pumps|
      modifies this
      ensures Valid() && Grows() && wire == old(wire)
      ensures forall q :: 0 <= q < |st.pumps| ==>
        st.pumps[q] == if q in ready && old(st).pumps[q].Dormant? then Looping else old(st).pumps[q]
    {
      if !sendingStarted {
        if |ready| == 0 {
          return;
        }
        sendingStarted := true;
        sentChunks, bytesTransferred, nextChunkIndex := 0, 0, 0;
      }
      for k := 0 to |ready|
        invariant Valid() && Grows() && sendingStarted && wire == old(wire)
        invariant forall q :: 0 <= q < |st.pumps| ==>
          st.pumps[q] == if q in ready[..k] && old(st).pumps[q].Dormant? then Looping else old(st).pumps[q]
      {
        Launch(ready[k]);
        assert ready[..k + 1] == ready[..k] + [ready[k]];
      }
      assert ready[..|ready|] == ready;
    }

    /** An await of pump p: callers know only that other pumps may have run meanwhile. */
    method Await(ghost p: nat)
      requires Valid() && p < |st.pumps|
      modifies this
      ensures Valid() && Keeps(p)
      ensures forall k :: |old(trace)| <= k < |trace| ==> trace[k].p != p
    {
    }

    method Requeue(indices: seq<nat>)
      modifies this`retryIndices
      ensures retryIndices == old(retryIndices) + indices
    {
      for k := 0 to |indices|
        invariant retryIndices == old(retryIndices) + indices[..k]
      {
        retryIndices := retryIndices + [indices[k]];
      }
      assert indices[..|indices|] == indices;
    }

    /** Shift up to 64 indices off the retry queue. */
    method ShiftRetries() returns (retryIdx: seq<nat>)
      modifies this`retryIndices
      ensures var k := Min(BATCH, |old(retryIndices)|);
        retryIdx == old(retryIndices)[..k] && retryIndices == old(retryIndices)[k..]
    {
      retryIdx := [];
      while |retryIdx| < BATCH && |retryIndices| > 0
        invariant |retryIdx| <= BATCH && |retryIdx| <= |old(retryIndices)|
        invariant retryIdx == old(retryIndices)[..|retryIdx|] && retryIndices == old(retryIndices)[|retryIdx|..]
        decreases |retryIndices|
      {
        retryIdx := retryIdx + [retryIndices[0]];
        retryIndices := retryIndices[1..];
      }
    }

    /** The synchronous part of _readBatch: take retries first, then fresh indices. */
    method ClaimIndices(ghost p: nat) returns (retryIdx: seq<nat>, startIdx: nat, count: int)
      requires Valid() && p < |st.pumps| && st.pumps[p].Looping?
      modifies this`nextChunkIndex, this`retryIndices, this`st, this`trace
      ensures Valid() && Sends(p, 0) && startIdx == old(nextChunkIndex)
      ensures !old(MoreWork()) ==> retryIdx == [] && count <= 0 && st == old(st)
      ensures old(MoreWork()) ==>
        && st == Apply(old(st), Claim(p))
        && count == Fresh(old(st))
        && retryIdx == old(retryIndices)[..Retries(old(st))]
        && retryIdx + Range(startIdx, count) == Ahead(old(st))[..Min(64, |Ahead(old(st))|)]
    {
      RanInv(trace, st);
      ClaimIs(st);
      retryIdx := ShiftRetries();
      startIdx := nextChunkIndex;
      count := Min(BATCH - |retryIdx|, totalChunks - startIdx);
      if count > 0 {
        nextChunkIndex := nextChunkIndex + count;
      }
      if st.MoreWork() {
        Note(Claim(p));
      }
    }

    /**
     Claim up to 64 indices, then read their frames: retried chunks one by one, fresh ones from a
     single slice. Other pumps may run during the reads. The indices claimed are those of the
     protocol, the first 64 of all that is queued or unclaimed, and each frame is the one of its index,
     whichever path produced it.
     */
    method ReadBatch(ghost p: nat) returns (batch: seq<Item>)
      requires Valid() && p < |st.pumps| && st.pumps[p].Looping?
      modifies this
      ensures Valid() && Sends(p, 0)
      ensures batch == [] <==> !old(MoreWork())
      ensures st.pumps[p] == if batch == [] then Looping else Sending(Indices(batch), 0)
      ensures Indices(batch) == Ahead(old(st))[..Min(64, |Ahead(old(st))|)] && Framed(file, batch)
      ensures Distinct(Indices(batch))
    {
      ghost var s := st;
      RanInv(trace, s);
      var retryIdx, startIdx, count := ClaimIndices(p);
      if |retryIdx| == 0 && count <= 0 {
        batch := [];
        return;
      }
      ClaimedWell(trace, s, p);
      batch := ReadClaimed(p, retryIdx, startIdx, count);
      Moves(ReadDone(p));
    }

    lemma ClaimedWell(tr: seq<Event>, s: Sender, p: nat)
      requires Enabled(s, Claim(p)) && Ran(tr, Apply(s, Claim(p)))
      ensures 0 < |ClaimedBatch(s)| <= BATCH && Distinct(ClaimedBatch(s))
      ensures ClaimedBatch(s) == Ahead(s)[..Min(64, |Ahead(s)|)]
    {
      ClaimIs(s);
      MoveClaim(s, p, 0);
      RanInv(tr, Apply(s, Claim(p)));
      HeldDistinct(Apply(s, Claim(p)), p);
    }

    /** The two read paths, one after the other. */
    method ReadClaimed(ghost p: nat, retryIdx: seq<nat>, startIdx: nat, count: int) returns (batch: seq<Item>)
      requires Valid() && p < |st.pumps| && startIdx + count <= totalChunks
      modifies this
      ensures Valid() && Keeps(p)
      ensures Framed(file, batch)
      ensures Indices(batch) == retryIdx + if count > 0 then Range(startIdx, count) else []
    {
      batch := ReadRetries(p, retryIdx);
      var contiguous := ReadFresh(p, startIdx, count);
      FramedConcat(file, batch, contiguous);
      batch := batch + contiguous;
    }

    /** One disk read for each retried chunk. */
    method ReadRetries(ghost p: nat, retryIdx: seq<nat>) returns (batch: seq<Item>)
      requires Valid() && p < |st.pumps|
      modifies this
      ensures Valid() && Keeps(p)
      ensures Framed(file, batch) && Indices(batch) == retryIdx
    {
      batch := [];
      for k := 0 to |retryIdx|
        invariant Valid() && Keeps(p)
        invariant Framed(file, batch) && Indices(batch) == retryIdx[..k]
      {
        var chunkIdx := retryIdx[k];
        var start := Min(chunkIdx * CHUNK, |file|);
        var end := Min(chunkIdx * CHUNK + CHUNK, |file|);
        var buf := file[start..end];
        Await(p);
        batch := batch + [Item(BigEndian(chunkIdx, 4) + buf, |buf|, chunkIdx)];
      }
    }

    /** One disk read for all fresh chunks, cut up in memory. */
    method ReadFresh(ghost p: nat, startIdx: nat, count: int) returns (batch: seq<Item>)
      requires Valid() && p < |st.pumps| && startIdx + count <= totalChunks
      modifies this
      ensures Valid() && Keeps(p)
      ensures Framed(file, batch) && Indices(batch) == if count > 0 then Range(startIdx, count) else []
    {
      batch := [];
      if count > 0 {
        BulkSlice(file, startIdx, count, 0);
        var byteStart := startIdx * CHUNK;
        var byteEnd := Min((startIdx + count) * CHUNK, |file|);
        var bigBuf := file[byteStart..byteEnd];
        Await(p);
        batch := CutUp(startIdx, count, bigBuf);
      }
    }

    /** Cut one contiguous read into frames. */
    method CutUp(startIdx: nat, count: nat, bigBuf: Octets) returns (batch: seq<Item>)
      requires count > 0 && startIdx + count <= Count(|file|, CHUNK) && startIdx * CHUNK < |file|
      requires bigBuf == file[startIdx * CHUNK..Min((startIdx + count) * CHUNK, |file|)]
      ensures Framed(file, batch) && Indices(batch) == Range(startIdx, count)
    {
      batch := [];
      for i := 0 to count
        invariant Framed(file, batch) && Indices(batch) == Range(startIdx, i)
      {
        var chunkIdx := startIdx + i;
        BulkSlice(file, startIdx, count, i);
        var offset := i * CHUNK;
        var end := Min(offset + CHUNK, |bigBuf|);
        var part := bigBuf[offset..end];
        batch := batch + [Item(BigEndian(chunkIdx, 4) + part, end - offset, chunkIdx)];
      }
    }

    /**
     Asked after each send, when the history already has it: completion fires iff every chunk of the
     file has now been sent exactly once and it has not fired before.
     */
    method CheckDone() returns (now: bool)
      requires Ran(trace, st) && st.total == totalChunks && st.sentChunks == sentChunks > 0
      requires completeFired ==> st.completeFired
      modifies this`completeFired
      ensures now <==> EachOnce(st.sent, totalChunks) && !old(completeFired)
      ensures completeFired <==> EachOnce(st.sent, totalChunks)
      ensures completeFired == st.completeFired
    {
      RanInv(trace, st);
      AllSentExactly(st);
      now := sentChunks == totalChunks && !completeFired;
      if now {
        completeFired := true;
      }
    }

    /** One more chunk has gone out. */
    method CountChunk(size: nat)
      requires Ran(trace, st) && st.total == totalChunks && st.sentChunks == sentChunks + 1
      requires completeFired ==> st.completeFired
      modifies this`sentChunks, this`bytesTransferred, this`completeFired
      ensures sentChunks == old(sentChunks) + 1 && bytesTransferred == old(bytesTransferred) + size
      ensures completeFired == st.completeFired
    {
      sentChunks := sentChunks + 1;
      bytesTransferred := bytesTransferred + size;
      var _ := CheckDone();
    }

    /** send() returned for the frame that pump p had next: account for it and see whether it was the last. */
    method Sent(ghost p: nat, item: Item)
      requires Valid() && Enabled(st, Send(p)) && item.index == st.pumps[p].batch[st.pumps[p].at]
      requires item.data == Frame(file, item.index) && item.size == ChunkLen(|file|, CHUNK, item.index)
      modifies this`wire, this`sentChunks, this`bytesTransferred, this`completeFired, this`st, this`trace
      ensures Valid() && Sends(p, 1) && wire == old(wire) + [item.data] && st == Apply(old(st), Send(p))
    {
      CarriesMore(file, wire, st.sent, item.index);
      Note(Send(p));
      assert st.sent == old(st).sent + [item.index];
      assert forall q :: 0 <= q < |pumpStarted| ==> (pumpStarted[q] <==> !st.pumps[q].Dormant?);
      wire := wire + [item.data];
      CountChunk(item.size);
    }

    /** The same for batch[i]. */
    method HandOver(ghost p: nat, batch: seq<Item>, i: nat)
      requires Valid() && Framed(file, batch)
      requires p < |st.pumps| && i < |batch| && st.pumps[p] == Sending(Indices(batch), i)
      modifies this`wire, this`sentChunks, this`bytesTransferred, this`completeFired, this`st, this`trace
      ensures Valid() && Sends(p, 1) && wire == old(wire) + [batch[i].data]
      ensures st == Apply(old(st), Send(p)) && st.pumps[p] == Sending(Indices(batch), i + 1)
    {
      Sent(p, batch[i]);
    }

    /** The relay pump's way out when its socket fails: hand the unsent rest back and return. */
    method GiveUp(ghost p: nat, batch: seq<Item>, i: nat)
      requires Valid()
      requires p < |st.pumps| && st.kinds[p].Relay? && i < |batch| && st.pumps[p] == Sending(Indices(batch), i)
      modifies this`retryIndices, this`st, this`trace
      ensures Valid() && Sends(p, 0) && st.pumps[p] == Exited && trace == old(trace) + [Fail(p)]
      ensures retryIndices == old(retryIndices) + Indices(batch[i..])
    {
      assert Indices(batch[i..]) == Indices(batch)[i..];
      Requeue(Indices(batch[i..]));
      Note(Fail(p));
    }

    /** Yield while the buffer is full and the socket open; t is the first poll at which either fails. */
    method WaitForRoom(ghost p: nat, env: seq<Poll>, t0: nat) returns (t: nat)
      requires Valid() && p < |st.pumps| && t0 <= |env| && RelayPassed(env, t0)
      modifies this
      ensures Valid() && Keeps(p)
      ensures t0 <= t <= |env| && (t < |env| && env[t].full ==> !env[t].open)
      ensures RelayPassed(env, t) && (t > t0 ==> env[t - 1].full)
      ensures Rooms(env[..t]) == Rooms(env[..t0])
    {
      t := t0;
      while t < |env| && env[t].full && env[t].open
        invariant Valid() && Keeps(p) && t0 <= t <= |env| && Rooms(env[..t]) == Rooms(env[..t0])
        invariant RelayPassed(env, t) && (t > t0 ==> env[t - 1].full)
        decreases |env| - t
      {
        RoomsAppend(env, t);
        Await(p);
        t := t + 1;
      }
    }

    /** There is room, or the socket has closed while the buffer was full. */
    method RelayTry(ghost p: nat, batch: seq<Item>, i: nat, env: seq<Poll>, t: nat) returns (sent: bool)
      requires Valid() && Framed(file, batch) && t < |env|
      requires p < |st.pumps| && st.kinds[p].Relay? && i < |batch| && st.pumps[p] == Sending(Indices(batch), i)
      requires env[t].open || env[t].full || (t > 0 && env[t - 1].full)
      requires env[t].full ==> !env[t].open
      modifies this
      ensures Valid() && sent == !RelayStops(env, t) && Sends(p, if sent then 1 else 0) && (sent ==> !env[t].full)
      ensures sent ==> st.pumps[p] == Sending(Indices(batch), i + 1)
      ensures !sent ==> st.pumps[p] == Exited && Last() == Some(Fail(p))
    {
      sent := !env[t].full && !env[t].throws;
      if sent {
        HandOver(p, batch, i);
      } else {
        GiveUp(p, batch, i);
      }
    }

    /** The relay loop's body: see whether the socket is open, wait for room, send; if not `sent`, give up or stop. */
    method RelayOne(ghost p: nat, batch: seq<Item>, i: nat, env: seq<Poll>, t0: nat) returns (t: nat, sent: bool)
      requires Valid() && Framed(file, batch) && t0 <= |env|
      requires p < |st.pumps| && st.kinds[p].Relay? && i < |batch| && st.pumps[p] == Sending(Indices(batch), i)
      requires RelayPassed(env, t0) && (t0 == 0 || !env[t0 - 1].full)
      modifies this
      ensures Valid() && t0 <= t <= |env| && Sends(p, Rooms(env[..t]) - Rooms(env[..t0])) && RelayPassed(env, t)
      ensures sent ==> st.pumps[p] == Sending(Indices(batch), i + 1) && t > t0 && !env[t - 1].full
      ensures !sent && t == |env| ==> st.pumps[p].Sending?
      ensures !sent && t < |env| ==> st.pumps[p] == Exited && Last() == Some(Fail(p)) && RelayStops(env, t)
    {
      t, sent := t0, false;
      if t == |env| {
        return;
      }
      if !env[t].open {
        GiveUp(p, batch, i);
        return;
      }
      t := WaitForRoom(p, env, t);
      if t == |env| {
        return;
      }
      sent := RelayTry(p, batch, i, env, t);
      if sent {
        RoomsAppend(env, t);
        t := t + 1;
      }
    }

    /** Push one batch into a relay socket; unless `more`, the pump has exited or `env` is over. */
    method RelayBlast(ghost p: nat, batch: seq<Item>, env: seq<Poll>, t0: nat) returns (t: nat, more: bool)
      requires Valid() && Framed(file, batch) && t0 <= |env|
      requires p < |st.pumps| && st.kinds[p].Relay? && st.pumps[p] == Sending(Indices(batch), 0)
      requires RelayPassed(env, t0) && (t0 == 0 || !env[t0 - 1].full)
      modifies this
      ensures Valid() && t0 <= t <= |env| && Sends(p, Rooms(env[..t]) - Rooms(env[..t0])) && RelayPassed(env, t)
      ensures more ==> st.pumps[p] == Sending(Indices(batch), |batch|) && t >= t0 + |batch|
      ensures more ==> t == 0 || !env[t - 1].full
      ensures !more && t == |env| ==> st.pumps[p].Sending?
      ensures !more && t < |env| ==> st.pumps[p] == Exited && Last() == Some(Fail(p)) && RelayStops(env, t)
    {
      t, more := t0, true;
      var i := 0;
      while i < |batch|
        invariant Valid() && t0 + i <= t <= |env| && Sends(p, Rooms(env[..t]) - Rooms(env[..t0]))
        invariant i <= |batch| && st.pumps[p] == Sending(Indices(batch), i)
        invariant RelayPassed(env, t) && (t == 0 || !env[t - 1].full)
        decreases |batch| - i
      {
        t, more := RelayOne(p, batch, i, env, t);
        if !more {
          return;
        }
        i := i + 1;
      }
    }

    /**
     A relay pump over a socket that behaves as `env` says; the run stops early, after t polls, only if
     `env` does. It sends once at every poll that found room, it only ever takes protocol steps, it
     returns only for want of work or at the first poll that stops it, and then it holds no chunk.
     */
    method RelayPump(ghost p: nat, env: seq<Poll>) returns (finished: bool, t: nat)
      requires Valid() && p < |st.pumps| && st.kinds[p].Relay? && st.pumps[p].Looping?
      modifies this
      ensures Valid() && t <= |env| && Sends(p, Rooms(env[..t])) && RelayPassed(env, t)
      ensures !finished ==> t == |env| && st.pumps[p].Sending?
      ensures finished ==> st.pumps[p] == Exited
      ensures finished ==> Last() == Some(Quit(p)) || (Last() == Some(Fail(p)) && t < |env| && RelayStops(env, t))
    {
      t := 0;
      assert env[..0] == [];
      while MoreWork()
        invariant Valid() && t <= |env| && Sends(p, Rooms(env[..t])) && st.pumps[p].Looping?
        invariant RelayPassed(env, t) && (t == 0 || !env[t - 1].full)
        decreases |env| - t
      {
        var batch := ReadBatch(p);
        if |batch| == 0 {
          assert false; // _moreWork held and nothing ran in between
        }
        var more;
        t, more := RelayBlast(p, batch, env, t);
        if !more {
          finished := t < |env|;
          return;
        }
        Moves(BatchEnd(p, true));
      }
      Moves(Quit(p));
      finished := true;
    }

    /** The P2P blast loop: stops broken when the channel is seen closed or send throws, else parks or finishes. */
    method P2PBlast(ghost p: nat, batch: seq<Item>, env: seq<Poll>, t0: nat) returns (t: nat, bi: nat, broken: bool)
      requires Valid() && Framed(file, batch) && t0 <= |env|
      requires p < |st.pumps| && st.pumps[p] == Sending(Indices(batch), 0) && P2PPassed(env, t0)
      modifies this
      ensures Valid() && t0 <= t <= |env| && Sends(p, Rooms(env[..t]) - Rooms(env[..t0]))
      ensures bi <= |batch| && st.pumps[p] == Sending(Indices(batch), bi)
      ensures P2PPassed(env, t)
      ensures broken ==> bi < |batch| && t < |env| && P2PStops(env, t)
      ensures !broken ==> t == |env| || (bi == |batch| && t >= t0 + |batch|)
    {
      t, bi, broken := t0, 0, false;
      while bi < |batch|
        invariant Valid() && t0 + bi <= t <= |env| && Sends(p, Rooms(env[..t]) - Rooms(env[..t0]))
        invariant bi <= |batch| && st.pumps[p] == Sending(Indices(batch), bi)
        invariant P2PPassed(env, t)
        decreases |env| - t
      {
        if t == |env| {
          return;
        }
        if !env[t].open {
          broken := true;
          return;
        }
        RoomsAppend(env, t);
        if env[t].full { // parked until onbufferedamountlow calls blast again
          Await(p);
        } else if env[t].throws {
          broken := true;
          return;
        } else {
          HandOver(p, batch, bi);
          bi := bi + 1;
        }
        t := t + 1;
      }
    }

    /** Hand the unsent rest back and return. */
    method ReturnRest(ghost p: nat, rest: seq<nat>)
      requires Valid() && p < |st.pumps| && st.kinds[p].P2P? && st.pumps[p] == Failing(rest)
      modifies this`retryIndices, this`st, this`trace
      ensures Valid() && Sends(p, 0) && st == Apply(old(st), HandBack(p)) && trace == old(trace) + [HandBack(p)]
      ensures retryIndices == old(retryIndices) + rest
    {
      Requeue(rest);
      Note(HandBack(p));
    }

    /** The blast loop broke: one await later the rest is requeued, and the caller then returns for good. */
    method HandBackRest(ghost p: nat, batch: seq<Item>, bi: nat)
      requires Valid()
      requires p < |st.pumps| && st.kinds[p].P2P? && bi < |batch| && st.pumps[p] == Sending(Indices(batch), bi)
      modifies this
      ensures Valid() && Sends(p, 0) && st.pumps[p] == Exited && Last() == Some(HandBack(p))
      ensures |retryIndices| >= |batch| - bi && retryIndices[|retryIndices| - (|batch| - bi)..] == Indices(batch[bi..])
    {
      assert Indices(batch[bi..]) == Indices(batch)[bi..];
      Moves(Detect(p));
      Await(p);
      ReturnRest(p, Indices(batch[bi..]));
    }

    /** Blast one batch, then see what became of the channel; unless `more`, the pump has exited or `env` is over. */
    method P2PBatch(ghost p: nat, batch: seq<Item>, env: seq<Poll>, t0: nat) returns (t: nat, more: bool)
      requires Valid() && Framed(file, batch) && 0 < |batch| && t0 <= |env|
      requires p < |st.pumps| && st.kinds[p].P2P? && st.pumps[p] == Sending(Indices(batch), 0) && P2PPassed(env, t0)
      modifies this
      ensures Valid() && t0 <= t <= |env| && Sends(p, Rooms(env[..t]) - Rooms(env[..t0])) && P2PPassed(env, t)
      ensures more ==> st.pumps[p] == Looping && t > t0
      ensures !more && t == |env| ==> st.pumps[p].Sending?
      ensures more ==> t < |env| && env[t].open
      ensures !more && t < |env| ==>
        st.pumps[p] == Exited && P2PStops(env, t) && Last() in {Some(HandBack(p)), Some(BatchEnd(p, false))}
    {
      var bi, broken;
      more := false;
      t, bi, broken := P2PBlast(p, batch, env, t0);
      if broken {
        HandBackRest(p, batch, bi);
      } else if t < |env| {
        Await(p);
        Moves(BatchEnd(p, env[t].open));
        more := env[t].open;
      }
    }

    /** A P2P pump over a channel that behaves as `env` says. A channel once seen closed stays closed. */
    method P2PPump(ghost p: nat, env: seq<Poll>) returns (finished: bool, t: nat)
      requires Valid() && p < |st.pumps| && st.kinds[p].P2P? && st.pumps[p].Looping?
      modifies this
      ensures Valid() && t <= |env| && Sends(p, Rooms(env[..t])) && P2PPassed(env, t)
      ensures !finished ==> t == |env| && st.pumps[p].Sending?
      ensures finished ==> st.pumps[p] == Exited
      ensures finished && Last() != Some(Quit(p)) ==>
        t < |env| && P2PStops(env, t) && Last() in {Some(HandBack(p)), Some(BatchEnd(p, false))}
    {
      t := 0;
      assert env[..0] == [];
      while MoreWork()
        invariant Valid() && t <= |env| && Sends(p, Rooms(env[..t])) && st.pumps[p].Looping? && P2PPassed(env, t)
        decreases |env| - t
      {
        var batch := ReadBatch(p);
        if |batch| == 0 {
          assert false; // _moreWork held and nothing ran in between
        }
        var more;
        t, more := P2PBatch(p, batch, env, t);
        if !more {
          finished := t < |env|;
          return;
        }
      }
      Moves(Quit(p));
      finished := true;
    }

    /** When completion fires, every frame of the file has gone into some socket and every byte is counted. */
    lemma CompletionCoversFile()
      requires Valid() && completeFired
      ensures bytesTransferred == |file| && |wire| == totalChunks
      ensures forall i :: 0 <= i < totalChunks ==> Frame(file, i) in wire
    {
      CompletionAccounting(st.size, st.kinds, trace);
      RanInv(trace, st);
      forall i: nat | i < totalChunks ensures Frame(file, i) in wire {
        TimesIn(st.sent, i);
        var k :| 0 <= k < |st.sent| && st.sent[k] == i;
        assert wire[k] == Frame(file, i);
      }
    }
  }
}

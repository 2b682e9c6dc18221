/**
 The receiving process: a shared file behind a mutex, an atomic byte counter, and one loop per
 stream. At every await the other tasks may take any steps of CliReceiver.
 */
module CliProcess {
  import opened Bytes
  import opened CliProtocol
  import opened CliTransfer
  import opened CliReceiver

  /** The part of the file header that matters here. */
  datatype FileHeader = FileHeader(size: nat, chunkSize: nat)

  class Process {
    const streams: seq<TcpStream>
    var content: Octets
    var position: nat
    var chunkSize: nat
    var created: bool
    var bytesReceived: u64

    ghost const file: Octets
    ghost var st: Session
    ghost var trace: seq<Event>

    ghost predicate Valid()
      reads this, streams
    {
      && Legal(Init(file), trace) && Exec(Init(file), trace) == st
      && |streams| == |st.tasks| == STREAMS
      && chunkSize == CHUNK_SIZE && content == st.out && bytesReceived as nat == st.counter
      && (forall r :: 0 <= r < STREAMS ==> streams[r].buf == st.tasks[r].rest)
      && (forall q, r :: 0 <= q < r < STREAMS ==> streams[q] != streams[r])
    }

    /**
     Read the header from stream 0 and take the file's size and the chunk size out of it with `decode`. If
     the header does not parse, give up before any file is created; otherwise create the output file at the
     length the header gives, zero-filled. For the sender's own header that is the transfer's initial state.
     */
    constructor (streams: seq<TcpStream>, decode: Octets -> Option<FileHeader>,
                 ghost file: Octets, ghost header: Octets)
      requires |streams| == STREAMS && |header| < TWO32
      requires forall q, r :: 0 <= q < r < STREAMS ==> streams[q] != streams[r]
      requires forall r :: 0 <= r < STREAMS ==>
        streams[r].buf == (if r == 0 then MessageBytes(header) else []) + Tail(file, r)
      modifies streams
      ensures this.file == file && this.streams == streams && trace == [] && bytesReceived == 0
      ensures forall r :: 0 <= r < STREAMS ==> streams[r].buf == Tail(file, r)
      ensures created == decode(header).Some?
      ensures created ==> content == Zeros(decode(header).value.size) && chunkSize == decode(header).value.chunkSize
      ensures !created ==> content == []
      ensures decode(header) == Some(FileHeader(|file|, CHUNK_SIZE)) ==> Valid()
    {
      this.streams, this.file := streams, file;
      content, position, chunkSize, bytesReceived, created := [], 0, 0, 0, false;
      st, trace := Init(file), [];
      new;
      MessageRoundTrip(header, Tail(file, 0));
      var headerData := streams[0].RecvMessage();
      var fileHeader := decode(headerData.value);
      if fileHeader.Some? {
        created := true;
        chunkSize := fileHeader.value.chunkSize;
        content := Zeros(fileHeader.value.size);
      }
      forall r | 0 <= r < STREAMS ensures streams[r].buf == Tail(file, r) {
        assert r > 0 ==> [] + Tail(file, r) == Tail(file, r);
      }
    }

    /** An await of task r. */
    method Await(r: nat)
      requires Valid() && r < STREAMS
      modifies this, streams
      ensures Valid() && old(trace) <= trace && st.tasks[r] == old(st).tasks[r]
      ensures forall k :: |old(trace)| <= k < |trace| ==> trace[k].r != r
    {
    }

    lemma Record(tr: seq<Event>, s: Session, e: Event)
      requires Legal(Init(file), tr) && Exec(Init(file), tr) == s && Enabled(s, e)
      ensures Legal(Init(file), tr + [e]) && Exec(Init(file), tr + [e]) == Apply(s, e)
    {
      AppendEvent(Init(file), tr, e);
    }

    /** seek then write_all, under the lock. */
    method WriteChunk(r: nat, index: nat, data: Octets)
      requires Valid() && r < STREAMS && st.tasks[r].phase == Holding(index, data)
      modifies this
      ensures Valid() && st == Apply(old(st), Write(r)) && trace == old(trace) + [Write(r)]
    {
      Record(trace, st, Write(r));
      var offset := Wrap(index * chunkSize);
      position := offset;
      content := WriteAt(content, position, data);
      position := position + |data|;
      st, trace := Apply(st, Write(r)), trace + [Write(r)];
    }

    method AddBytes(r: nat, len: nat)
      requires Valid() && r < STREAMS && st.tasks[r].phase == Counting(len)
      modifies this
      ensures Valid() && st == Apply(old(st), CountUp(r)) && trace == old(trace) + [CountUp(r)]
    {
      Record(trace, st, CountUp(r));
      bytesReceived := Wrap(bytesReceived as nat + len) as u64;
      st, trace := Apply(st, CountUp(r)), trace + [CountUp(r)];
    }

    method Receive(r: nat) returns (got: Received)
      requires Valid() && r < STREAMS && st.tasks[r].phase.Ready?
      modifies this, streams[r]
      ensures Valid() && st == Apply(old(st), Recv(r)) && trace == old(trace) + [Recv(r)]
      ensures got == DecodeChunk(old(st).tasks[r].rest).0
    {
      Record(trace, st, Recv(r));
      got := streams[r].RecvChunk();
      st, trace := Apply(st, Recv(r)), trace + [Recv(r)];
    }

    /**
     One receive task, whatever the others do meanwhile: it ends, its stream is used up, and for
     streams that carry a file within u64 range it ends at the marker, never on an error.
     */
    method ReceiveTask(r: nat)
      requires Valid() && r < STREAMS && st.tasks[r].phase.Ready?
      modifies this, streams
      ensures Valid() && old(trace) <= trace
      ensures st.tasks[r].phase.Done? || st.tasks[r].phase.Broken?
      ensures |file| + CHUNK_SIZE - 1 < TWO64 ==> st.tasks[r].phase.Done?
    {
      while true
        invariant Valid() && old(trace) <= trace && st.tasks[r].phase.Ready?
        decreases |st.tasks[r].rest|
      {
        Await(r);
        ghost var before := st.tasks[r].rest;
        var got := Receive(r);
        if !got.Got? || got.index == END as nat {
          break;
        }
        Await(r); // file.lock()
        WriteChunk(r, got.index, got.data);
        Await(r);
        AddBytes(r, |got.data|);
        assert |st.tasks[r].rest| < |before|;
      }
      if |file| + CHUNK_SIZE - 1 < TWO64 {
        CliEndToEnd(file, trace, x => "");
      }
    }
  }

  lemma {:induction false} AppendEvent(s: Session, es: seq<Event>, e: Event)
    requires Legal(s, es) && Enabled(Exec(s, es), e)
    ensures Legal(s, es + [e]) && Exec(s, es + [e]) == Apply(Exec(s, es), e)
    decreases |es|
  {
    if es == [] {
      assert [e][1..] == [];
    } else {
      assert (es + [e])[1..] == es[1..] + [e];
      AppendEvent(Apply(s, es[0]), es[1..], e);
    }
  }
}

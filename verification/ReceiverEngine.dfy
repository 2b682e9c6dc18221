/** The receiver's objects: the engine's fields and drain loop, and the streaming downloader. */
module ReceiverEngine {
  import opened Bytes
  import opened ReceiverProtocol

  class StreamingDownloader {
    var mode: Mode
    var fallbackChunks: seq<Octets>
    var posted: seq<Message>        // messages to the service worker, in order
    var blobs: seq<Octets>          // in-memory downloads triggered

    function State(): Download
      reads this
    {
      Download(mode, fallbackChunks, posted, blobs)
    }

    constructor ()
      ensures State() == FRESH_DOWNLOAD
    {
      mode, fallbackChunks, posted, blobs := Undecided, [], [], [];
    }

    method Write(chunk: Octets)
      modifies this
      ensures Some(State()) == WriteAll(Some(old(State())), [chunk])
    {
      if mode.Sw? {
        posted := posted + [Data(chunk)];
        assert DataMessages([chunk]) == [Data(chunk)];
      } else {
        fallbackChunks := fallbackChunks + [chunk];
      }
    }

    method Close()
      modifies this
      ensures Some(State()) == CloseDownload(Some(old(State())))
    {
      if mode.Sw? {
        posted := posted + [Message.Close];
      } else {
        var blob: Octets, parts := [], fallbackChunks;
        for k := 0 to |parts|
          invariant blob == Flatten(parts[..k]) && unchanged(this)
        {
          FlattenAppend(parts[..k], parts[k]);
          assert parts[..k + 1] == parts[..k] + [parts[k]];
          blob := blob + parts[k];
        }
        assert parts[..|parts|] == parts;
        blobs := blobs + [blob];
        fallbackChunks := [];
      }
    }
  }

  lemma WriteAllCompose(d: Option<Download>, a: seq<Octets>, b: seq<Octets>)
    ensures WriteAll(WriteAll(d, a), b) == WriteAll(d, a + b)
  {
    if d.Some? {
      assert d.value.posted + DataMessages(a) + DataMessages(b) == d.value.posted + DataMessages(a + b);
      assert d.value.fallback + a + b == d.value.fallback + (a + b);
    }
  }

  lemma WriteAllNone(d: Option<Download>)
    ensures WriteAll(d, []) == d
  {
    if d.Some? {
      assert d.value.posted + DataMessages([]) == d.value.posted;
      assert d.value.fallback + [] == d.value.fallback;
    }
  }

  lemma DropMore(w: seq<Octets>, written: seq<Octets>, x: Octets)
    requires w <= written
    ensures w <= written + [x] && Drop(written + [x], |w|) == Drop(written, |w|) + [x]
  {
  }

  class Engine {
    var totalChunks: nat
    var receivedChunks: nat
    var bytesTransferred: nat
    var nextWriteIndex: nat
    var pendingChunks: map<nat, Octets>
    var downloader: StreamingDownloader?

    ghost var written: seq<Octets>
    ghost var finishes: nat
    ghost var skipped: nat
    ghost var atInfo: nat

    ghost function Order(): Core
      reads this
    {
      Core(nextWriteIndex, pendingChunks, receivedChunks, bytesTransferred, written)
    }

    ghost function Dl(): Option<Download>
      reads this, downloader
    {
      if downloader == null then None else Some(downloader.State())
    }

    ghost function State(): Receiver
      reads this, downloader
    {
      Receiver(Order(), totalChunks, Dl(), finishes, skipped, atInfo)
    }

    constructor ()
      ensures State() == INITIAL
    {
      totalChunks, receivedChunks, bytesTransferred, nextWriteIndex, pendingChunks := 0, 0, 0, 0, map[];
      downloader := null;
      written, finishes, skipped, atInfo := [], 0, 0, 0;
    }

    /** _writeChunk: dropped silently while there is no downloader. */
    method WriteChunk(chunk: Octets)
      modifies this`written, downloader
      ensures written == old(written) + [chunk]
      ensures Dl() == WriteAll(old(Dl()), [chunk])
    {
      if downloader != null {
        downloader.Write(chunk);
      }
      written := written + [chunk];
    }

    /** Write a chunk that is next in order, then every pending chunk that follows on. */
    method WriteAndDrain(chunk: Octets)
      modifies this`nextWriteIndex, this`pendingChunks, this`written, downloader
      ensures Order() == Drain(Emit(old(Order()), chunk))
      ensures old(written) <= written && Dl() == WriteAll(old(Dl()), Drop(written, |old(written)|))
    {
      ghost var target := Drain(Emit(Order(), chunk));
      ghost var w := written;
      WriteChunk(chunk);
      nextWriteIndex := nextWriteIndex + 1;
      assert Drop(written, |w|) == [chunk];
      while nextWriteIndex in pendingChunks
        invariant Drain(Order()) == target
        invariant w <= written && Dl() == WriteAll(old(Dl()), Drop(written, |w|))
        decreases |pendingChunks|
      {
        var next := pendingChunks[nextWriteIndex];
        RemoveShrinks(pendingChunks, nextWriteIndex);
        pendingChunks := pendingChunks - {nextWriteIndex};
        WriteAllCompose(old(Dl()), Drop(written, |w|), [next]);
        DropMore(w, written, next);
        WriteChunk(next);
        nextWriteIndex := nextWriteIndex + 1;
      }
    }

    method FinishDownload()
      modifies this`pendingChunks, this`finishes, downloader
      ensures State() == Finish(old(State())) && pendingChunks == map[]
    {
      if downloader != null {
        downloader.Close();
      }
      pendingChunks := map[];
      finishes := finishes + 1;
    }

    /** A binary message from any stream. */
    method HandleChunk(data: Octets)
      modifies this, downloader
      ensures State() == Deliver(old(State()), data)
    {
      if |data| < 4 {
        return; // getUint32 throws
      }
      var index := FromBigEndian(data[..4]);
      if index < nextWriteIndex || index in pendingChunks {
        return;
      }
      var chunkData := data[4..];
      receivedChunks := receivedChunks + 1;
      bytesTransferred := bytesTransferred + |chunkData|;
      if index == nextWriteIndex {
        WriteAndDrain(chunkData);
      } else {
        pendingChunks := pendingChunks[index := chunkData];
        assert Drop(written, |written|) == [];
        WriteAllNone(Dl());
      }
      assert Order() == Accept(old(Order()), index, chunkData);
      if receivedChunks == totalChunks {
        FinishDownload();
      }
    }

    /** A file-info message on any control path; only the first counts. */
    method OnFileInfo(total: nat)
      modifies this
      ensures State() == OnInfo(old(State()), total)
      ensures old(downloader) != null ==> downloader == old(downloader) && State() == old(State())
      ensures old(downloader) == null ==> totalChunks == total && downloader != null && fresh(downloader)
    {
      if downloader == null {
        downloader := new StreamingDownloader();
        totalChunks := total;
        skipped, atInfo := nextWriteIndex, receivedChunks;
      }
    }

    /** prepare() resolves: from now on the download has a mode. */
    method OnPrepareDone(mode: Mode)
      requires downloader != null && downloader.mode.Undecided? && !mode.Undecided?
      modifies this`skipped, downloader
      ensures State() == OnPrepared(old(State()), mode)
    {
      downloader.mode := mode;
      if mode.Sw? && finishes == 0 {
        skipped := nextWriteIndex;
      }
    }
  }
}

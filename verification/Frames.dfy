/** The browser wire frame: a 4-byte big-endian chunk index followed by the chunk's bytes. */
module Frames {
  import opened Bytes
  import opened Chunking

  const CHUNK: nat := 65532                 // payload of a full frame
  const MAX_INDEX_COUNT: nat := 0x1_0000_0000
  const SCTP_MESSAGE_LIMIT: nat := 65536    // section 6.1 of RFC 8841
  const RELAY_READ_LIMIT: nat := 512 * 1024

  function Frame(file: Octets, i: nat): (r: Octets)
    ensures |r| == 4 + ChunkLen(|file|, CHUNK, i)
  {
    BigEndian(i, 4) + Chunk(file, CHUNK, i)
  }

  function FrameIndex(data: Octets): nat
    requires |data| >= 4
  {
    FromBigEndian(data[..4])
  }

  /** setUint32 truncates: the index survives for every chunk iff there are at most 2^32 chunks. */
  lemma IndexRoundTrip(file: Octets)
    ensures (forall i :: 0 <= i < Count(|file|, CHUNK) ==> FrameIndex(Frame(file, i)) == i)
        <==> |file| <= MAX_INDEX_COUNT * CHUNK
  {
    var n := Count(|file|, CHUNK);
    forall i | 0 <= i < n ensures FrameIndex(Frame(file, i)) == i % MAX_INDEX_COUNT {
      FrameIndexMod(file, i);
    }
    InRange(|file|, CHUNK, MAX_INDEX_COUNT);
    if |file| <= MAX_INDEX_COUNT * CHUNK {
      assert n <= MAX_INDEX_COUNT;
    } else {
      FrameIndexMod(file, MAX_INDEX_COUNT);
      assert MAX_INDEX_COUNT < n;
    }
  }

  lemma FrameIndexMod(file: Octets, i: nat)
    ensures FrameIndex(Frame(file, i)) == i % MAX_INDEX_COUNT
  {
    BigEndianRoundTrip(i, 4);
    Widths();
    assert Frame(file, i)[..4] == BigEndian(i, 4);
  }

  lemma Decodes(file: Octets, i: nat)
    requires i < MAX_INDEX_COUNT
    ensures FrameIndex(Frame(file, i)) == i && Frame(file, i)[4..] == Chunk(file, CHUNK, i)
  {
    FrameIndexMod(file, i);
  }

  /** Every frame of a real chunk carries data and fits one data-channel message and one relay read. */
  lemma FrameFits(file: Octets, i: nat)
    requires i < Count(|file|, CHUNK)
    ensures 5 <= |Frame(file, i)| <= SCTP_MESSAGE_LIMIT == 65536 <= RELAY_READ_LIMIT == 524288
    ensures i + 1 < Count(|file|, CHUNK) ==> |Frame(file, i)| == 65536
  {
    InRange(|file|, CHUNK, i);
    InRange(|file|, CHUNK, i + 1);
  }

  /** The frame octet by octet: the index, most significant octet first, then the file's bytes from 65532 * i on. */
  lemma FrameLayout(file: Octets, i: nat)
    requires i < Count(|file|, CHUNK)
    ensures 65532 * i < |file|
    ensures Frame(file, i)[..4] == [i / 0x100_0000 % 256, i / 0x1_0000 % 256, i / 0x100 % 256, i % 256]
    ensures Frame(file, i)[4..] == file[65532 * i..Min(65532 * i + 65532, |file|)]
  {
    InRange(|file|, CHUNK, i);
    FourOctets(i);
    assert Frame(file, i)[..4] == BigEndian(i, 4);
    assert Frame(file, i)[4..] == Chunk(file, CHUNK, i);
  }
}

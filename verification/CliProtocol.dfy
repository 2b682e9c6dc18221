/** The native client's framing over one TCP stream, with the casts Rust performs. */
module CliProtocol {
  import opened Bytes

  newtype u64 = x: int | 0 <= x < 0x1_0000_0000_0000_0000

  const TWO32: nat := 0x1_0000_0000
  const TWO64: nat := 0x1_0000_0000_0000_0000
  const END: u64 := 0xFFFF_FFFF_FFFF_FFFF

  /** Wrapping u64 arithmetic. */
  function Wrap(x: nat): (r: nat)
    ensures r < TWO64
    ensures x < TWO64 ==> r == x
  {
    x % TWO64
  }

  /** What reading one chunk frame yields; a length below 8 underflows and panics. */
  datatype Received = Got(index: nat, data: Octets) | Eof | Panic

  function MessageBytes(data: Octets): Octets { BigEndian(|data|, 4) + data }

  function ChunkBytes(index: nat, data: Octets): (r: Octets)
    ensures |r| == 12 + |data|
  {
    BigEndian(8 + |data|, 4) + BigEndian(index, 8) + data
  }

  function DecodeMessage(s: Octets): (Option<Octets>, Octets) {
    if |s| < 4 then (None, [])
    else
      var len := FromBigEndian(s[..4]);
      if |s| < 4 + len then (None, []) else (Some(s[4..4 + len]), s[4 + len..])
  }

  function DecodeChunk(s: Octets): (r: (Received, Octets))
    ensures r.0.Got? ==> |r.1| < |s|
  {
    if |s| < 12 then (Eof, [])
    else
      var len := FromBigEndian(s[..4]);
      if len < 8 then (Panic, s[12..])
      else if |s| < 4 + len then (Eof, [])
      else (Got(FromBigEndian(s[4..12]), s[12..4 + len]), s[4 + len..])
  }

  lemma MessagePrefix(data: Octets, rest: Octets)
    ensures var s := MessageBytes(data) + rest;
      FromBigEndian(s[..4]) == |data| % TWO32 && s[4..] == data + rest
  {
    var s := MessageBytes(data) + rest;
    BigEndianRoundTrip(|data|, 4);
    Widths();
    assert s[..4] == BigEndian(|data|, 4);
  }

  /** A message comes back intact, consuming exactly its own bytes, iff its length fits the prefix. */
  lemma MessageRoundTrip(data: Octets, rest: Octets)
    ensures DecodeMessage(MessageBytes(data) + rest) == (Some(data), rest) <==> |data| < TWO32
  {
    var s := MessageBytes(data) + rest;
    MessagePrefix(data, rest);
    Skip(s, 4, |data|);
    if |data| >= TWO32 {
      assert |data| % TWO32 < |data|;
      assert |DecodeMessage(s).0.value| < |data|;
    }
  }

  /** What the reader sees of a frame's two integers. */
  lemma ChunkPrefix(index: nat, data: Octets, rest: Octets)
    ensures var s := ChunkBytes(index, data) + rest;
      && FromBigEndian(s[..4]) == (8 + |data|) % TWO32
      && FromBigEndian(s[4..12]) == index % TWO64
      && s[12..] == data + rest
  {
    var s := ChunkBytes(index, data) + rest;
    BigEndianRoundTrip(8 + |data|, 4);
    BigEndianRoundTrip(index, 8);
    Widths();
    assert s[..4] == BigEndian(8 + |data|, 4) && s[4..12] == BigEndian(index, 8);
  }

  /** A chunk frame comes back intact, consuming exactly its own bytes, iff both integers fit. */
  lemma ChunkRoundTrip(index: nat, data: Octets, rest: Octets)
    ensures DecodeChunk(ChunkBytes(index, data) + rest) == (Got(index, data), rest)
       <==> index < TWO64 && 8 + |data| < TWO32
  {
    var s := ChunkBytes(index, data) + rest;
    ChunkPrefix(index, data, rest);
    if 8 + |data| < TWO32 {
      SliceAfter(s, data, rest);
    } else {
      assert (8 + |data|) % TWO32 != 8 + |data|;
    }
  }

  lemma Skip(s: Octets, a: nat, n: nat)
    requires a + n <= |s|
    ensures s[a..][..n] == s[a..a + n] && s[a..][n..] == s[a + n..]
  {
  }

  lemma SliceAfter(s: Octets, data: Octets, rest: Octets)
    requires |s| >= 12 && s[12..] == data + rest
    ensures |s| == 12 + |data| + |rest| && s[12..12 + |data|] == data && s[12 + |data|..] == rest
  {
    Skip(s, 12, |data|);
  }

  /** The wire layout, octet by octet: lengths and index most significant octet first. */
  lemma MessageLayout(data: Octets)
    requires |data| < TWO32
    ensures var n, m := |data|, MessageBytes(data);
      && m[..4] == [n / 0x100_0000, n / 0x1_0000 % 256, n / 0x100 % 256, n % 256]
      && m[4..] == data
  {
    FourOctets(|data|);
    assert MessageBytes(data)[..4] == BigEndian(|data|, 4);
  }

  lemma ChunkLayout(index: nat, data: Octets)
    requires index < TWO64 && 8 + |data| < TWO32
    ensures var n, c, hi := 8 + |data|, ChunkBytes(index, data), index / TWO32;
      && c[..4] == [n / 0x100_0000, n / 0x1_0000 % 256, n / 0x100 % 256, n % 256]
      && c[4..8] == [hi / 0x100_0000, hi / 0x1_0000 % 256, hi / 0x100 % 256, hi % 256]
      && c[8..12] == [index / 0x100_0000 % 256, index / 0x1_0000 % 256, index / 0x100 % 256, index % 256]
      && c[12..] == data
  {
    ChunkFields(index, data);
    FittingOctets(8 + |data|);
    FittingOctets(index / TWO32);
    FourOctets(index);
  }

  lemma ChunkFields(index: nat, data: Octets)
    ensures var c := ChunkBytes(index, data);
      && c[..4] == BigEndian(8 + |data|, 4)
      && c[4..8] == BigEndian(index / TWO32, 4)
      && c[8..12] == BigEndian(index, 4)
      && c[12..] == data
  {
    EightOctets(index);
  }

  lemma FittingOctets(n: nat)
    requires n < TWO32
    ensures n / 0x100_0000 < 256
    ensures BigEndian(n, 4) == [n / 0x100_0000, n / 0x1_0000 % 256, n / 0x100 % 256, n % 256]
  {
    FourOctets(n);
  }

  lemma AllOnes(v: nat)
    requires v % TWO32 == 0xFFFF_FFFF
    ensures BigEndian(v, 4) == [255, 255, 255, 255]
  {
    FourOctets(v);
    LowDigits(v, v / TWO32);
  }

  lemma LowDigits(v: nat, q: nat)
    requires v == q * 0x1_0000_0000 + 0xFFFF_FFFF
    ensures v / 0x100_0000 % 256 == v / 0x1_0000 % 256 == v / 0x100 % 256 == v % 256 == 255
  {
    ModUnique(v, 0x100, q * 0x100_0000 + 0xFF_FFFF, 0xFF);
    ModUnique(v, 0x1_0000, q * 0x1_0000 + 0xFFFF, 0xFFFF);
    ModUnique(v, 0x100_0000, q * 0x100 + 0xFF, 0xFF_FFFF);
    ModUnique(v / 0x100, 0x100, q * 0x1_0000 + 0xFFFF, 0xFF);
    ModUnique(v / 0x1_0000, 0x100, q * 0x100 + 0xFF, 0xFF);
    ModUnique(v / 0x100_0000, 0x100, q, 0xFF);
  }

  lemma LengthEight(n: nat)
    requires n == 8
    ensures BigEndian(n, 4) == [0, 0, 0, 8]
  {
    FourOctets(n);
  }

  /** The end marker on the wire. */
  lemma EndMarkerBytes(index: nat, data: Octets)
    requires index == END as nat && data == []
    ensures ChunkBytes(index, data) == [0, 0, 0, 8] + [255, 255, 255, 255] + [255, 255, 255, 255]
  {
    ChunkFields(index, data);
    LengthEight(8 + |data|);
    AllOnes(index / TWO32);
    AllOnes(index);
    InFields(ChunkBytes(index, data));
  }

  lemma InFields(c: Octets)
    requires |c| == 12
    ensures c == c[..4] + c[4..8] + c[8..12]
  {
  }

  lemma FieldReads(n: nat)
    requires n < TWO32
    ensures FromBigEndian(BigEndian(n, 4)) == n
  {
    BigEndianRoundTrip(n, 4);
    Widths();
  }

  /** A frame cut off anywhere by the end of the stream is an error, and so is a message. */
  lemma CutChunk(index: nat, data: Octets, k: nat)
    requires 8 + |data| < TWO32 && k < |ChunkBytes(index, data)|
    ensures DecodeChunk(ChunkBytes(index, data)[..k]) == (Eof, [])
  {
    FieldReads(8 + |data|);
    var c := ChunkBytes(index, data);
    assert c[..4] == BigEndian(8 + |data|, 4);
    if k >= 12 {
      assert c[..k][..4] == c[..4];
    }
  }

  lemma CutMessage(data: Octets, k: nat)
    requires |data| < TWO32 && k < |MessageBytes(data)|
    ensures DecodeMessage(MessageBytes(data)[..k]) == (None, [])
  {
    FieldReads(|data|);
    var m := MessageBytes(data);
    assert m[..4] == BigEndian(|data|, 4);
    if k >= 4 {
      assert m[..k][..4] == m[..4];
    }
  }

  /** A length that leaves no room for the index is a panic, whatever follows it. */
  lemma ShortLength(n: nat, rest: Octets)
    requires n < 8 <= |rest|
    ensures DecodeChunk([0, 0, 0, n] + rest).0 == Panic
  {
    var s := [0, 0, 0, n] + rest;
    FourOctets(n);
    FieldReads(n);
    assert s[..4] == BigEndian(n, 4);
  }

  function StreamBytes(chunks: seq<(nat, Octets)>): Octets {
    if chunks == [] then ChunkBytes(END as nat, []) else ChunkBytes(chunks[0].0, chunks[0].1) + StreamBytes(chunks[1..])
  }

  /** Reading frames until the end marker; None if the stream breaks off. */
  function DecodeStream(s: Octets): Option<(seq<(nat, Octets)>, Octets)>
    decreases |s|
  {
    var (r, rest) := DecodeChunk(s);
    if !r.Got? then None
    else if r.index == END as nat then Some(([], rest))
    else
      match DecodeStream(rest)
      case None => None
      case Some((more, after)) => Some(([(r.index, r.data)] + more, after))
  }

  lemma Reassociate(a: Octets, b: Octets, c: Octets)
    ensures a + (b + c) == a + b + c
  {
  }

  ghost predicate Sendable(chunks: seq<(nat, Octets)>) {
    forall k :: 0 <= k < |chunks| ==> chunks[k].0 < END as nat && 8 + |chunks[k].1| < TWO32
  }

  /** A whole stream comes back as the chunks that were sent, up to and including the end marker. */
  lemma {:induction false} StreamRoundTrip(chunks: seq<(nat, Octets)>, rest: Octets)
    requires Sendable(chunks)
    ensures DecodeStream(StreamBytes(chunks) + rest) == Some((chunks, rest))
    decreases |chunks|
  {
    if chunks == [] {
      ChunkRoundTrip(END as nat, [], rest);
    } else {
      var (i, data) := chunks[0];
      var tail := StreamBytes(chunks[1..]) + rest;
      Reassociate(ChunkBytes(i, data), StreamBytes(chunks[1..]), rest);
      ChunkRoundTrip(i, data, tail);
      StreamRoundTrip(chunks[1..], rest);
      assert chunks == [(i, data)] + chunks[1..];
    }
  }

  lemma WholeStream(chunks: seq<(nat, Octets)>)
    requires Sendable(chunks)
    ensures DecodeStream(StreamBytes(chunks)) == Some((chunks, []))
  {
    StreamRoundTrip(chunks, []);
    assert StreamBytes(chunks) + [] == StreamBytes(chunks);
  }

  /** Stream 0 carries the file header first. */
  lemma HeaderThenChunks(header: Octets, chunks: seq<(nat, Octets)>)
    requires |header| < TWO32 && Sendable(chunks)
    ensures var (h, rest) := DecodeMessage(MessageBytes(header) + StreamBytes(chunks));
      h == Some(header) && DecodeStream(rest) == Some((chunks, []))
  {
    MessageRoundTrip(header, StreamBytes(chunks));
    WholeStream(chunks);
  }

  /** One direction of a TCP connection: the bytes written and not yet read. */
  class TcpStream {
    var buf: Octets

    constructor ()
      ensures buf == []
    {
      buf := [];
    }

    method WriteAll(data: Octets)
      modifies this
      ensures buf == old(buf) + data
    {
      buf := buf + data;
    }

    /** Fill a buffer of n bytes, or fail at the end of the stream. */
    method ReadExact(n: nat) returns (data: Option<Octets>)
      modifies this
      ensures |old(buf)| >= n ==> data == Some(old(buf)[..n]) && buf == old(buf)[n..]
      ensures |old(buf)| < n ==> data == None && buf == []
    {
      if |buf| < n {
        buf := [];
        return None;
      }
      data := Some(buf[..n]);
      buf := buf[n..];
    }

    method SendMessage(data: Octets)
      modifies this
      ensures buf == old(buf) + MessageBytes(data)
    {
      WriteAll(BigEndian(|data|, 4));
      WriteAll(data);
    }

    method RecvMessage() returns (r: Option<Octets>)
      modifies this
      ensures (r, buf) == DecodeMessage(old(buf))
    {
      var lenBuf := ReadExact(4);
      if lenBuf.None? {
        return None;
      }
      ghost var s := old(buf);
      var len := FromBigEndian(lenBuf.value);
      if |s| >= 4 + len {
        Skip(s, 4, len);
      }
      r := ReadExact(len);
    }

    method SendChunk(index: u64, data: Octets)
      modifies this
      ensures buf == old(buf) + ChunkBytes(index as nat, data)
    {
      WriteAll(BigEndian(8 + |data|, 4));
      WriteAll(BigEndian(index as nat, 8));
      WriteAll(data);
    }

    method RecvChunk() returns (r: Received)
      modifies this
      ensures (r, buf) == DecodeChunk(old(buf))
    {
      var lenBuf := ReadExact(4);
      if lenBuf.None? {
        return Eof;
      }
      var totalLen := FromBigEndian(lenBuf.value);
      var indexBuf := ReadExact(8);
      if indexBuf.None? {
        return Eof;
      }
      ghost var s := old(buf);
      Skip(s, 4, 8);
      if totalLen < 8 {
        return Panic;
      }
      if |s| >= 4 + totalLen {
        Skip(s, 12, totalLen - 8);
      }
      var data := ReadExact(totalLen - 8);
      if data.None? {
        return Eof;
      }
      r := Got(FromBigEndian(indexBuf.value), data.value);
    }
  }
}

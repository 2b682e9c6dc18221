/** Cutting a file into fixed-size chunks, for both transports (65532-byte and 1 MiB chunks). */
module Chunking {
  import opened Bytes

  /** ceil(size / c). */
  function Count(size: nat, c: nat): nat
    requires c > 0
  {
    (size + c - 1) / c
  }

  /** Where chunk i starts, clamped to the file as File.slice clamps. */
  function Offset(size: nat, c: nat, i: nat): (r: nat)
    ensures r <= size
  {
    Min(i * c, size)
  }

  function ChunkLen(size: nat, c: nat, i: nat): nat {
    OffsetMonotone(size, c, i, i + 1);
    Offset(size, c, i + 1) - Offset(size, c, i)
  }

  function Chunk(file: Octets, c: nat, i: nat): (r: Octets)
    ensures |r| == ChunkLen(|file|, c, i)
  {
    OffsetMonotone(|file|, c, i, i + 1);
    file[Offset(|file|, c, i)..Offset(|file|, c, i + 1)]
  }

  function Chunks(file: Octets, c: nat, n: nat): (r: seq<Octets>)
    ensures |r| == n
    ensures forall i :: 0 <= i < n ==> r[i] == Chunk(file, c, i)
  {
    seq(n, i requires 0 <= i < n => Chunk(file, c, i))
  }

  lemma OffsetMonotone(size: nat, c: nat, i: nat, j: nat)
    requires i <= j
    ensures i * c <= j * c
    ensures Offset(size, c, i) <= Offset(size, c, j)
  {
    assert j * c == i * c + (j - i) * c;
  }

  /** The chunk count is exactly the number of non-empty chunks. */
  lemma InRange(size: nat, c: nat, i: nat)
    requires c > 0
    ensures i < Count(size, c) <==> i * c < size
    ensures i < Count(size, c) <==> ChunkLen(size, c, i) > 0
    ensures ChunkLen(size, c, i) <= c
    ensures (i + 1) * c == i * c + c
  {
    var n := Count(size, c);
    assert n * c <= size + c - 1 < n * c + c;
    if i < n {
      OffsetMonotone(size, c, i + 1, n);
    } else {
      OffsetMonotone(size, c, n, i);
    }
  }

  lemma LastOffset(size: nat, c: nat)
    requires c > 0
    ensures Offset(size, c, Count(size, c)) == size
  {
    InRange(size, c, Count(size, c));
  }

  /** Reassembly: the first n chunks concatenate to the file's prefix, and all of them to the file. */
  lemma {:induction false} Reassembly(file: Octets, c: nat, n: nat)
    ensures Flatten(Chunks(file, c, n)) == file[..Offset(|file|, c, n)]
  {
    if n > 0 {
      Reassembly(file, c, n - 1);
      assert Chunks(file, c, n) == Chunks(file, c, n - 1) + [Chunk(file, c, n - 1)];
      FlattenAppend(Chunks(file, c, n - 1), Chunk(file, c, n - 1));
      OffsetMonotone(|file|, c, n - 1, n);
    }
  }

  lemma WholeFile(file: Octets, c: nat)
    requires c > 0
    ensures Flatten(Chunks(file, c, Count(|file|, c))) == file
  {
    Reassembly(file, c, Count(|file|, c));
    LastOffset(|file|, c);
  }

  /** Total payload of the chunks below n whose index lies in s. */
  function Payload(size: nat, c: nat, n: nat, s: set<nat>): nat {
    if n == 0 then 0
    else Payload(size, c, n - 1, s) + if n - 1 in s then ChunkLen(size, c, n - 1) else 0
  }

  lemma {:induction false} PayloadEmpty(size: nat, c: nat, n: nat)
    ensures Payload(size, c, n, {}) == 0
  {
    if n > 0 {
      PayloadEmpty(size, c, n - 1);
    }
  }

  lemma {:induction false} PayloadBound(size: nat, c: nat, n: nat, s: set<nat>)
    ensures Payload(size, c, n, s) <= Offset(size, c, n) <= size
  {
    if n > 0 {
      PayloadBound(size, c, n - 1, s);
      OffsetMonotone(size, c, n - 1, n);
    }
  }

  lemma {:induction false} PayloadUnion(size: nat, c: nat, n: nat, s: set<nat>, t: set<nat>)
    requires s !! t
    ensures Payload(size, c, n, s + t) == Payload(size, c, n, s) + Payload(size, c, n, t)
  {
    if n > 0 {
      PayloadUnion(size, c, n - 1, s, t);
    }
  }

  lemma {:induction false} PayloadAdd(size: nat, c: nat, n: nat, s: set<nat>, i: nat)
    requires i !in s
    ensures Payload(size, c, n, s + {i}) == Payload(size, c, n, s) + if i < n then ChunkLen(size, c, i) else 0
  {
    if n > 0 {
      PayloadAdd(size, c, n - 1, s, i);
    }
  }

  lemma {:induction false} PayloadAll(size: nat, c: nat, n: nat, s: set<nat>)
    requires forall i :: 0 <= i < n ==> i in s
    ensures Payload(size, c, n, s) == Offset(size, c, n)
  {
    if n > 0 {
      PayloadAll(size, c, n - 1, s);
      OffsetMonotone(size, c, n - 1, n);
    }
  }

  /** A set of indices below n with n elements is all of them. */
  lemma {:induction false} FullSet(s: set<nat>, n: nat)
    requires forall i :: i in s ==> i < n
    ensures |s| <= n
    ensures |s| == n <==> forall i :: 0 <= i < n ==> i in s
  {
    if n > 0 {
      var t := s - {n - 1};
      FullSet(t, n - 1);
      assert |s| == |t| + if n - 1 in s then 1 else 0;
    } else {
      assert s == {};
    }
  }
}

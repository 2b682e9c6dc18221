/** Octets, big-endian integers and concatenation: the vocabulary of every wire format here. */
module Bytes {

  datatype Option<+T> = None | Some(value: T)

  type Octet = b: int | 0 <= b < 256
  type Octets = seq<Octet>

  function Min(a: int, b: int): int {
    if a < b then a else b
  }

  /** The indices a, a+1, ..., a+n-1. */
  function Range(a: nat, n: nat): (r: seq<nat>)
    ensures |r| == n
    ensures forall i :: 0 <= i < n ==> r[i] == a + i
  {
    seq(n, i requires 0 <= i < n => a + i)
  }

  function SetOf(s: seq<nat>): set<nat> {
    set x | x in s
  }

  ghost predicate Distinct(s: seq<nat>) {
    forall j, k :: 0 <= j < k < |s| ==> s[j] != s[k]
  }

  /** How often x occurs in s. */
  function Times<T(==)>(s: seq<T>, x: T): nat {
    if s == [] then 0 else (if s[0] == x then 1 else 0) + Times(s[1..], x)
  }

  lemma {:induction false} TimesConcat<T>(a: seq<T>, b: seq<T>, x: T)
    ensures Times(a + b, x) == Times(a, x) + Times(b, x)
  {
    if a == [] {
      assert a + b == b;
    } else {
      assert (a + b)[1..] == a[1..] + b;
      TimesConcat(a[1..], b, x);
    }
  }

  /** a and b hold the same elements equally often. */
  ghost predicate SameTimes<T(!new)>(a: seq<T>, b: seq<T>) {
    forall x: T :: Times(a, x) == Times(b, x)
  }

  lemma {:induction false} TimesIn<T>(s: seq<T>, x: T)
    ensures Times(s, x) > 0 <==> x in s
    ensures Times(s, x) <= |s|
  {
    if s != [] {
      TimesIn(s[1..], x);
      assert s == [s[0]] + s[1..];
    }
  }

  lemma {:induction false} TimesTwice<T>(s: seq<T>, j: nat, k: nat)
    requires j < k < |s| && s[j] == s[k]
    ensures Times(s, s[j]) >= 2
  {
    if j > 0 {
      TimesTwice(s[1..], j - 1, k - 1);
    } else {
      TimesIn(s[1..], s[k]);
    }
  }

  lemma {:induction false} TimesRange(a: nat, n: nat, x: nat)
    ensures Times(Range(a, n), x) == if a <= x < a + n then 1 else 0
    decreases n
  {
    if n > 0 {
      assert Range(a, n)[1..] == Range(a + 1, n - 1);
      TimesRange(a + 1, n - 1, x);
    }
  }

  function Pow256(n: nat): (r: nat)
    ensures r > 0
  {
    if n == 0 then 1 else 256 * Pow256(n - 1)
  }

  /** The low `width` octets of v, most significant first (an integer cast that is then serialised). */
  function BigEndian(v: nat, width: nat): (r: Octets)
    ensures |r| == width
  {
    if width == 0 then [] else BigEndian(v / 256, width - 1) + [v % 256]
  }

  function FromBigEndian(s: Octets): nat {
    if s == [] then 0 else FromBigEndian(s[..|s| - 1]) * 256 + s[|s| - 1]
  }

  /** Serialising keeps exactly the value modulo the width: nothing is lost iff the value fits. */
  lemma {:induction false} BigEndianRoundTrip(v: nat, width: nat)
    ensures FromBigEndian(BigEndian(v, width)) == v % Pow256(width)
  {
    if width > 0 {
      BigEndianRoundTrip(v / 256, width - 1);
      assert BigEndian(v, width)[..width - 1] == BigEndian(v / 256, width - 1);
      SplitMod(v, Pow256(width - 1));
    }
  }

  lemma SplitMod(v: nat, p: nat)
    requires p > 0
    ensures (v / 256 % p) * 256 + v % 256 == v % (256 * p)
  {
    var q := v / 256;
    var r := (q % p) * 256 + v % 256;
    assert v == (q / p * p + q % p) * 256 + v % 256;
    assert (q / p) * (256 * p) == q / p * p * 256;
    assert v == (q / p) * (256 * p) + r;
    ModUnique(v, 256 * p, q / p, r);
  }

  lemma ModUnique(v: nat, m: nat, a: nat, r: nat)
    requires r < m && v == a * m + r
    ensures v % m == r && v / m == a
  {
    var d := v / m - a;
    assert d * m == (v / m) * m - a * m;
    assert d * m == r - v % m;
    AwayFromZero(d, m);
  }

  lemma AwayFromZero(d: int, m: int)
    requires m > 0
    ensures d >= 1 ==> d * m >= m
    ensures d <= -1 ==> d * m <= -m
  {
  }

  lemma DivDiv(v: nat, p: nat)
    requires p > 0
    ensures v / 256 / p == v / (256 * p)
  {
    var q := v / 256;
    var r := q % p * 256 + v % 256;
    assert v == (q / p * p + q % p) * 256 + v % 256;
    assert (q / p) * (256 * p) == q / p * p * 256;
    ModUnique(v, 256 * p, q / p, r);
  }

  /** Most significant octet first: octet k is the k-th digit of v in base 256, counted from the left. */
  lemma {:induction false} BigEndianAt(v: nat, width: nat, k: nat)
    requires k < width
    ensures BigEndian(v, width)[k] == v / Pow256(width - 1 - k) % 256
  {
    if k < width - 1 {
      BigEndianAt(v / 256, width - 1, k);
      DivDiv(v, Pow256(width - 2 - k));
    }
  }

  /** The other direction: every string of octets is the encoding of the number it decodes to. */
  lemma {:induction false} BigEndianOnto(s: Octets)
    ensures BigEndian(FromBigEndian(s), |s|) == s && FromBigEndian(s) < Pow256(|s|)
  {
    if s != [] {
      BigEndianOnto(s[..|s| - 1]);
      assert s == s[..|s| - 1] + [s[|s| - 1]];
    }
  }

  /** The four octets of a 32-bit field, and the eight of a 64-bit one, written out. */
  lemma FourOctets(v: nat)
    ensures BigEndian(v, 4) == [v / 0x100_0000 % 256, v / 0x1_0000 % 256, v / 0x100 % 256, v % 256]
  {
    assert Pow256(1) == 0x100 && Pow256(2) == 0x1_0000 && Pow256(3) == 0x100_0000;
    BigEndianAt(v, 4, 0);
    BigEndianAt(v, 4, 1);
    BigEndianAt(v, 4, 2);
    BigEndianAt(v, 4, 3);
  }

  lemma EightOctets(v: nat)
    ensures BigEndian(v, 8) == BigEndian(v / 0x1_0000_0000, 4) + BigEndian(v, 4)
  {
    Widths();
    forall k: nat | k < 8
      ensures BigEndian(v, 8)[k] == if k < 4 then BigEndian(v / 0x1_0000_0000, 4)[k] else BigEndian(v, 4)[k - 4]
    {
      BigEndianAt(v, 8, k);
      if k < 4 {
        BigEndianAt(v / 0x1_0000_0000, 4, k);
        HighDigit(v, 3 - k);
      } else {
        BigEndianAt(v, 4, k - 4);
      }
    }
  }

  lemma {:induction false} HighDigit(v: nat, k: nat)
    ensures v / 0x1_0000_0000 / Pow256(k) == v / Pow256(k + 4)
  {
    Widths();
    if k > 0 {
      HighDigit(v / 256, k - 1);
      DivDiv(v / 0x1_0000_0000, Pow256(k - 1));
      DivDiv(v, Pow256(k + 3));
      assert v / 256 / 0x1_0000_0000 == v / 0x1_0000_0000 / 256;
    }
  }

  lemma Widths()
    ensures Pow256(4) == 0x1_0000_0000
    ensures Pow256(8) == 0x1_0000_0000_0000_0000
  {
    assert Pow256(2) == 0x1_0000;
    assert Pow256(4) == 256 * (256 * Pow256(2));
    assert Pow256(6) == 256 * (256 * Pow256(4));
  }

  function Flatten<T>(parts: seq<seq<T>>): seq<T> {
    if parts == [] then [] else parts[0] + Flatten(parts[1..])
  }

  lemma {:induction false} FlattenConcat<T>(a: seq<seq<T>>, b: seq<seq<T>>)
    ensures Flatten(a + b) == Flatten(a) + Flatten(b)
  {
    if a == [] {
      assert a + b == b;
    } else {
      assert (a + b)[1..] == a[1..] + b;
      FlattenConcat(a[1..], b);
    }
  }

  lemma FlattenAppend<T>(a: seq<seq<T>>, x: seq<T>)
    ensures Flatten(a + [x]) == Flatten(a) + x
  {
    FlattenConcat(a, [x]);
    assert Flatten([x]) == x;
  }
}

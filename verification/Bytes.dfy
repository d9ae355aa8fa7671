/** Bytes, 32-bit words and their little- and big-endian encodings. */
module Bytes {
  type Byte = n: nat | n < 256
  type Word = n: nat | n < 0x1_0000_0000

  /** A 32-byte hash. */
  type Hash32 = s: seq<Byte> | |s| == 32 witness seq(32, _ => 0)

  /** The k low-order bytes of n, least significant first. */
  function Le(n: nat, k: nat): (s: seq<Byte>)
    ensures |s| == k
  {
    if k == 0 then [] else [n % 256] + Le(n / 256, k - 1)
  }

  function LeValue(s: seq<Byte>): nat {
    if s == [] then 0 else s[0] + 256 * LeValue(s[1..])
  }

  /** The k low-order bytes of n, most significant first. */
  function Be(n: nat, k: nat): (s: seq<Byte>)
    ensures |s| == k
  {
    if k == 0 then [] else Be(n / 256, k - 1) + [n % 256]
  }

  function Pow256(k: nat): nat {
    if k == 0 then 1 else 256 * Pow256(k - 1)
  }

  /** Big-endian is little-endian read backwards: the most significant byte first. */
  lemma {:induction false} BeIsReversed(n: nat, k: nat, i: nat)
    requires i < k
    ensures Be(n, k)[i] == Le(n, k)[k - 1 - i]
    decreases k
  {
    if i < k - 1 {
      BeIsReversed(n / 256, k - 1, i);
    }
  }

  /** Byte i of an array weighs 256 to the i-th in its little-endian value. */
  lemma {:induction false} LeValueUnit(k: nat, i: nat, b: Byte)
    requires i < k
    ensures LeValue(seq(k, _ => 0)[i := b]) == b * Pow256(i)
    decreases k
  {
    var s: seq<Byte> := seq(k, _ => 0);
    if i == 0 {
      LeValueZeros(k - 1);
      assert s[0 := b][1..] == seq(k - 1, _ => 0);
    } else {
      LeValueUnit(k - 1, i - 1, b);
      assert s[i := b][1..] == seq(k - 1, _ => 0)[i - 1 := b];
    }
  }

  lemma {:induction false} LeValueZeros(k: nat)
    ensures LeValue(seq(k, _ => 0)) == 0
  {
    if k > 0 {
      LeValueZeros(k - 1);
      var s: seq<Byte> := seq(k, _ => 0);
      assert s[1..] == seq(k - 1, _ => 0);
    }
  }

  /** Encoding loses nothing of a number that fits. */
  lemma {:induction false} LeRoundTrip(n: nat, k: nat)
    requires n < Pow256(k)
    ensures LeValue(Le(n, k)) == n
  {
    if k > 0 {
      assert n / 256 < Pow256(k - 1);
      LeRoundTrip(n / 256, k - 1);
      assert Le(n, k)[1..] == Le(n / 256, k - 1);
    }
  }

  /** Equal high-order bytes leave the decision to the low-order ones. */
  lemma {:induction false} LeSameTail(a: seq<Byte>, b: seq<Byte>, tail: seq<Byte>)
    requires |a| == |b|
    ensures LeValue(a + tail) - LeValue(b + tail) == LeValue(a) - LeValue(b)
  {
    if a == [] {
      assert a + tail == tail && b + tail == tail;
    } else {
      LeSameTail(a[1..], b[1..], tail);
      assert (a + tail)[1..] == a[1..] + tail && (b + tail)[1..] == b[1..] + tail;
    }
  }

  /** A smaller high-order part decides, whatever the low-order bytes are. */
  lemma {:induction false} LeHighDecides(a: seq<Byte>, b: seq<Byte>, n: nat)
    requires |a| == |b| && n <= |a| && LeValue(a[n..]) < LeValue(b[n..])
    ensures LeValue(a) < LeValue(b)
  {
    if n == 0 {
      assert a[0..] == a && b[0..] == b;
    } else {
      assert a[1..][n - 1..] == a[n..] && b[1..][n - 1..] == b[n..];
      LeHighDecides(a[1..], b[1..], n - 1);
    }
  }

  /** The numeric order decided at one group of bytes below equal ones. */
  lemma LeGroupDecides(a: seq<Byte>, b: seq<Byte>, lo: nat, hi: nat)
    requires |a| == |b| && lo <= hi <= |a| && a[hi..] == b[hi..] && LeValue(a[lo..hi]) < LeValue(b[lo..hi])
    ensures LeValue(a) < LeValue(b)
  {
    hide LeValue;
    assert a[lo..] == a[lo..hi] + a[hi..] && b[lo..] == b[lo..hi] + b[hi..];
    LeSameTail(a[lo..hi], b[lo..hi], a[hi..]);
    LeHighDecides(a, b, lo);
  }
}

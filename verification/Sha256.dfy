/** SHA-256 as FIPS 180-4 defines it on whole bytes, over an arbitrary
    compression function: padding (section 5.1.1), initial hash value
    (section 5.3.3) and the hash computation over the blocks (section 6.2.2). */
module Sha256Spec {
  import opened Bytes

  type HashState = s: seq<Word> | |s| == 8 witness seq(8, _ => 0)
  type Block = b: seq<Byte> | |b| == 64 witness seq(64, _ => 0)
  type Compress = (HashState, Block) -> HashState

  const IV: HashState := [
    0x6a09e667, 0xbb67ae85, 0x3c6ef372, 0xa54ff53a, 0x510e527f, 0x9b05688c, 0x1f83d9ab, 0x5be0cd19]

  function Zeros(n: nat): (s: seq<Byte>)
    ensures |s| == n
  {
    seq(n, _ => 0)
  }

  lemma PaddedLength(n: nat)
    ensures (n + 1 + (55 - n) % 64 + 8) % 64 == 0
  {
    var q := (55 - n) / 64;
    assert n + 1 + (55 - n) % 64 + 8 == 64 - 64 * q;
  }

  /** One 0x80 byte, the fewest zero bytes that leave eight to a block
      boundary, and the message length in bits. */
  function Pad(m: seq<Byte>): (p: seq<Byte>)
    ensures |p| % 64 == 0
  {
    PaddedLength(|m|);
    m + [0x80] + Zeros((55 - |m|) % 64) + Be(8 * |m|, 8)
  }

  function HashBlocks(f: Compress, h: HashState, p: seq<Byte>): HashState
    requires |p| % 64 == 0
    decreases |p|
  {
    if p == [] then h else HashBlocks(f, f(h, p[..64]), p[64..])
  }

  function BeBytes(words: seq<Word>): (s: seq<Byte>)
    ensures |s| == 4 * |words|
  {
    if words == [] then [] else BeBytes(words[..|words| - 1]) + Be(words[|words| - 1], 4)
  }

  function Sha256(f: Compress, m: seq<Byte>): Hash32 {
    BeBytes(HashBlocks(f, IV, Pad(m)))
  }

  function Sha256d(f: Compress, m: seq<Byte>): Hash32 {
    Sha256(f, Sha256(f, m))
  }

  // ------------------------------------------------ what the standard says of it

  /** A message of one block is one compression of the initial value, and the double
      hash of anything is one of its first hash. */
  lemma DoubleHash(f: Compress, m: seq<Byte>)
    ensures |Pad(Sha256(f, m))| == 64
    ensures Sha256d(f, m) == BeBytes(f(IV, Pad(Sha256(f, m))))
  {
    var digest := Sha256(f, m);
    var b: Block := Pad(digest);
    assert (55 - 32) % 64 == 23;
    HashAppend(f, IV, [], b);
    assert [] + b == b && HashBlocks(f, IV, []) == IV;
  }

  function FirstPrimes(): seq<nat> {
    [2, 3, 5, 7, 11, 13, 17, 19]
  }

  function WholeRoots(): seq<nat> {
    [1, 1, 2, 2, 3, 3, 4, 4]
  }

  /** Section 5.3.3: word i is the first 32 bits of the fractional part of the
      square root of the i-th prime. */
  lemma InitialValue(i: nat)
    requires i < 8
    ensures
      var p, root := FirstPrimes()[i], WholeRoots()[i] * 0x1_0000_0000 + IV[i];
      root * root <= p * 0x1_0000_0000_0000_0000 < (root + 1) * (root + 1)
  {
    assert i == 0 || i == 1 || i == 2 || i == 3 || i == 4 || i == 5 || i == 6 || i == 7;
  }

  /** Section 5.1.1: the message, a one bit, zeros, and the 64-bit length in bits,
      to the next multiple of 512 bits and no further. */
  lemma PaddedMessage(m: seq<Byte>)
    ensures
      var p := Pad(m);
      && |p| % 64 == 0 && |m| + 9 <= |p| < |m| + 9 + 64
      && p[..|m|] == m && p[|m|] == 0x80
      && (forall i :: |m| < i < |p| - 8 ==> p[i] == 0)
      && p[|p| - 8..] == Be(8 * |m|, 8)
  {
  }

  /** Section 6.2.2: the blocks are taken in order, each into the hash of those before. */
  lemma {:induction false} HashAppend(f: Compress, h: HashState, p: seq<Byte>, b: Block)
    requires |p| % 64 == 0
    ensures HashBlocks(f, h, p + b) == f(HashBlocks(f, h, p), b)
    decreases |p|
  {
    if p == [] {
      assert p + b == b && b[..64] == b && b[64..] == [];
      assert HashBlocks(f, h, b) == HashBlocks(f, f(h, b), []);
    } else {
      assert (p + b)[..64] == p[..64] && (p + b)[64..] == p[64..] + b;
      HashAppend(f, f(h, p[..64]), p[64..], b);
    }
  }

  /** The digest is the words of the last hash value, each most significant byte first. */
  lemma {:induction false} DigestBytes(words: seq<Word>, i: nat)
    requires i < |words|
    ensures BeBytes(words)[4 * i..4 * i + 4] == Be(words[i], 4)
    decreases |words|
  {
    var n := |words| - 1;
    var head := BeBytes(words[..n]);
    if i < n {
      DigestBytes(words[..n], i);
      assert BeBytes(words)[4 * i..4 * i + 4] == head[4 * i..4 * i + 4];
    }
  }
}

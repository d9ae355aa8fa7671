/** The hashing core of the mining device: the midstate hasher with its reused
    buffers and the word-wise comparison of a hash with the target. */
module MiningHash {
  import opened Bytes
  import opened Sha256Spec

  datatype Header = Header(version: Word, prevBlockhash: Hash32, merkleRoot: Hash32, time: Word, bits: Word, nonce: Word)

  /** Consensus serialization: 80 bytes. */
  function Serialize(h: Header): (s: seq<Byte>)
    ensures |s| == 80
  {
    Le(h.version, 4) + h.prevBlockhash + h.merkleRoot + Le(h.time, 4) + Le(h.bits, 4) + Le(h.nonce, 4)
  }

  /** The six fields in consensus order, numbers little-endian. */
  lemma HeaderLayout(h: Header)
    ensures
      var s := Serialize(h);
      && s[..4] == Le(h.version, 4) && s[4..36] == h.prevBlockhash && s[36..68] == h.merkleRoot
      && s[68..72] == Le(h.time, 4) && s[72..76] == Le(h.bits, 4) && s[76..80] == Le(h.nonce, 4)
  {
  }

  /** The second block of the first hash: Merkle tail, time, bits, nonce, padding. */
  function TailBlock(h: Header): Block {
    h.merkleRoot[28..] + Le(h.time, 4) + Le(h.bits, 4) + Le(h.nonce, 4) + TailPadding()
  }

  function TailPadding(): (s: seq<Byte>)
    ensures |s| == 48
  {
    [0x80] + Zeros(39) + Be(640, 8)
  }

  /** The one block of the second hash. */
  function DigestBlock(digest: Hash32): Block {
    digest + [0x80] + Zeros(23) + Be(256, 8)
  }

  lemma HeadIsStatic(h: Header, nonce: Word, time: Word)
    ensures Serialize(h.(time := time, nonce := nonce))[..64] == Serialize(h)[..64]
  {
  }

  lemma PadHeader(h: Header)
    ensures Pad(Serialize(h)) == Serialize(h)[..64] + TailBlock(h)
  {
    var s := Serialize(h);
    assert s[64..] == h.merkleRoot[28..] + Le(h.time, 4) + Le(h.bits, 4) + Le(h.nonce, 4);
    assert s == s[..64] + s[64..];
    assert (55 - 80) % 64 == 39;
  }

  /** Hashing a header takes two blocks, the first free of time and nonce. */
  lemma ShaHeader(f: Compress, h: Header)
    ensures Sha256(f, Serialize(h)) == BeBytes(f(f(IV, Serialize(h)[..64]), TailBlock(h)))
  {
    PadHeader(h);
    TwoBlocks(f, Serialize(h)[..64], TailBlock(h));
  }

  lemma TwoBlocks(f: Compress, a: Block, b: Block)
    ensures HashBlocks(f, IV, a + b) == f(f(IV, a), b)
  {
    assert (a + b)[..64] == a && (a + b)[64..] == b;
    assert b[..64] == b && b[64..] == [];
    assert HashBlocks(f, f(IV, a), b) == HashBlocks(f, f(f(IV, a), b), []);
  }

  lemma ShaDigest(f: Compress, digest: Hash32)
    ensures Sha256(f, digest) == BeBytes(f(IV, DigestBlock(digest)))
  {
    assert (55 - 32) % 64 == 23;
    var b := DigestBlock(digest);
    assert Pad(digest) == b;
    assert b[..64] == b && b[64..] == [];
    assert HashBlocks(f, IV, b) == HashBlocks(f, f(IV, b), []);
  }

  function Splice(s: seq<Byte>, off: nat, src: seq<Byte>): (r: seq<Byte>)
    requires off + |src| <= |s|
    ensures |r| == |s|
  {
    s[..off] + src + s[off + |src|..]
  }

  lemma SpliceMiddle(a: seq<Byte>, x: seq<Byte>, c: seq<Byte>, y: seq<Byte>)
    requires |x| == |y|
    ensures Splice(a + x + c, |a|, y) == a + y + c
  {
  }

  /** `copy_from_slice` into a part of a buffer. */
  method CopyInto(a: array<Byte>, off: nat, src: seq<Byte>)
    requires off + |src| <= a.Length
    modifies a
    ensures a[..] == Splice(old(a[..]), off, src)
  {
    for i := 0 to |src|
      invariant a[..] == old(a[..off]) + src[..i] + old(a[off + i..])
    {
      a[off + i] := src[i];
      assert src[..i + 1] == src[..i] + [src[i]];
    }
    assert src[..|src|] == src;
  }

  lemma Rewrite(a: seq<Byte>, t: seq<Byte>, b: seq<Byte>, n: seq<Byte>, pad: seq<Byte>, t': seq<Byte>, n': seq<Byte>)
    requires |a| == |t| == |b| == |n| == |t'| == |n'| == 4
    ensures Splice(Splice(a + t + b + n + pad, 4, t'), 12, n') == a + t' + b + n' + pad
  {
    assert a + t + b + n + pad == a + t + (b + n + pad);
    SpliceMiddle(a, t, b + n + pad, t');
    assert a + t' + (b + n + pad) == (a + t' + b) + n + pad;
    SpliceMiddle(a + t' + b, n, pad, n');
  }

  /** Rewriting time and nonce in a tail block leaves everything else alone. */
  lemma RetargetTail(h: Header, time: Word, nonce: Word)
    ensures Splice(Splice(TailBlock(h), 4, Le(time, 4)), 12, Le(nonce, 4)) == TailBlock(h.(time := time, nonce := nonce))
  {
    Rewrite(h.merkleRoot[28..], Le(h.time, 4), Le(h.bits, 4), Le(h.nonce, 4), TailPadding(), Le(time, 4), Le(nonce, 4));
  }

  lemma FirstTail(h: Header)
    ensures Splice(Splice(Zeros(64), 0, Serialize(h)[64..])[16 := 0x80], 56, Be(640, 8)) == TailBlock(h)
  {
    assert Serialize(h)[64..] == h.merkleRoot[28..] + Le(h.time, 4) + Le(h.bits, 4) + Le(h.nonce, 4);
  }

  lemma FirstDigest()
    ensures Splice(Zeros(64)[32 := 0x80], 56, Be(256, 8)) == DigestBlock(Zeros(32))
  {
  }

  lemma DigestWord(words: HashState, i: nat, digest: Hash32, rest: seq<Byte>)
    requires i < 8
    ensures Splice(BeBytes(words[..i]) + digest[4 * i..] + rest, 4 * i, Be(words[i], 4))
         == BeBytes(words[..i + 1]) + digest[4 * (i + 1)..] + rest
  {
    var a, x, c := BeBytes(words[..i]), digest[4 * i..4 * i + 4], digest[4 * (i + 1)..] + rest;
    assert a + digest[4 * i..] + rest == a + x + c;
    SpliceMiddle(a, x, c, Be(words[i], 4));
    assert words[..i + 1][..i] == words[..i];
  }

  class FastSha256d {
    const compress: Compress
    var state0: HashState
    const block1: array<Byte>
    const secondBlock: array<Byte>
    ghost var header: Header       // the header whose static part is prepared
    ghost var last: Header         // the header block1 currently describes
    ghost var lastDigest: Hash32   // the digest left in secondBlock

    /** The reused buffers keep Merkle tail, bits, padding and lengths; time and
        nonce of block1 and the digest part of secondBlock hold leftovers. */
    ghost predicate Valid()
      reads this, block1, secondBlock
    {
      && block1 != secondBlock && block1.Length == 64 && secondBlock.Length == 64
      && state0 == compress(IV, Serialize(header)[..64])
      && block1[..] == TailBlock(last) && last == header.(time := last.time, nonce := last.nonce)
      && secondBlock[..] == DigestBlock(lastDigest)
    }

    constructor FromHeaderStatic(f: Compress, h: Header)
      ensures Valid() && header == h && compress == f && fresh(block1) && fresh(secondBlock)
    {
      compress := f;
      var headerBytes := Serialize(h);
      state0 := f(IV, headerBytes[..64]);
      block1 := new Byte[64](_ => 0);
      secondBlock := new Byte[64](_ => 0);
      header, last, lastDigest := h, h, Zeros(32);
      new;
      assert block1[..] == Zeros(64) && secondBlock[..] == Zeros(64);
      CopyInto(block1, 0, headerBytes[64..]);
      block1[16] := 0x80;
      CopyInto(block1, 56, Be(640, 8));
      secondBlock[32] := 0x80;
      CopyInto(secondBlock, 56, Be(256, 8));
      FirstTail(h);
      FirstDigest();
    }

    /** Any number of calls on one object: each is the plain double SHA-256 of
        the header with that time and nonce. */
    method HashWithNonceTime(nonce: Word, time: Word) returns (out: Hash32)
      requires Valid()
      modifies this`last, this`lastDigest, block1, secondBlock
      ensures Valid()
      ensures out == Sha256d(compress, Serialize(header.(time := time, nonce := nonce)))
      ensures out == Sha256(compress, Sha256(compress, Serialize(header.(time := time, nonce := nonce))))
    {
      CopyInto(block1, 4, Le(time, 4));
      CopyInto(block1, 12, Le(nonce, 4));
      RetargetTail(last, time, nonce);
      last := header.(time := time, nonce := nonce);
      var state1 := compress(state0, block1[..]);
      HeadIsStatic(header, nonce, time);
      ShaHeader(compress, last);
      FillDigest(state1);
      var state2 := compress(IV, secondBlock[..]);
      ShaDigest(compress, lastDigest);
      out := BeBytes(state2);
    }

    /** Writes the words of the first digest over the head of the second block. */
    method FillDigest(words: HashState)
      requires secondBlock.Length == 64 && secondBlock[..] == DigestBlock(lastDigest)
      modifies this`lastDigest, secondBlock
      ensures lastDigest == BeBytes(words) && secondBlock[..] == DigestBlock(lastDigest)
    {
      ghost var rest := [0x80] + Zeros(23) + Be(256, 8);
      assert secondBlock[..] == BeBytes(words[..0]) + lastDigest[0..] + rest;
      for i := 0 to 8
        invariant lastDigest == old(lastDigest)
        invariant secondBlock[..] == BeBytes(words[..i]) + lastDigest[4 * i..] + rest
      {
        CopyInto(secondBlock, 4 * i, Be(words[i], 4));
        DigestWord(words, i, lastDigest, rest);
      }
      assert words[..8] == words;
      assert secondBlock[..] == BeBytes(words) + rest;
      lastDigest := BeBytes(words);
      assert BeBytes(words) + rest == DigestBlock(lastDigest);
    }
  }

  /** `hash_meets_target_le`: eight words, most significant first. */
  method HashMeetsTarget(hash: Hash32, target: Hash32) returns (meets: bool)
    ensures meets <==> LeValue(hash) <= LeValue(target)
  {
    var isBelow, isEqual := false, true;
    var i := 8;
    while i > 0
      invariant 0 <= i <= 8 && !isBelow && isEqual && hash[4 * i..] == target[4 * i..]
    {
      i := i - 1;
      var off := 4 * i;
      var hw, tw := LeValue(hash[off..off + 4]), LeValue(target[off..off + 4]);
      if hw < tw {
        LeGroupDecides(hash, target, off, off + 4);
        isBelow, isEqual := true, false;
        break;
      } else if hw > tw {
        LeGroupDecides(target, hash, off, off + 4);
        isBelow, isEqual := false, false;
        break;
      }
      LeInjective(hash[off..off + 4], target[off..off + 4]);
      assert hash[off..] == hash[off..off + 4] + hash[off + 4..];
      assert target[off..] == target[off..off + 4] + target[off + 4..];
    }
    assert hash[0..] == hash && target[0..] == target;
    meets := isBelow || isEqual;
  }

  lemma {:induction false} LeInjective(a: seq<Byte>, b: seq<Byte>)
    requires |a| == |b| && LeValue(a) == LeValue(b)
    ensures a == b
  {
    if a != [] {
      assert LeValue(a[1..]) == LeValue(b[1..]);
      LeInjective(a[1..], b[1..]);
      assert a == [a[0]] + a[1..] && b == [b[0]] + b[1..];
    }
  }
}

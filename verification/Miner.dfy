/** The miner around the hasher: target, header, single attempts, micro-batches. */
module Mining {
  import opened Common
  import opened Bytes
  import opened Sha256Spec
  import opened MiningHash
  import opened NonceSearch

  datatype Share = Share(nonce: Word, jobId: nat, version: Word, time: Word)

  datatype NextShareOutcome = ValidShare | InvalidShare | NoTarget | NoHeader

  /** Plain double SHA-256 of the header with that nonce is, as a number, at most the target. */
  ghost predicate Hit(f: Compress, h: Header, target: nat, nonce: Word) {
    LeValue(Sha256d(f, Serialize(h.(nonce := nonce)))) <= target
  }

  /** `hit` holds of exactly the nonces that make the header meet the target. */
  ghost predicate IsHit(hit: Word -> bool, f: Compress, h: Header, target: nat) {
    forall n :: hit(n) <==> Hit(f, h, target, n)
  }

  lemma HitIgnoresNonce(hit: Word -> bool, f: Compress, h: Header, target: nat, nonce: Word)
    requires IsHit(hit, f, h, target)
    ensures IsHit(hit, f, h.(nonce := nonce), target)
  {
    forall n: Word ensures hit(n) <==> Hit(f, h.(nonce := nonce), target, n) {
      assert h.(nonce := nonce).(nonce := n) == h.(nonce := n);
    }
  }

  /** What is sent for the hits at the given offsets. */
  function ToShares(h: Header, job: nat, version: Word, hits: seq<nat>): (shares: seq<Share>)
    ensures |shares| == |hits|
    ensures forall i :: 0 <= i < |hits| ==> shares[i] == Share(NonceAt(h.nonce, hits[i]), job, version, h.time)
  {
    seq(|hits|, i requires 0 <= i < |hits| => Share(NonceAt(h.nonce, hits[i]), job, version, h.time))
  }

  class Miner {
    const compress: Compress
    var header: Option<Header>
    var target: Option<nat>          // U256
    var jobId: Option<nat>
    var version: Option<Word>
    var fastHasher: FastSha256d?

    ghost predicate Valid()
      reads this, fastHasher, if fastHasher == null then {} else {fastHasher.block1, fastHasher.secondBlock}
    {
      && (target.Some? ==> target.value < Pow256(32))
      && (header.Some? ==> fastHasher != null && jobId.Some? && version.Some?)
      && (fastHasher != null ==> fastHasher.Valid() && fastHasher.compress == compress)
      && (header.Some? ==> Matches(fastHasher.header, header.value))
    }

    /** The hasher was prepared for this header up to time and nonce. */
    static ghost predicate Matches(prepared: Header, h: Header) {
      prepared.(time := h.time, nonce := h.nonce) == h
    }

    constructor (f: Compress)
      ensures Valid() && compress == f && header.None? && target.None?
    {
      compress := f;
      header, target, jobId, version, fastHasher := None, None, None, None, null;
    }

    method NewTarget(bytes: seq<Byte>)
      requires Valid() && |bytes| <= 32
      modifies this`target
      ensures Valid() && target == Some(LeValue(bytes))
    {
      target := Some(LeValue(bytes));
      LeBound(bytes);
      PowGrows(|bytes|, 32);
    }

    /** `time` is the clock reading the source takes here. */
    method NewHeader(prevHash: Hash32, nbits: Word, job: nat, jobVersion: Word, merkleRoot: Hash32, time: Word)
      requires Valid()
      modifies this
      ensures Valid() && target == old(target) && jobId == Some(job) && version == Some(jobVersion)
      ensures header == Some(Header(jobVersion, prevHash, merkleRoot, time, nbits, 0))
      ensures fastHasher != null && fresh(fastHasher) && fresh(fastHasher.block1) && fresh(fastHasher.secondBlock)
    {
      jobId, version := Some(job), Some(jobVersion);
      var h := Header(jobVersion, prevHash, merkleRoot, time, nbits, 0);
      header := Some(h);
      fastHasher := new FastSha256d.FromHeaderStatic(compress, h);
    }

    /** Hash the header with one nonce and compare with the target. */
    method Attempt(nonce: Word) returns (meets: bool)
      requires Valid() && header.Some? && target.Some?
      modifies fastHasher`last, fastHasher`lastDigest, fastHasher.block1, fastHasher.secondBlock
      ensures Valid() && fastHasher.header == old(fastHasher.header)
      ensures meets <==> Hit(compress, header.value, target.value, nonce)
      ensures meets <==> LeValue(Sha256d(compress, Serialize(header.value.(nonce := nonce)))) <= target.value
    {
      var hash := fastHasher.HashWithNonceTime(nonce, header.value.time);
      LeRoundTrip(target.value, 32);
      meets := HashMeetsTarget(hash, Le(target.value, 32));
    }

    /** One attempt at the current nonce. */
    method NextShare() returns (outcome: NextShareOutcome)
      requires Valid()
      modifies if fastHasher == null then {} else {fastHasher, fastHasher.block1, fastHasher.secondBlock}
      ensures Valid() && header == old(header) && target == old(target)
      ensures outcome.NoHeader? <==> header.None?
      ensures outcome.NoTarget? <==> header.Some? && target.None?
      ensures outcome.ValidShare? <==>
        header.Some? && target.Some? && LeValue(Sha256d(compress, Serialize(header.value))) <= target.value
    {
      if header.None? {
        return NoHeader;
      }
      if target.None? {
        return NoTarget;
      }
      var meets := Attempt(header.value.nonce);
      assert header.value.(nonce := header.value.nonce) == header.value;
      outcome := if meets then ValidShare else InvalidShare;
    }

    /** The search loop of one batch; `attempts` counts the hashes it computes. */
    method SearchBatch(batch: nat, ghost hit: Word -> bool, ghost start: Word, ghost base: nat)
      returns (found: Option<Word>, ghost attempts: nat)
      requires Valid() && header.Some? && target.Some? && header.value.nonce == NonceAt(start, base)
      requires IsHit(hit, compress, header.value, target.value)
      modifies fastHasher`last, fastHasher`lastDigest, fastHasher.block1, fastHasher.secondBlock
      ensures Valid()
      ensures
        var k := FirstHit(hit, start, base, base + batch);
        && attempts == Attempts(base, batch, k)
        && found == (if k < base + batch then Some(NonceAt(start, k)) else None)
    {
      hide Hit;
      hide FastSha256d.Valid;
      var first := header.value.nonce;
      found, attempts := None, 0;
      var i := 0;
      while i < batch
        invariant 0 <= i <= batch && Valid() && attempts == i
        invariant FirstHit(hit, start, base, base + batch) == FirstHit(hit, start, base + i, base + batch)
      {
        var nonce := (first + i) % NONCES;
        NonceAtAdd(start, base, i);
        var meets := Attempt(nonce);
        attempts := attempts + 1;
        if meets {
          return Some(nonce), attempts;
        }
        i := i + 1;
      }
    }

    /** One fast-path batch of `mine`. */
    method MineBatch(batch: nat, ghost hit: Word -> bool, ghost start: Word, ghost base: nat)
      returns (share: Option<Share>, ghost attempts: nat)
      requires Valid() && header.Some? && target.Some? && header.value.nonce == NonceAt(start, base)
      requires IsHit(hit, compress, header.value, target.value)
      modifies this`header, fastHasher`last, fastHasher`lastDigest, fastHasher.block1, fastHasher.secondBlock
      ensures Valid() && header == Some(old(header).value.(nonce := NonceAt(start, base + batch)))
      ensures
        var h := old(header).value;
        var k := FirstHit(hit, start, base, base + batch);
        && attempts == Attempts(base, batch, k)
        && share == (if k < base + batch then Some(Share(NonceAt(start, k), jobId.value, version.value, h.time)) else None)
    {
      hide Hit;
      hide FastSha256d.Valid;
      var h := header.value;
      var found;
      found, attempts := SearchBatch(batch, hit, start, base);
      share := if found.Some? then Some(Share(found.value, jobId.value, version.value, h.time)) else None;
      NonceAtAdd(start, base, batch);
      header := Some(h.(nonce := (h.nonce + batch) % NONCES));
    }

    /** The loop of `mine` on its fast path until it is killed; `batches` are the
        batch sizes in force at its iterations. The offsets hashed and the shares
        sent are those of the plain header search. */
    method Mine(batches: seq<nat>, ghost hit: Word -> bool) returns (shares: seq<Share>, ghost tried: seq<nat>)
      requires Valid() && header.Some? && target.Some?
      requires IsHit(hit, compress, header.value, target.value)
      modifies this`header, fastHasher`last, fastHasher`lastDigest, fastHasher.block1, fastHasher.secondBlock
      ensures Valid()
      ensures
        var h := old(header).value;
        && tried == TriedOffsets(hit, h.nonce, 0, batches)
        && shares == ToShares(h, jobId.value, version.value, HitOffsets(hit, h.nonce, 0, batches))
    {
      hide Hit;
      hide FastSha256d.Valid;
      hide Progress;
      ghost var h := header.value;
      ghost var base, hits := 0, [];
      shares, tried := [], [];
      ProgressStarts(hit, h.nonce, batches);
      var n := 0;
      while n < |batches|
        invariant 0 <= n <= |batches| && Valid() && header == Some(h.(nonce := NonceAt(h.nonce, base)))
        invariant IsHit(hit, compress, header.value, target.value)
        invariant Progress(hit, h.nonce, batches, n, base, hits, tried)
        invariant shares == ToShares(h, jobId.value, version.value, hits)
      {
        var share, attempts := MineBatch(batches[n], hit, h.nonce, base);
        ProgressStep(hit, h.nonce, batches, n, base, hits, tried);
        tried := tried + Range(base, attempts);
        if share.Some? {
          shares := shares + [share.value];
          hits := hits + [FirstHit(hit, h.nonce, base, base + batches[n])];
        }
        base := base + batches[n];
        HitIgnoresNonce(hit, compress, h, target.value, NonceAt(h.nonce, base));
        n := n + 1;
      }
      ProgressEnds(hit, h.nonce, batches, base, hits, tried);
    }
  }

  /** What is sent is sent for a header that meets the target, with that header's
      time and the job's id and version. */
  lemma SentSharesMeetTarget(f: Compress, h: Header, target: nat, hit: Word -> bool, job: nat, version: Word, batches: seq<nat>)
    requires IsHit(hit, f, h, target)
    ensures
      var shares := ToShares(h, job, version, HitOffsets(hit, h.nonce, 0, batches));
      && |shares| <= |batches|
      && forall s <- shares ::
           && s.jobId == job && s.version == version && s.time == h.time
           && LeValue(Sha256d(f, Serialize(h.(nonce := s.nonce)))) <= target
  {
    SharesAreFirstHits(hit, h.nonce, 0, batches);
    var hits := HitOffsets(hit, h.nonce, 0, batches);
    var shares := ToShares(h, job, version, hits);
    forall i | 0 <= i < |shares| ensures LeValue(Sha256d(f, Serialize(h.(nonce := shares[i].nonce)))) <= target {
      assert hits[i] in hits && Hit(f, h, target, NonceAt(h.nonce, hits[i]));
    }
  }

  /** Nothing that meets the target is passed over: every nonce that a run tries is
      shared exactly when its header meets the target. */
  lemma TriedNoncesAreDecided(f: Compress, h: Header, target: nat, hit: Word -> bool, batches: seq<nat>, o: nat)
    requires IsHit(hit, f, h, target)
    ensures o in TriedOffsets(hit, h.nonce, 0, batches) ==>
      (o in HitOffsets(hit, h.nonce, 0, batches)
       <==> LeValue(Sha256d(f, Serialize(h.(nonce := NonceAt(h.nonce, o))))) <= target)
  {
    TriedAreDecided(hit, h.nonce, 0, batches);
    assert hit(NonceAt(h.nonce, o)) <==> Hit(f, h, target, NonceAt(h.nonce, o));
  }

  lemma {:induction false} LeBound(s: seq<Byte>)
    ensures LeValue(s) < Pow256(|s|)
  {
    if s != [] {
      LeBound(s[1..]);
    }
  }

  lemma {:induction false} PowGrows(a: nat, b: nat)
    requires a <= b
    ensures Pow256(a) <= Pow256(b)
  {
    if a < b {
      PowGrows(a, b - 1);
    }
  }
}

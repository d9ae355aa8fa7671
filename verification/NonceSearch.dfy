/** The nonce search as arithmetic: consecutive batches over 32-bit nonces with
    wrap-around, and the split of the nonce space between workers. */
module NonceSearch {
  import opened Bytes

  const NONCES: nat := 0x1_0000_0000
  const U32_MAX: nat := 0xffff_ffff

  /** The nonce `offset` attempts after `start`, with wrapping addition. */
  function NonceAt(start: Word, offset: nat): Word {
    (start + offset) % NONCES
  }

  lemma NonceAtAdd(start: Word, a: nat, b: nat)
    ensures NonceAt(NonceAt(start, a), b) == NonceAt(start, a + b)
  {
  }

  /** The first offset in [lo, hi) whose nonce hits, else `hi`. */
  function FirstHit(hit: Word -> bool, start: Word, lo: nat, hi: nat): (k: nat)
    requires lo <= hi
    ensures lo <= k <= hi
    ensures k < hi ==> hit(NonceAt(start, k))
    ensures forall i :: lo <= i < k ==> !hit(NonceAt(start, i))
    decreases hi - lo
  {
    if lo == hi || hit(NonceAt(start, lo)) then lo else FirstHit(hit, start, lo + 1, hi)
  }

  function Range(lo: nat, n: nat): (r: seq<nat>)
    ensures |r| == n && forall i :: 0 <= i < n ==> r[i] == lo + i
  {
    seq(n, i requires 0 <= i => lo + i)
  }

  /** How many nonces a batch hashes when its first hit is at offset k. */
  function Attempts(base: nat, batch: nat, k: nat): nat
    requires base <= k
  {
    if k < base + batch then k + 1 - base else batch
  }

  function Sum(batches: seq<nat>): nat {
    if batches == [] then 0 else batches[0] + Sum(batches[1..])
  }

  /** Offsets of the shares found by consecutive batches starting at `base`. */
  function HitOffsets(hit: Word -> bool, start: Word, base: nat, batches: seq<nat>): seq<nat>
    decreases |batches|
  {
    if batches == [] then []
    else
      var end := base + batches[0];
      var k := FirstHit(hit, start, base, end);
      (if k < end then [k] else []) + HitOffsets(hit, start, end, batches[1..])
  }

  /** Offsets of the nonces those batches hash: up to the hit, else all. */
  function TriedOffsets(hit: Word -> bool, start: Word, base: nat, batches: seq<nat>): seq<nat>
    decreases |batches|
  {
    if batches == [] then []
    else
      var end := base + batches[0];
      var k := FirstHit(hit, start, base, end);
      Range(base, Attempts(base, batches[0], k)) + TriedOffsets(hit, start, end, batches[1..])
  }

  /** After n batches: what was found and tried, followed by what the rest will
      find and try, is what all of them find and try. */
  ghost predicate Progress(hit: Word -> bool, start: Word, batches: seq<nat>, n: nat, base: nat, hits: seq<nat>, tried: seq<nat>)
  {
    && n <= |batches|
    && hits + HitOffsets(hit, start, base, batches[n..]) == HitOffsets(hit, start, 0, batches)
    && tried + TriedOffsets(hit, start, base, batches[n..]) == TriedOffsets(hit, start, 0, batches)
  }

  lemma ProgressStarts(hit: Word -> bool, start: Word, batches: seq<nat>)
    ensures Progress(hit, start, batches, 0, 0, [], [])
  {
    assert batches[0..] == batches;
  }

  lemma ProgressStep(hit: Word -> bool, start: Word, batches: seq<nat>, n: nat, base: nat, hits: seq<nat>, tried: seq<nat>)
    requires Progress(hit, start, batches, n, base, hits, tried) && n < |batches|
    ensures
      var end := base + batches[n];
      var k := FirstHit(hit, start, base, end);
      Progress(hit, start, batches, n + 1, end,
               if k < end then hits + [k] else hits, tried + Range(base, Attempts(base, batches[n], k)))
  {
    var rest := batches[n..];
    assert rest[0] == batches[n] && rest[1..] == batches[n + 1..];
  }

  lemma ProgressEnds(hit: Word -> bool, start: Word, batches: seq<nat>, base: nat, hits: seq<nat>, tried: seq<nat>)
    requires Progress(hit, start, batches, |batches|, base, hits, tried)
    ensures hits == HitOffsets(hit, start, 0, batches) && tried == TriedOffsets(hit, start, 0, batches)
  {
    assert batches[|batches|..] == [];
  }

  function TriedNonces(hit: Word -> bool, start: Word, batches: seq<nat>): (nonces: seq<Word>)
    ensures |nonces| == |TriedOffsets(hit, start, 0, batches)|
    ensures forall i :: 0 <= i < |nonces| ==> nonces[i] == NonceAt(start, TriedOffsets(hit, start, 0, batches)[i])
  {
    var tried := TriedOffsets(hit, start, 0, batches);
    seq(|tried|, i requires 0 <= i < |tried| => NonceAt(start, tried[i]))
  }

  ghost predicate Increasing(s: seq<nat>) {
    forall i, j :: 0 <= i < j < |s| ==> s[i] < s[j]
  }

  ghost predicate Within(s: seq<nat>, lo: nat, hi: nat) {
    forall i :: 0 <= i < |s| ==> lo <= s[i] < hi
  }

  lemma Appended(a: seq<nat>, b: seq<nat>, lo: nat, mid: nat, hi: nat)
    requires Increasing(a) && Increasing(b) && Within(a, lo, mid) && Within(b, mid, hi)
    requires lo <= mid <= hi
    ensures Increasing(a + b) && Within(a + b, lo, hi)
  {
  }

  ghost predicate AllHit(hit: Word -> bool, start: Word, s: seq<nat>) {
    forall i :: 0 <= i < |s| ==> hit(NonceAt(start, s[i]))
  }

  /** Every share hits, lies in the window of the batches, and there is at most
      one per batch, each at a later offset than the one before. */
  lemma {:induction false} SharesAreFirstHits(hit: Word -> bool, start: Word, base: nat, batches: seq<nat>)
    ensures |HitOffsets(hit, start, base, batches)| <= |batches|
    ensures AllHit(hit, start, HitOffsets(hit, start, base, batches))
    ensures Within(HitOffsets(hit, start, base, batches), base, base + Sum(batches))
    ensures Increasing(HitOffsets(hit, start, base, batches))
    decreases |batches|
  {
    if batches != [] {
      var end := base + batches[0];
      SharesAreFirstHits(hit, start, end, batches[1..]);
      var k := FirstHit(hit, start, base, end);
      var head, rest := if k < end then [k] else [], HitOffsets(hit, start, end, batches[1..]);
      Appended(head, rest, base, end, base + Sum(batches));
      assert AllHit(hit, start, head + rest);
    }
  }

  lemma SumCons(batches: seq<nat>, b: nat)
    requires 0 < b <= |batches|
    ensures Sum(batches[..b]) == batches[0] + Sum(batches[1..][..b - 1])
  {
    assert batches[..b][1..] == batches[1..][..b - 1];
  }

  /** What batch number b is: the window it searches and its first hit. */
  ghost predicate SharesOf(hit: Word -> bool, start: Word, hits: seq<nat>, lo: nat, hi: nat)
    requires lo <= hi
  {
    forall o :: lo <= o < hi ==> (o in hits <==> o == FirstHit(hit, start, lo, hi))
  }

  lemma OtherWindow(hit: Word -> bool, start: Word, head: seq<nat>, rest: seq<nat>, mid: nat, lo: nat, hi: nat)
    requires mid <= lo <= hi && Within(head, 0, mid) && SharesOf(hit, start, rest, lo, hi)
    ensures SharesOf(hit, start, head + rest, lo, hi)
  {
  }

  /** The share of the first batch. */
  lemma FirstBatchShare(hit: Word -> bool, start: Word, base: nat, batches: seq<nat>)
    requires batches != [] && Within(HitOffsets(hit, start, base + batches[0], batches[1..]), base + batches[0], base + Sum(batches))
    ensures SharesOf(hit, start, HitOffsets(hit, start, base, batches), base, base + batches[0])
  {
    hide HitOffsets, FirstHit, TriedOffsets, Sum;
    UnfoldBatches(hit, start, base, batches);
  }

  /** Batches after the first share what they share on their own. */
  lemma LaterBatchShare(hit: Word -> bool, start: Word, base: nat, batches: seq<nat>, lo: nat, hi: nat)
    requires batches != [] && base + batches[0] <= lo <= hi
    requires SharesOf(hit, start, HitOffsets(hit, start, base + batches[0], batches[1..]), lo, hi)
    ensures SharesOf(hit, start, HitOffsets(hit, start, base, batches), lo, hi)
  {
    hide HitOffsets, TriedOffsets, SharesOf;
    UnfoldBatches(hit, start, base, batches);
    var end := base + batches[0];
    var k := FirstHit(hit, start, base, end);
    OtherWindow(hit, start, if k < end then [k] else [], HitOffsets(hit, start, end, batches[1..]), end, lo, hi);
  }

  /** Batch b yields a share exactly when its window holds a hit, and that share
      is the window's first hit. */
  lemma {:induction false} BatchShare(hit: Word -> bool, start: Word, base: nat, batches: seq<nat>, b: nat)
    requires b < |batches|
    ensures
      var lo := base + Sum(batches[..b]);
      SharesOf(hit, start, HitOffsets(hit, start, base, batches), lo, lo + batches[b])
    decreases |batches|
  {
    hide HitOffsets, SharesOf;
    if b == 0 {
      SharesAreFirstHits(hit, start, base + batches[0], batches[1..]);
      assert Sum(batches[..0]) == 0;
      FirstBatchShare(hit, start, base, batches);
    } else {
      BatchShare(hit, start, base + batches[0], batches[1..], b - 1);
      SumCons(batches, b);
      var lo := base + Sum(batches[..b]);
      LaterBatchShare(hit, start, base, batches, lo, lo + batches[b]);
    }
  }

  /** The offsets a worker tries grow strictly and stay inside its batches. */
  lemma {:induction false} TriedGrows(hit: Word -> bool, start: Word, base: nat, batches: seq<nat>)
    ensures Within(TriedOffsets(hit, start, base, batches), base, base + Sum(batches))
    ensures Increasing(TriedOffsets(hit, start, base, batches))
    decreases |batches|
  {
    if batches != [] {
      var end := base + batches[0];
      TriedGrows(hit, start, end, batches[1..]);
      var head := Range(base, Attempts(base, batches[0], FirstHit(hit, start, base, end)));
      Appended(head, TriedOffsets(hit, start, end, batches[1..]), base, end, base + Sum(batches));
    }
  }

  /** What was tried and hits is what was shared. */
  ghost predicate Decided(hit: Word -> bool, start: Word, tried: seq<nat>, hits: seq<nat>) {
    && (forall o <- tried :: hit(NonceAt(start, o)) <==> o in hits)
    && (forall o <- hits :: o in tried)
  }

  lemma DecidedAppend(hit: Word -> bool, start: Word, a: seq<nat>, b: seq<nat>, ha: seq<nat>, hb: seq<nat>, mid: nat, end: nat)
    requires Decided(hit, start, a, ha) && Decided(hit, start, b, hb)
    requires Within(a, 0, mid) && Within(b, mid, end)
    ensures Decided(hit, start, a + b, ha + hb)
  {
    assert forall o <- a :: o < mid;
    assert forall o <- b :: mid <= o;
  }

  lemma BatchDecided(hit: Word -> bool, start: Word, base: nat, batch: nat)
    ensures
      var k := FirstHit(hit, start, base, base + batch);
      Decided(hit, start, Range(base, Attempts(base, batch, k)), if k < base + batch then [k] else [])
  {
    var k := FirstHit(hit, start, base, base + batch);
    var tried := Range(base, Attempts(base, batch, k));
    hide FirstHit;
    assert k < base + batch ==> tried[k - base] == k;
    forall o <- tried ensures hit(NonceAt(start, o)) <==> o in (if k < base + batch then [k] else []) {
      assert base <= o <= k;
    }
  }

  lemma DecidedStep(hit: Word -> bool, start: Word, base: nat, batches: seq<nat>)
    requires batches != []
    requires
      var end, rest := base + batches[0], batches[1..];
      && Decided(hit, start, TriedOffsets(hit, start, end, rest), HitOffsets(hit, start, end, rest))
      && Within(TriedOffsets(hit, start, end, rest), end, end + Sum(rest))
    ensures Decided(hit, start, TriedOffsets(hit, start, base, batches), HitOffsets(hit, start, base, batches))
  {
    hide FirstHit, Decided, TriedOffsets, HitOffsets, Sum;
    var end, rest := base + batches[0], batches[1..];
    var k := FirstHit(hit, start, base, end);
    var tried, head := Range(base, Attempts(base, batches[0], k)), if k < end then [k] else [];
    BatchDecided(hit, start, base, batches[0]);
    UnfoldBatches(hit, start, base, batches);
    assert Within(tried, 0, end);
    DecidedAppend(hit, start, tried, TriedOffsets(hit, start, end, rest), head, HitOffsets(hit, start, end, rest),
                  end, end + Sum(rest));
  }

  /** Every nonce that is tried is decided: it is shared exactly when it hits; and
      every share was tried. */
  lemma {:induction false} TriedAreDecided(hit: Word -> bool, start: Word, base: nat, batches: seq<nat>)
    ensures Decided(hit, start, TriedOffsets(hit, start, base, batches), HitOffsets(hit, start, base, batches))
    decreases |batches|
  {
    if batches == [] {
      NoBatches(hit, start, base);
    } else {
      TriedAreDecided(hit, start, base + batches[0], batches[1..]);
      TriedGrows(hit, start, base + batches[0], batches[1..]);
      DecidedStep(hit, start, base, batches);
    }
  }

  lemma NoBatches(hit: Word -> bool, start: Word, base: nat)
    ensures TriedOffsets(hit, start, base, []) == [] && HitOffsets(hit, start, base, []) == []
  {
  }

  lemma UnfoldBatches(hit: Word -> bool, start: Word, base: nat, batches: seq<nat>)
    requires batches != []
    ensures
      var end := base + batches[0];
      var k := FirstHit(hit, start, base, end);
      && HitOffsets(hit, start, base, batches) == (if k < end then [k] else []) + HitOffsets(hit, start, end, batches[1..])
      && TriedOffsets(hit, start, base, batches)
         == Range(base, Attempts(base, batches[0], k)) + TriedOffsets(hit, start, end, batches[1..])
  {
  }

  /** Batches without a hit try every nonce of their window, and by TriedGrows once. */
  lemma {:induction false} HitlessTriesAll(hit: Word -> bool, start: Word, base: nat, batches: seq<nat>)
    requires HitOffsets(hit, start, base, batches) == []
    ensures TriedOffsets(hit, start, base, batches) == Range(base, Sum(batches))
    decreases |batches|
  {
    if batches != [] {
      var end := base + batches[0];
      HitlessTriesAll(hit, start, end, batches[1..]);
      assert Range(base, batches[0]) + Range(end, Sum(batches[1..])) == Range(base, Sum(batches));
    }
  }

  /** `unit` in start_mining_threads. */
  function Unit(p: nat): nat
    requires p > 0
  {
    U32_MAX / p
  }

  /** The largest unit of which p fit below u32::MAX. */
  lemma UnitIsQuotient(p: nat)
    requires p > 0
    ensures p * Unit(p) <= U32_MAX < p * (Unit(p) + 1) && U32_MAX == 0xffff_ffff
  {
    DivMul(U32_MAX, p);
    assert U32_MAX == p * (U32_MAX / p) + U32_MAX % p;
    assert p * (Unit(p) + 1) == p * Unit(p) + p;
  }

  lemma MulMono(a: nat, b: nat, u: nat)
    requires a <= b
    ensures a * u <= b * u
  {
  }

  lemma Distribute(a: nat, u: nat)
    ensures (a + 1) * u == a * u + u
  {
  }

  lemma DivMul(n: nat, p: nat)
    requires p > 0
    ensures p * (n / p) <= n
  {
  }

  lemma StartsFit(p: nat, i: nat)
    requires i < p
    ensures i * Unit(p) + Unit(p) <= U32_MAX
  {
    MulMono(i + 1, p, Unit(p));
    Distribute(i, Unit(p));
    DivMul(U32_MAX, p);
  }

  /** The spawn loop: start nonces never overflow. */
  method StartNonces(p: nat) returns (starts: seq<Word>)
    requires p > 0
    ensures |starts| == p && forall i :: 0 <= i < p ==> starts[i] == i * Unit(p)
  {
    starts := [];
    for i := 0 to p
      invariant |starts| == i && forall j :: 0 <= j < i ==> starts[j] == j * Unit(p)
    {
      StartsFit(p, i);
      starts := starts + [i * Unit(p)];
    }
  }

  /** A window that does not run past 2^32 is tried without wrap-around. */
  lemma InWindow(hit: Word -> bool, start: Word, batches: seq<nat>, unit: nat)
    requires start + unit <= U32_MAX && Sum(batches) <= unit
    ensures Within(TriedNonces(hit, start, batches), start, start + unit)
    ensures Increasing(TriedNonces(hit, start, batches))
  {
    TriedGrows(hit, start, 0, batches);
    var tried, nonces := TriedOffsets(hit, start, 0, batches), TriedNonces(hit, start, batches);
    assert forall i :: 0 <= i < |nonces| ==> nonces[i] == start + tried[i];
  }

  /** While its batches cover at most `unit` nonces, a worker stays in its own
      slice and repeats none. */
  lemma WorkerStaysInSlice(hit: Word -> bool, start: Word, batches: seq<nat>, p: nat, i: nat)
    requires i < p && start == i * Unit(p) && Sum(batches) <= Unit(p)
    ensures Within(TriedNonces(hit, start, batches), i * Unit(p), i * Unit(p) + Unit(p))
    ensures Increasing(TriedNonces(hit, start, batches))
  {
    StartsFit(p, i);
    InWindow(hit, start, batches, Unit(p));
  }

  /** Then no nonce is tried by two workers. */
  lemma WorkersAreDisjoint(hit: Word -> bool, ib: seq<nat>, jb: seq<nat>, p: nat, i: nat, j: nat, si: Word, sj: Word)
    requires i < j < p && si == i * Unit(p) && sj == j * Unit(p)
    requires Sum(ib) <= Unit(p) && Sum(jb) <= Unit(p)
    ensures forall n <- TriedNonces(hit, si, ib) :: n !in TriedNonces(hit, sj, jb)
  {
    WorkerStaysInSlice(hit, si, ib, p, i);
    WorkerStaysInSlice(hit, sj, jb, p, j);
    MulMono(i + 1, j, Unit(p));
    Distribute(i, Unit(p));
  }

  /** One nonce more and a hitless worker repeats the next worker's first one. */
  lemma OverrunCollides(hit: Word -> bool, start: Word, batches: seq<nat>, p: nat, i: nat)
    requires i + 1 < p && start == i * Unit(p) && Sum(batches) > Unit(p)
    requires HitOffsets(hit, start, 0, batches) == []
    ensures (i + 1) * Unit(p) in TriedNonces(hit, start, batches)
  {
    HitlessTriesAll(hit, start, 0, batches);
    StartsFit(p, i);
    Distribute(i, Unit(p));
    var nonces := TriedNonces(hit, start, batches);
    assert nonces[Unit(p)] == NonceAt(start, Unit(p)) == (i + 1) * Unit(p);
  }
}

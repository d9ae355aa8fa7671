/** The Bitcoin Merkle tree and its branch for the coinbase, over an arbitrary
    double SHA-256. */
module Merkle {
  import opened Bytes

  type Hasher = seq<Byte> -> Hash32

  function Combine(sha256d: Hasher, left: seq<Byte>, right: seq<Byte>): Hash32 {
    sha256d(left + right)
  }

  /** One level up: neighbours are hashed together, an odd last entry with itself. */
  function Level(sha256d: Hasher, row: seq<Hash32>): (up: seq<Hash32>)
    requires row != []
    ensures |up| == (|row| + 1) / 2
  {
    seq((|row| + 1) / 2, i requires 0 <= i < (|row| + 1) / 2 =>
      Combine(sha256d, row[2 * i], row[if 2 * i + 1 < |row| then 2 * i + 1 else 2 * i]))
  }

  function Root(sha256d: Hasher, row: seq<Hash32>): Hash32
    requires row != []
    decreases |row|
  {
    if |row| == 1 then row[0] else Root(sha256d, Level(sha256d, row))
  }

  /** The siblings of the first leaf, bottom up. */
  function CoinbaseBranch(sha256d: Hasher, row: seq<Hash32>): seq<Hash32>
    requires row != []
    decreases |row|
  {
    if |row| == 1 then [] else [row[1]] + CoinbaseBranch(sha256d, Level(sha256d, row))
  }

  function Fold(sha256d: Hasher, leaf: Hash32, path: seq<seq<Byte>>): Hash32
    decreases |path|
  {
    if path == [] then leaf else Fold(sha256d, Combine(sha256d, leaf, path[0]), path[1..])
  }

  // What the tree is, naming the hash function alone.

  lemma LevelIs(sha256d: Hasher, row: seq<Hash32>, i: nat)
    requires row != [] && i < (|row| + 1) / 2
    ensures
      var left: seq<Byte>, right: seq<Byte> := row[2 * i], row[if 2 * i + 1 < |row| then 2 * i + 1 else 2 * i];
      Level(sha256d, row)[i] == sha256d(left + right)
  {
  }

  /** One to four leaves: left before right, an odd last one with itself. */
  lemma SmallTrees(sha256d: Hasher, a: seq<Byte>, b: seq<Byte>, c: seq<Byte>, d: seq<Byte>)
    requires |a| == |b| == |c| == |d| == 32
    ensures
      var ab: seq<Byte>, cc: seq<Byte>, cd: seq<Byte> := sha256d(a + b), sha256d(c + c), sha256d(c + d);
      && Root(sha256d, [a]) == a
      && Root(sha256d, [a, b]) == ab
      && Root(sha256d, [a, b, c]) == sha256d(ab + cc)
      && Root(sha256d, [a, b, c, d]) == sha256d(ab + cd)
  {
    var ab: seq<Byte>, cc: seq<Byte>, cd: seq<Byte> := sha256d(a + b), sha256d(c + c), sha256d(c + d);
    var row3: seq<Hash32>, row4: seq<Hash32> := [ab, cc], [ab, cd];
    TwoLeaves(sha256d, a, b);
    TwoLeaves(sha256d, ab, cc);
    TwoLeaves(sha256d, ab, cd);
    assert Level(sha256d, [a, b, c]) == row3 && Level(sha256d, [a, b, c, d]) == row4;
  }

  lemma TwoLeaves(sha256d: Hasher, a: seq<Byte>, b: seq<Byte>)
    requires |a| == |b| == 32
    ensures Root(sha256d, [a, b]) == sha256d(a + b) && CoinbaseBranch(sha256d, [a, b]) == [b]
  {
    assert Level(sha256d, [a, b]) == [sha256d(a + b)];
    assert CoinbaseBranch(sha256d, [sha256d(a + b)]) == [];
  }

  /** The siblings of the first leaf of four: its neighbour and the other pair's hash. */
  lemma SmallBranch(sha256d: Hasher, a: seq<Byte>, b: seq<Byte>, c: seq<Byte>, d: seq<Byte>)
    requires |a| == |b| == |c| == |d| == 32
    ensures CoinbaseBranch(sha256d, [a, b, c, d]) == [b, sha256d(c + d)]
  {
    var row: seq<Hash32> := [sha256d(a + b), sha256d(c + d)];
    TwoLeaves(sha256d, row[0], row[1]);
    assert Level(sha256d, [a, b, c, d]) == row;
  }

  /** Folding takes the siblings bottom up, the current hash always on the left. */
  lemma {:induction false} FoldAppend(sha256d: Hasher, leaf: Hash32, path: seq<seq<Byte>>, sibling: seq<Byte>)
    ensures
      var current: seq<Byte> := Fold(sha256d, leaf, path);
      Fold(sha256d, leaf, path + [sibling]) == sha256d(current + sibling)
    decreases |path|
  {
    if path == [] {
      assert (path + [sibling])[1..] == [];
      assert Fold(sha256d, leaf, [sibling]) == Fold(sha256d, Combine(sha256d, leaf, sibling), []);
    } else {
      assert (path + [sibling])[1..] == path[1..] + [sibling];
      FoldAppend(sha256d, Combine(sha256d, leaf, path[0]), path[1..], sibling);
    }
  }

  lemma LevelReplace(sha256d: Hasher, row: seq<Hash32>, leaf: Hash32)
    requires |row| >= 2
    ensures Level(sha256d, row[0 := leaf]) == Level(sha256d, row)[0 := Combine(sha256d, leaf, row[1])]
  {
  }

  /** Nothing in the branch depends on the leaf it belongs to. */
  lemma {:induction false} BranchIgnoresLeaf(sha256d: Hasher, row: seq<Hash32>, leaf: Hash32)
    requires row != []
    ensures CoinbaseBranch(sha256d, row[0 := leaf]) == CoinbaseBranch(sha256d, row)
    decreases |row|
  {
    if |row| >= 2 {
      LevelReplace(sha256d, row, leaf);
      BranchIgnoresLeaf(sha256d, Level(sha256d, row), Combine(sha256d, leaf, row[1]));
    }
  }

  /** Folding any replacement leaf through the branch of a list is the Merkle
      root of the list with that leaf. */
  lemma {:induction false} FoldIsRoot(sha256d: Hasher, row: seq<Hash32>, leaf: Hash32)
    requires row != []
    ensures Fold(sha256d, leaf, CoinbaseBranch(sha256d, row)) == Root(sha256d, row[0 := leaf])
    decreases |row|
  {
    if |row| >= 2 {
      var up, next := Level(sha256d, row), Combine(sha256d, leaf, row[1]);
      LevelReplace(sha256d, row, leaf);
      FoldIsRoot(sha256d, up, next);
      var path := CoinbaseBranch(sha256d, row);
      assert path[0] == row[1] && path[1..] == CoinbaseBranch(sha256d, up);
    }
  }
}

/** The template data of bitcoin-core-sv2 and the block it assembles from a
    submitted solution. */
module TemplateSolution {
  import opened Bytes
  import opened Merkle
  import opened MiningHash

  datatype TxIn = TxIn(previousOutput: nat, scriptSig: seq<Byte>, sequence: Word, witnessStack: seq<seq<Byte>>)

  datatype Transaction = Transaction(version: int, inputs: seq<TxIn>, outputs: seq<seq<Byte>>, lockTime: Word)

  datatype Block = Block(header: Header, txdata: seq<Transaction>)

  datatype Solution = Solution(coinbase: Transaction, version: Word, timestamp: Word, nonce: Word)

  datatype Outcome = Dumped(block: Block) | Rejected | Panicked

  /** What consensus and hashing supply: double SHA-256, transaction ids, and the
      target that compact bits stand for. */
  datatype Chain = Chain(sha256d: Hasher, txid: Transaction -> Hash32, target: Word -> nat)

  function Txids(c: Chain, txs: seq<Transaction>): (ids: seq<Hash32>)
    ensures |ids| == |txs| && forall i :: 0 <= i < |txs| ==> ids[i] == c.txid(txs[i])
  {
    seq(|txs|, i requires 0 <= i < |txs| => c.txid(txs[i]))
  }

  predicate MeetsTarget(c: Chain, h: Header) {
    LeValue(c.sha256d(Serialize(h))) <= c.target(h.bits)
  }

  /** The solution may change script and outputs of the coinbase, nothing else. */
  predicate Congruent(a: Transaction, template: Transaction)
    requires |template.inputs| > 0
  {
    && a.version == template.version && a.lockTime == template.lockTime && |a.inputs| == 1
    && a.inputs[0] == template.inputs[0].(scriptSig := a.inputs[0].scriptSig)
  }

  /** Every field but the script and the outputs must be the template's. */
  lemma CongruentIff(a: Transaction, template: Transaction)
    requires |template.inputs| > 0
    ensures Congruent(a, template) <==>
      && a.version == template.version && a.lockTime == template.lockTime && |a.inputs| == 1
      && a.inputs[0].sequence == template.inputs[0].sequence
      && a.inputs[0].witnessStack == template.inputs[0].witnessStack
      && a.inputs[0].previousOutput == template.inputs[0].previousOutput
  {
  }

  class TemplateData {
    const chain: Chain
    const header: Header
    const coinbaseTx: Transaction
    const merklePath: seq<seq<Byte>>

    constructor (c: Chain, h: Header, coinbase: Transaction, path: seq<seq<Byte>>)
      ensures chain == c && header == h && coinbaseTx == coinbase && merklePath == path
    {
      chain, header, coinbaseTx, merklePath := c, h, coinbase, path;
    }

    /** The Merkle loop. */
    method FoldPath(leaf: Hash32) returns (current: Hash32)
      ensures current == Fold(chain.sha256d, leaf, merklePath)
    {
      current := leaf;
      for i := 0 to |merklePath|
        invariant Fold(chain.sha256d, leaf, merklePath) == Fold(chain.sha256d, current, merklePath[i..])
      {
        assert merklePath[i..][1..] == merklePath[i + 1..];
        current := Combine(chain.sha256d, current, merklePath[i]);
      }
    }

    /** `dump_solution_to_disk`; `fetched` is the block Bitcoin Core returns for
        this template. A dumped block carries the solution's coinbase, fulfils
        its own proof of work, and, when the path is the coinbase branch of the
        fetched block, its header commits to exactly its transactions. */
    method DumpSolution(s: Solution, fetched: Block) returns (outcome: Outcome)
      ensures
        var root := Fold(chain.sha256d, chain.txid(s.coinbase), merklePath);
        var h := Header(s.version, header.prevBlockhash, root, s.timestamp, header.bits, s.nonce);
        var meets := LeValue(chain.sha256d(Serialize(h))) <= chain.target(header.bits);
        && (outcome.Dumped? <==>
              |coinbaseTx.inputs| > 0 && Congruent(s.coinbase, coinbaseTx) && meets && fetched.txdata != [])
        && (outcome.Panicked? <==>
              && s.coinbase.version == coinbaseTx.version && s.coinbase.lockTime == coinbaseTx.lockTime
              && |s.coinbase.inputs| == 1
              && (|coinbaseTx.inputs| > 0 ==> Congruent(s.coinbase, coinbaseTx) && meets && fetched.txdata == []))
        && (outcome.Dumped? ==> outcome.block == Block(h, fetched.txdata[0 := s.coinbase]))
      ensures outcome.Dumped? && merklePath == CoinbaseBranch(chain.sha256d, Txids(chain, fetched.txdata)) ==>
        outcome.block.header.merkleRoot == Root(chain.sha256d, Txids(chain, outcome.block.txdata))
    {
      if s.coinbase.version != coinbaseTx.version || s.coinbase.lockTime != coinbaseTx.lockTime || |s.coinbase.inputs| != 1 {
        return Rejected;
      }
      if coinbaseTx.inputs == [] {
        return Panicked;
      }
      var input, templateInput := s.coinbase.inputs[0], coinbaseTx.inputs[0];
      if input.sequence != templateInput.sequence || input.witnessStack != templateInput.witnessStack
         || input.previousOutput != templateInput.previousOutput
      {
        return Rejected;
      }
      var root := FoldPath(chain.txid(s.coinbase));
      var h := Header(s.version, header.prevBlockhash, root, s.timestamp, header.bits, s.nonce);
      if !MeetsTarget(chain, h) {
        return Rejected;
      }
      if fetched.txdata == [] {
        return Panicked;
      }
      ghost var ids := Txids(chain, fetched.txdata);
      FoldIsRoot(chain.sha256d, ids, chain.txid(s.coinbase));
      assert ids[0 := chain.txid(s.coinbase)] == Txids(chain, fetched.txdata[0 := s.coinbase]);
      outcome := Dumped(Block(h, fetched.txdata[0 := s.coinbase]));
    }
  }
}

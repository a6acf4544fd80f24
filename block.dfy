/**
 * Blocks as blockchain/block.js builds them: the record, the genesis block,
 * the difficulty adjustment and the proof-of-work search of `mineBlock`.
 */
module Blocks {
  import opened Transactions

  /** A hexadecimal digest as `cryptoHash` returns it. */
  type Hash = string

  datatype Block = Block(timestamp: int, lastHash: Hash, hash: Hash, data: seq<TxValue>,
                         nonce: int, difficulty: int)

  /**
   * The hashing collaborators: `cryptoHash` over the five mined fields in the
   * order `mineBlock` passes them, and `hexToBinary`, which spells a digest
   * as a string of '0' and '1'.
   */
  datatype HashOps = HashOps(
    cryptoHash: (int, Hash, seq<TxValue>, int, int) -> Hash,
    hexToBinary: Hash -> string)

  /** `Date.now()` as `mineBlock` reads it: the time at attempt number n. */
  type Clock = nat -> int

  /** `Block.genesis()`: the constructor applied to the configured genesis fields. */
  function Genesis(genesisData: Block): (b: Block)
    ensures b == genesisData
  {
    Block(genesisData.timestamp, genesisData.lastHash, genesisData.hash, genesisData.data,
          genesisData.nonce, genesisData.difficulty)
  }

  function Abs(x: int): nat {
    if x < 0 then -x else x
  }

  /**
   * `adjustDifficulty`: a block whose difficulty is below 1 is followed by
   * difficulty 1; otherwise the difficulty falls by one when the block took
   * longer than `mineRate` to mine, and rises by one when it did not.
   */
  function AdjustDifficulty(originalBlock: Block, timestamp: int, mineRate: int): (difficulty: int)
    ensures difficulty >= 0
    ensures originalBlock.difficulty < 1 ==> difficulty == 1
    ensures originalBlock.difficulty >= 1 ==>
      Abs(difficulty - originalBlock.difficulty) == 1 &&
      (difficulty < originalBlock.difficulty <==> timestamp - originalBlock.timestamp > mineRate)
  {
    var difficulty := originalBlock.difficulty;
    if difficulty < 1 then
      1
    else if timestamp - originalBlock.timestamp > mineRate then
      difficulty - 1
    else
      difficulty + 1
  }

  /** `c.repeat(n)`. */
  function Repeat(c: char, n: nat): (s: string)
    ensures |s| == n && forall i :: 0 <= i < n ==> s[i] == c
  {
    if n == 0 then [] else [c] + Repeat(c, n - 1)
  }

  /** `s.substring(0, n)`: the first n characters, or all of them when there are fewer. */
  function Prefix(s: string, n: nat): (p: string)
    ensures |p| == if n <= |s| then n else |s|
    ensures p == s[..|p|]
  {
    if n <= |s| then s[..n] else s
  }

  /** The binary spelling starts with at least n zeros. */
  predicate HasLeadingZeros(bits: string, n: nat) {
    n <= |bits| && forall i :: 0 <= i < n ==> bits[i] == '0'
  }

  /** The exit test of `mineBlock`, which compares a prefix with a string of zeros. */
  predicate MeetsDifficulty(ops: HashOps, hash: Hash, difficulty: nat) {
    Prefix(ops.hexToBinary(hash), difficulty) == Repeat('0', difficulty)
  }

  /** The exit test holds exactly when the binary hash has `difficulty` leading zeros. */
  lemma LeadingZerosTest(ops: HashOps, hash: Hash, difficulty: nat)
    ensures MeetsDifficulty(ops, hash, difficulty) <==> HasLeadingZeros(ops.hexToBinary(hash), difficulty)
  {
  }

  /** A block whose hash has as many leading zero bits as its difficulty demands. */
  predicate ProofOfWork(ops: HashOps, b: Block) {
    b.difficulty >= 0 && HasLeadingZeros(ops.hexToBinary(b.hash), b.difficulty)
  }

  /** The hash field is the digest of the other mined fields. */
  predicate Sealed(ops: HashOps, b: Block) {
    b.hash == ops.cryptoHash(b.timestamp, b.lastHash, b.data, b.nonce, b.difficulty)
  }

  /** The block that attempt number `nonce` of `mineBlock` builds. */
  function Attempt(ops: HashOps, mineRate: int, clock: Clock, lastBlock: Block, data: seq<TxValue>,
                   nonce: nat): (b: Block)
    ensures b.timestamp == clock(nonce)
    ensures b.nonce == nonce && b.lastHash == lastBlock.hash && b.data == data && Sealed(ops, b)
    ensures b.difficulty == AdjustDifficulty(lastBlock, b.timestamp, mineRate)
  {
    var timestamp := clock(nonce);
    var difficulty := AdjustDifficulty(lastBlock, timestamp, mineRate);
    Block(timestamp, lastBlock.hash, ops.cryptoHash(timestamp, lastBlock.hash, data, nonce, difficulty),
          data, nonce, difficulty)
  }

  /**
   * What every mined block satisfies with respect to the block it extends:
   * it links to it, is sealed, proves its work, and its difficulty is the
   * adjustment of the previous one at its own timestamp.
   */
  predicate MinedOn(ops: HashOps, mineRate: int, lastBlock: Block, b: Block) {
    b.lastHash == lastBlock.hash && Sealed(ops, b) && ProofOfWork(ops, b) &&
    b.difficulty == AdjustDifficulty(lastBlock, b.timestamp, mineRate)
  }

  /**
   * `mineBlock`: tries nonces 1, 2, ... until the hash meets the difficulty.
   * `bound` is a nonce at which the search is known to succeed; it stands for
   * the assumption that proof of work eventually finds a hash.
   */
  method MineBlock(ops: HashOps, mineRate: int, clock: Clock, lastBlock: Block, data: seq<TxValue>,
                   ghost bound: nat)
    returns (block: Block)
    requires bound >= 1 && ProofOfWork(ops, Attempt(ops, mineRate, clock, lastBlock, data, bound))
    ensures 1 <= block.nonce <= bound
    ensures block == Attempt(ops, mineRate, clock, lastBlock, data, block.nonce)
    ensures MinedOn(ops, mineRate, lastBlock, block)
    ensures forall n :: 1 <= n < block.nonce ==> !ProofOfWork(ops, Attempt(ops, mineRate, clock, lastBlock, data, n))
  {
    var lastHash := lastBlock.hash;
    var difficulty := lastBlock.difficulty;
    var nonce: nat := 0;
    var hash, timestamp := lastBlock.hash, lastBlock.timestamp;
    while true
      invariant nonce < bound
      invariant forall n :: 1 <= n <= nonce ==> !ProofOfWork(ops, Attempt(ops, mineRate, clock, lastBlock, data, n))
      decreases bound - nonce
    {
      nonce := nonce + 1;
      timestamp := clock(nonce);
      difficulty := AdjustDifficulty(lastBlock, timestamp, mineRate);
      hash := ops.cryptoHash(timestamp, lastHash, data, nonce, difficulty);
      LeadingZerosTest(ops, hash, difficulty);
      if MeetsDifficulty(ops, hash, difficulty) {
        break;
      }
    }
    block := Block(timestamp, lastHash, hash, data, nonce, difficulty);
  }
}

/**
 * The chain as blockchain/index.js keeps it: the `Blockchain` object with its
 * mutable `chain`, mining onto the tip, the longest-valid-chain replacement
 * rule, and the two validity checks it relies on.
 */
module Ledger {
  import opened Transactions
  import opened Blocks

  /** The configuration constants the chain reads. */
  datatype Config = Config(genesisData: Block, mineRate: int, rewardAddress: Address, miningReward: int)

  /** `Wallet.calculateBalance`: the balance of an address over a chain. */
  type BalanceOracle = (seq<Block>, Address) -> int

  // ---------------------------------------------------------------------------
  // Chain validity

  /** The three checks `isValidChain` makes on a block and its predecessor. */
  predicate LinkValid(ops: HashOps, previous: Block, b: Block) {
    b.lastHash == previous.hash && Sealed(ops, b) && Abs(b.difficulty - previous.difficulty) <= 1
  }

  /** A chain that starts with the genesis block and whose every block passes the checks. */
  predicate ValidChain(cfg: Config, ops: HashOps, chain: seq<Block>) {
    |chain| >= 1 && chain[0] == Genesis(cfg.genesisData) &&
    forall i :: 1 <= i < |chain| ==> LinkValid(ops, chain[i - 1], chain[i])
  }

  /** Every block after the first is one that `mineBlock` can produce on its predecessor. */
  predicate MinedChain(cfg: Config, ops: HashOps, chain: seq<Block>) {
    forall i :: 1 <= i < |chain| ==> MinedOn(ops, cfg.mineRate, chain[i - 1], chain[i])
  }

  /**
   * A chain grown from a genesis block of non-negative difficulty by mining
   * alone passes `isValidChain`.
   */
  lemma MinedChainValid(cfg: Config, ops: HashOps, chain: seq<Block>)
    requires |chain| >= 1 && chain[0] == Genesis(cfg.genesisData) && cfg.genesisData.difficulty >= 0
    requires MinedChain(cfg, ops, chain)
    ensures ValidChain(cfg, ops, chain)
  {
    forall i | 1 <= i < |chain|
      ensures LinkValid(ops, chain[i - 1], chain[i])
    {
      assert MinedOn(ops, cfg.mineRate, chain[i - 1], chain[i]);
      if i > 1 {
        assert MinedOn(ops, cfg.mineRate, chain[i - 2], chain[i - 1]);
      }
      assert chain[i - 1].difficulty >= 0;
    }
  }

  /** Mining onto the tip of a valid chain whose tip difficulty is not negative keeps it valid. */
  lemma ExtendValidChain(cfg: Config, ops: HashOps, chain: seq<Block>, b: Block)
    requires ValidChain(cfg, ops, chain) && chain[|chain| - 1].difficulty >= 0
    requires MinedOn(ops, cfg.mineRate, chain[|chain| - 1], b)
    ensures ValidChain(cfg, ops, chain + [b])
  {
  }

  /** `cryptoHash` never gives two different field tuples one digest. */
  ghost predicate HashInjective(ops: HashOps) {
    forall t1, h1, d1, n1, k1, t2, h2, d2, n2, k2 ::
      ops.cryptoHash(t1, h1, d1, n1, k1) == ops.cryptoHash(t2, h2, d2, n2, k2) ==>
        t1 == t2 && h1 == h2 && d1 == d2 && n1 == n2 && k1 == k2
  }

  /**
   * With an injective hash, a block put in place of block i of a valid chain
   * keeps the chain valid only if it is the original block: a forgery is
   * detected whether it keeps the old hash or, when a later block links to
   * it, carries a new one.
   */
  lemma TamperingDetected(cfg: Config, ops: HashOps, chain: seq<Block>, i: nat, forged: Block)
    requires HashInjective(ops)
    requires ValidChain(cfg, ops, chain) && i < |chain|
    requires forged.hash == chain[i].hash || i + 1 < |chain|
    ensures ValidChain(cfg, ops, chain[i := forged]) ==> forged == chain[i]
  {
    var tampered := chain[i := forged];
    if ValidChain(cfg, ops, tampered) && i > 0 {
      assert LinkValid(ops, tampered[i - 1], tampered[i]);
      if forged.hash != chain[i].hash {
        assert LinkValid(ops, tampered[i], tampered[i + 1]);
      }
      assert LinkValid(ops, chain[i - 1], chain[i]);
    }
  }

  // ---------------------------------------------------------------------------
  // Transaction data

  /** A transaction whose input carries the reward address. */
  predicate IsReward(cfg: Config, tx: TxValue) {
    tx.input.address == cfg.rewardAddress
  }

  /** `Object.values(m)[0] === amount`: false on an empty map, whose first value is undefined. */
  predicate FirstOutputIs(m: OutputMap, amount: int) {
    |m.keys| > 0 && m.amounts[m.keys[0]] == amount
  }

  /** Every non-reward transaction has at least one output, so `validate` can total it without throwing. */
  predicate NonRewardOutputsNonEmpty(cfg: Config, txs: seq<TxValue>) {
    forall k :: 0 <= k < |txs| && !IsReward(cfg, txs[k]) ==> |txs[k].outputMap.keys| > 0
  }

  predicate ChainNonRewardOutputsNonEmpty(cfg: Config, chain: seq<Block>) {
    forall b :: 0 <= b < |chain| ==> NonRewardOutputsNonEmpty(cfg, chain[b].data)
  }

  /**
   * The checks on one transaction: a reward pays exactly the mining reward
   * first; any other transaction validates and spends the balance its
   * sender has on the current chain `history`.
   */
  predicate TransactionValid(cfg: Config, sig: SignatureOps, balanceOf: BalanceOracle,
                             history: seq<Block>, tx: TxValue)
  {
    if IsReward(cfg, tx) then
      FirstOutputIs(tx.outputMap, cfg.miningReward)
    else
      |tx.outputMap.keys| > 0 && Validate(sig, tx) &&
      tx.input.amount == balanceOf(history, tx.input.address)
  }

  /**
   * The first n transactions of a block pass their own checks, hold at most
   * one reward and no transaction twice.
   */
  predicate TransactionsValidUpTo(cfg: Config, sig: SignatureOps, balanceOf: BalanceOracle,
                                  history: seq<Block>, txs: seq<TxValue>, n: nat)
    requires n <= |txs|
  {
    (forall k :: 0 <= k < n ==> TransactionValid(cfg, sig, balanceOf, history, txs[k])) &&
    (forall k, l :: 0 <= k < l < n ==> !(IsReward(cfg, txs[k]) && IsReward(cfg, txs[l]))) &&
    (forall k, l :: 0 <= k < l < n ==> txs[k] != txs[l])
  }

  /** One more transaction keeps the prefix valid exactly when it passes, against the ones before it. */
  lemma UpToStep(cfg: Config, sig: SignatureOps, balanceOf: BalanceOracle, history: seq<Block>,
                 txs: seq<TxValue>, j: nat)
    requires j < |txs|
    ensures TransactionsValidUpTo(cfg, sig, balanceOf, history, txs, j + 1) <==>
      TransactionsValidUpTo(cfg, sig, balanceOf, history, txs, j) &&
      TransactionValid(cfg, sig, balanceOf, history, txs[j]) &&
      (IsReward(cfg, txs[j]) ==> forall k :: 0 <= k < j ==> !IsReward(cfg, txs[k])) &&
      (forall k :: 0 <= k < j ==> txs[k] != txs[j])
  {
  }

  predicate BlockTransactionsValid(cfg: Config, sig: SignatureOps, balanceOf: BalanceOracle,
                                   history: seq<Block>, txs: seq<TxValue>)
  {
    TransactionsValidUpTo(cfg, sig, balanceOf, history, txs, |txs|)
  }

  /** Every block of `candidate` passes the transaction checks against `history`. */
  predicate TransactionDataValid(cfg: Config, sig: SignatureOps, balanceOf: BalanceOracle,
                                 history: seq<Block>, candidate: seq<Block>)
  {
    forall b :: 0 <= b < |candidate| ==> BlockTransactionsValid(cfg, sig, balanceOf, history, candidate[b].data)
  }

  /** The answer of `replaceChain`: which guard returned, or the replacement. */
  datatype ReplaceOutcome = ChainNotLonger | InvalidChain | InvalidTransactionData | Replaced

  // ---------------------------------------------------------------------------
  // The mutable chain

  class Blockchain {
    const cfg: Config
    var chain: seq<Block>

    /** The chain is never empty and always starts with the genesis block. */
    ghost predicate Valid()
      reads this
    {
      |chain| >= 1 && chain[0] == Genesis(cfg.genesisData)
    }

    function Tip(): Block
      reads this
      requires Valid()
    {
      chain[|chain| - 1]
    }

    constructor (cfg: Config)
      ensures this.cfg == cfg && chain == [Genesis(cfg.genesisData)]
      ensures Valid()
    {
      this.cfg := cfg;
      chain := [Genesis(cfg.genesisData)];
    }

    /**
     * `addBlock`: mines `data` onto the tip and appends the result. `clock` and
     * `bound` are those of `MineBlock`.
     */
    method AddBlock(ops: HashOps, clock: Clock, data: seq<TxValue>, ghost bound: nat)
      requires Valid()
      requires bound >= 1 && ProofOfWork(ops, Attempt(ops, cfg.mineRate, clock, Tip(), data, bound))
      modifies this
      ensures Valid()
      ensures |chain| == |old(chain)| + 1 && chain[..|old(chain)|] == old(chain)
      ensures Tip().nonce >= 1 && Tip().data == data && MinedOn(ops, cfg.mineRate, old(Tip()), Tip())
      ensures Tip() == Attempt(ops, cfg.mineRate, clock, old(Tip()), data, Tip().nonce)
      ensures forall n :: 1 <= n < Tip().nonce ==>
        !ProofOfWork(ops, Attempt(ops, cfg.mineRate, clock, old(Tip()), data, n))
      ensures ValidChain(cfg, ops, old(chain)) && old(Tip()).difficulty >= 0 ==> ValidChain(cfg, ops, chain)
    {
      var newBlock := MineBlock(ops, cfg.mineRate, clock, chain[|chain| - 1], data, bound);
      if ValidChain(cfg, ops, chain) && chain[|chain| - 1].difficulty >= 0 {
        ExtendValidChain(cfg, ops, chain, newBlock);
      }
      chain := chain + [newBlock];
    }

    /**
     * `replaceChain`: adopts `candidate` only when it is longer than the
     * current chain, valid, and, when `validateTransactions` is set, carries
     * valid transaction data; `onSuccess`, when given, is called just before.
     */
    method ReplaceChain(ops: HashOps, sig: SignatureOps, balanceOf: BalanceOracle, candidate: seq<Block>,
                        validateTransactions: bool, hasOnSuccess: bool)
      returns (outcome: ReplaceOutcome, onSuccessCalled: bool)
      requires Valid()
      requires validateTransactions && |chain| < |candidate| && ValidChain(cfg, ops, candidate) ==>
        ChainNonRewardOutputsNonEmpty(cfg, candidate)
      modifies this
      ensures Valid()
      ensures outcome == ChainNotLonger <==> |old(chain)| >= |candidate|
      ensures outcome == InvalidChain <==> |old(chain)| < |candidate| && !ValidChain(cfg, ops, candidate)
      ensures outcome == InvalidTransactionData <==>
        |old(chain)| < |candidate| && ValidChain(cfg, ops, candidate) && validateTransactions &&
        !TransactionDataValid(cfg, sig, balanceOf, old(chain), candidate)
      ensures outcome == Replaced <==>
        |old(chain)| < |candidate| && ValidChain(cfg, ops, candidate) &&
        (validateTransactions ==> TransactionDataValid(cfg, sig, balanceOf, old(chain), candidate))
      ensures onSuccessCalled <==> outcome == Replaced && hasOnSuccess
      ensures chain == if outcome == Replaced then candidate else old(chain)
    {
      onSuccessCalled := false;
      if |chain| >= |candidate| {
        return ChainNotLonger, onSuccessCalled;
      }
      var valid := IsValidChain(cfg, ops, candidate);
      if !valid {
        return InvalidChain, onSuccessCalled;
      }
      if validateTransactions {
        var dataValid := ValidTransactionData(sig, balanceOf, candidate);
        if !dataValid {
          return InvalidTransactionData, onSuccessCalled;
        }
      }
      if hasOnSuccess {
        onSuccessCalled := true;
      }
      chain := candidate;
      outcome := Replaced;
    }

    /**
     * `validTransactionData`: scans each block with a reward counter and a set
     * of the transactions seen so far, and answers false at the first failure.
     */
    method ValidTransactionData(sig: SignatureOps, balanceOf: BalanceOracle, candidate: seq<Block>)
      returns (ok: bool)
      requires ChainNonRewardOutputsNonEmpty(cfg, candidate)
      ensures ok == TransactionDataValid(cfg, sig, balanceOf, chain, candidate)
    {
      var i := 0;
      while i < |candidate|
        invariant 0 <= i <= |candidate|
        invariant forall b :: 0 <= b < i ==> BlockTransactionsValid(cfg, sig, balanceOf, chain, candidate[b].data)
      {
        assert NonRewardOutputsNonEmpty(cfg, candidate[i].data);
        var blockValid := ValidBlockData(sig, balanceOf, candidate[i].data);
        if !blockValid {
          return false;
        }
        i := i + 1;
      }
      return true;
    }

    /** The body of the outer loop of `validTransactionData`: the scan of one block. */
    method ValidBlockData(sig: SignatureOps, balanceOf: BalanceOracle, txs: seq<TxValue>)
      returns (ok: bool)
      requires NonRewardOutputsNonEmpty(cfg, txs)
      ensures ok == BlockTransactionsValid(cfg, sig, balanceOf, chain, txs)
    {
      var transactionSet: set<TxValue> := {};
      var rewardTransactionCount := 0;
      var j := 0;
      while j < |txs|
        invariant 0 <= j <= |txs|
        invariant TransactionsValidUpTo(cfg, sig, balanceOf, chain, txs, j)
        invariant transactionSet == set k | 0 <= k < j :: txs[k]
        invariant rewardTransactionCount == 0 || rewardTransactionCount == 1
        invariant rewardTransactionCount == 0 <==> forall k :: 0 <= k < j ==> !IsReward(cfg, txs[k])
      {
        var transaction := txs[j];
        UpToStep(cfg, sig, balanceOf, chain, txs, j);
        if transaction.input.address == cfg.rewardAddress {
          rewardTransactionCount := rewardTransactionCount + 1;
          if rewardTransactionCount > 1 {
            UpToPrefixFails(sig, balanceOf, txs, j);
            return false;
          }
          if !FirstOutputIs(transaction.outputMap, cfg.miningReward) {
            UpToPrefixFails(sig, balanceOf, txs, j);
            return false;
          }
        } else {
          if !Validate(sig, transaction) {
            UpToPrefixFails(sig, balanceOf, txs, j);
            return false;
          }
          var trueBalance := balanceOf(chain, transaction.input.address);
          if transaction.input.amount != trueBalance {
            UpToPrefixFails(sig, balanceOf, txs, j);
            return false;
          }
        }
        if transaction in transactionSet {
          UpToPrefixFails(sig, balanceOf, txs, j);
          return false;
        }
        transactionSet := transactionSet + {transaction};
        j := j + 1;
      }
      return true;
    }

    /** A block whose first j + 1 transactions fail is rejected as a whole. */
    lemma UpToPrefixFails(sig: SignatureOps, balanceOf: BalanceOracle, txs: seq<TxValue>, j: nat)
      requires j < |txs| && !TransactionsValidUpTo(cfg, sig, balanceOf, chain, txs, j + 1)
      ensures !BlockTransactionsValid(cfg, sig, balanceOf, chain, txs)
    {
    }

    /**
     * `isValidChain`: the first block must be the genesis block, and each later
     * block must pass the three checks against its predecessor.
     */
    static method IsValidChain(cfg: Config, ops: HashOps, chain: seq<Block>) returns (valid: bool)
      ensures valid == ValidChain(cfg, ops, chain)
    {
      if |chain| == 0 || chain[0] != Genesis(cfg.genesisData) {
        return false;
      }
      var i := 1;
      while i < |chain|
        invariant 1 <= i <= |chain|
        invariant forall k :: 1 <= k < i ==> LinkValid(ops, chain[k - 1], chain[k])
      {
        var b := chain[i];
        var actualHash := chain[i - 1].hash;
        var lastDifficulty := chain[i - 1].difficulty;
        if b.lastHash != actualHash {
          return false;
        }
        var validatedHash := ops.cryptoHash(b.timestamp, b.lastHash, b.data, b.nonce, b.difficulty);
        if validatedHash != b.hash {
          return false;
        }
        if Abs(b.difficulty - lastDifficulty) > 1 {
          return false;
        }
        i := i + 1;
      }
      return true;
    }
  }
}

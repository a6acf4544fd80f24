# A verified model of a proof-of-work ledger

This project models the ledger core of a small JavaScript proof-of-work
cryptocurrency, in Dafny. It has three modules, one for each core file.

- `Transactions` (`transaction.dfy`) models `wallet/transaction.js`.
  - An output map is a JavaScript object from addresses to amounts. It
    keeps its keys in insertion order, which is the order `Object.values`
    follows for the non-numeric keys that addresses are, and a self-payment
    overwrites the first entry.
  - The signed input records the sender's whole balance.
  - `update` is a method of the `Transaction` class. It changes
    `outputMap` and `input` in place.
  - `validate` is the reduce over the values plus the signature check.
- `Blocks` (`block.dfy`) models `blockchain/block.js`.
  - It covers the block record, `genesis` and `adjustDifficulty`.
  - `mineBlock` is a loop over nonces 1, 2, … that stops once the binary
    hash has `difficulty` leading zeros.
- `Ledger` (`blockchain.dfy`) models `blockchain/index.js`. The
  `Blockchain` class holds the mutable `chain`.
  - `addBlock` mines onto the tip and appends the new block.
  - `replaceChain` has three guards. A candidate must be strictly longer,
    valid, and, when asked for, carry valid transaction data.
  - `validTransactionData` is a nested scan with a reward counter and a
    seen-set.
  - `isValidChain` is a loop with early returns. It is proved equal to the
    predicate `ValidChain`.

The model takes the foreign collaborators as parameters:

| source collaborator | model parameter |
|---|---|
| `cryptoHash`, `hexToBinary` | `HashOps` |
| the key pair's `sign` and `verifySignature` | `SignatureOps` |
| `Wallet.calculateBalance` | `BalanceOracle` |
| `Date.now()` | `Clock` (the time at attempt n) or a `now` argument |
| `uuid()` | an `id` argument |
| `GENESIS_DATA`, `MINE_RATE`, `REWARD_INPUT.address`, `MINING_REWARD` | the fields of `Ledger.Config` |

`adjustDifficulty` clamps only an original difficulty below 1. From
difficulty 1 a slow block gives 0 (blockchain/block.js:57-63), so
`AdjustDifficulty` promises a result of at least 0, not of at least 1.
- Below 1, the result is 1.
- Otherwise the result is one step away from the old difficulty, down exactly when the block took longer than the mine rate.

`isValidChain` does not recheck proof of work. It only checks the genesis
block, the hash links, the recomputed hashes and the difficulty steps.
`ValidChain` therefore has no proof-of-work check either. The proof-of-work
facts of mined blocks are stated separately, as `MinedOn`.

## Model

| member | source | states |
|---|---|---|
| `Transactions.SumPut` | wallet/transaction.js:36-42 | writing `v` under an address changes the output total by `v` minus the old entry (0 when absent) |
| `Transactions.CreateOutputMap` | wallet/transaction.js:11-18 | the map holds the recipient (written first) and the sender. The sender's entry is `balance - amount`. With a distinct recipient, the recipient gets `amount` and the total equals the balance. With the sender as recipient, only the sender's key remains |
| `Transactions.Transfer` | wallet/transaction.js:36-42 | the output total is preserved. The recipient's entry (or 0) rises by `amount` and the sender's falls by `amount`. Every other entry is unchanged. A new recipient key is appended at the end. A payment to oneself leaves the map unchanged |
| `Transactions.CreditBranches` | wallet/transaction.js:36-40 | the truthiness test gives the same credit as "old entry or 0, plus amount" |
| `Transactions.FoldTotalIsSum` | wallet/transaction.js:49-50 | the left fold of `+` over the remaining values equals the start value plus their sum |
| `Transactions.OutputTotal` | wallet/transaction.js:49-50 | `reduce` with no initial value over a non-empty map yields the sum of all outputs |
| `Transactions.Validate` | wallet/transaction.js:46-63 | true exactly when the outputs sum to `input.amount` and the signature verifies (both directions) |
| `Transactions.ConstructedTransactionValid` | wallet/transaction.js:5-29 | a new transaction to another address has `input.amount` equal to the balance and `input.address` equal to the sender's key. Its outputs sum to the input amount, and it validates under a sound signature scheme |
| `Transactions.SelfPaymentInvalid` | wallet/transaction.js:11-18 | a transaction that pays a non-zero amount to its own sender never validates, because the change entry overwrites the payment |
| `Transactions.UpdatePreservesValidity` | wallet/transaction.js:31-44 | an update that is re-signed by the sender and keeps the balance as input amount leaves a valid transaction valid |
| `Transactions.CreateInput` | wallet/transaction.js:20-29 | the input carries the time `now`, the sender's whole balance as amount, the sender's public key as address, and the sender's signature over the given output map |
| `Transactions.Transaction.constructor` | wallet/transaction.js:5-9 | the new object holds the id, the output map of `createOutputMap` and the input of `createInput` |
| `Transactions.Transaction.Update` | wallet/transaction.js:31-44 | it throws exactly when `amount` exceeds the sender's entry, and then nothing changes. Otherwise the outputs become `Transfer` of the old ones and the input is re-created over the new outputs. The id and the output total are preserved |
| `Blocks.Genesis` | blockchain/block.js:19-21 | the genesis block equals the configured genesis data, field for field |
| `Blocks.AdjustDifficulty` | blockchain/block.js:54-66 | the result is at least 0, and 1 for an original difficulty below 1. Otherwise it differs from the original by exactly 1 and is lower exactly when the elapsed time exceeds the mine rate |
| `Blocks.LeadingZerosTest` | blockchain/block.js:43 | the exit test (prefix equals repeated `'0'`) holds exactly when the binary hash has `difficulty` leading zeros |
| `Blocks.Attempt` | blockchain/block.js:35-42 | attempt n carries the clock reading at attempt n, nonce n, the parent's hash, the data, the difficulty adjusted at that reading, and a hash sealing its own fields |
| `Blocks.MineBlock` | blockchain/block.js:29-46 | the block returned is the attempt at its nonce, with `nonce >= 1`. It links to the last block, is sealed and proves its work, and no earlier nonce would have passed |
| `Ledger.MinedChainValid` | blockchain/index.js:109-136 | a chain grown only by mining from a genesis block of non-negative difficulty passes `isValidChain` |
| `Ledger.ExtendValidChain` | blockchain/index.js:16-23 | appending a mined block to a valid chain whose tip difficulty is not negative keeps the chain valid |
| `Ledger.TamperingDetected` | blockchain/index.js:114-133 | with an injective hash, putting another block at any position of a valid chain makes it invalid. This holds if the new block keeps the old hash, or if a later block links to that position |
| `Ledger.Blockchain.constructor` | blockchain/index.js:8-10 | a new chain is exactly the genesis block |
| `Ledger.Blockchain.AddBlock` | blockchain/index.js:16-23 | the chain grows by one and the old chain is a prefix. The new tip is the attempt on the old tip at its own nonce (at least 1), is mined on it, and no earlier nonce passes, so it is the block `mineBlock` returns. A valid chain whose tip difficulty is not negative stays valid |
| `Ledger.Blockchain.ReplaceChain` | blockchain/index.js:31-51 | each outcome holds exactly under its guard: not longer, invalid chain, invalid transaction data (only when asked), or replaced. The chain becomes the candidate exactly on replacement and is otherwise unchanged. `onSuccess` is called exactly on replacement when given |
| `Ledger.Blockchain.ValidTransactionData` | blockchain/index.js:57-103 | true exactly when every block of the candidate passes the per-block transaction checks against the current chain |
| `Ledger.Blockchain.ValidBlockData` | blockchain/index.js:63-99 | the scan of one block is true exactly when each reward pays `MINING_REWARD` first and each other transaction validates and spends its sender's balance on the current chain. No two transactions may both be rewards, and none may occur twice |
| `Ledger.Blockchain.IsValidChain` | blockchain/index.js:109-136 | true exactly when the chain is non-empty and starts with the genesis block, and every later block links to its predecessor's hash, carries its recomputed hash, and differs in difficulty by at most one |

## Left out

- Hashing, hex-to-binary conversion and signatures are foreign cryptography. They are uninterpreted functions passed in as `HashOps` and `SignatureOps`. `HashInjective` and `SignaturesVerify` are stated as assumptions of the lemmas that need them.
- `Date.now()` and `uuid()` are inputs: a clock indexed by attempt number, a `now` argument and an `id` argument.
- `Wallet.calculateBalance` is not part of this model. It is the parameter `BalanceOracle`.
- The configuration constants are the fields of `Config`. Their concrete values are not fixed.
- Blocks.MineBlock: the search terminates in the source only with probability one. The model takes a ghost `bound` at which the search is known to succeed. It does not prove that such a bound exists.
- Transactions.Validate: requires a non-empty output map, because the source's `reduce` without an initial value throws on an empty map. For the same reason, `ValidTransactionData` and `ValidBlockData` require every non-reward transaction they scan to have an output.
- Ledger.Blockchain.ReplaceChain: requires every non-reward transaction of the candidate to have an output only when the transaction scan is reached, that is when `validateTransactions` is set and the candidate is longer and valid. The source's throw from `validate` in that case is not modelled.
- Transactions.Transaction.Update: requires the sender's key to be present in the output map. On a missing key the guard `amount > undefined` is false, so the source does not throw. It then stores `NaN` under the sender when the recipient is someone else, and 0 when the recipient is the sender. Neither case is modelled.
- Transactions.ConstructedTransactionValid, Transactions.UpdatePreservesValidity, Transactions.SelfPaymentInvalid, Transactions.Transfer, Transactions.SumPut, Transactions.Validate and Blocks.AdjustDifficulty: amounts, balances, timestamps and difficulties are exact unbounded integers, whereas the source computes with IEEE-754 doubles. These contracts describe the source only for integer values within the safe-integer range (magnitude at most 2^53). Fractional amounts with rounding errors, large values that absorb small ones, `NaN` and `Infinity` are not modelled.
- An address that looks like an array index (such as `"42"`) is listed by `Object.values` before the other keys, in ascending numeric order. The output map keeps pure insertion order, so for such addresses `OutputTotal`'s fold order and `FirstOutputIs` may differ from the source.
- Ledger.Blockchain.ValidBlockData: the seen-set compares transactions by value. The source's `Set` compares object identity.
- Blocks hold transaction values, not references to live transaction objects. Aliasing between the arrays and objects shared by the chain, the caller and `replaceChain` (which stores the candidate array itself) is not modelled.
- `JSON.stringify` comparison of the first block is datatype equality. The output map keeps its key order, so two maps with equal entries in a different order differ, as their JSON does.
- Ledger.Blockchain.AddBlock: proves that the chain stays valid only when the old tip's difficulty is not negative. `isValidChain` accepts negative difficulties that mining never produces.
- `onSuccess` is reduced to whether it is called. Its effects are not modelled.
- Logging (`console.log` / `console.error`) is left out.
- The transaction pool and its tests are not part of this model.

/**
 * Transactions as wallet/transaction.js builds and checks them: an output map
 * from addresses to amounts, a signed input recording the sender's balance,
 * the in-place `update` that moves value between outputs, and the static
 * `validate`.
 */
module Transactions {

  type Address = string
  type Signature = string

  datatype Option<T> = None | Some(value: T) {
    function GetOr(default: T): T {
      if Some? then value else default
    }
  }

  /**
   * A JavaScript object from addresses to amounts: its own property keys in
   * property order (insertion order for the non-numeric keys used as
   * addresses, which `Object.values` follows) and the amount under each key.
   */
  datatype Outputs = Outputs(keys: seq<Address>, amounts: map<Address, int>)

  /** The addresses listed in `keys`. */
  function KeySet(keys: seq<Address>): set<Address> {
    if keys == [] then {} else {keys[0]} + KeySet(keys[1..])
  }

  /** No address is listed twice. */
  predicate Distinct(keys: seq<Address>) {
    keys == [] || (keys[0] !in KeySet(keys[1..]) && Distinct(keys[1..]))
  }

  /** Every key occurs once, and the keys are exactly those with an amount. */
  predicate IsObject(o: Outputs) {
    Distinct(o.keys) && o.amounts.Keys == KeySet(o.keys)
  }

  type OutputMap = o: Outputs | IsObject(o) witness Outputs([], map[])

  /** The sender as a transaction sees it: its public key and its balance. */
  datatype Wallet = Wallet(publicKey: Address, balance: int)

  /**
   * The signature collaborators. `sign(k, m)` is the signature that the key
   * pair whose public key is `k` produces over `m`.
   */
  datatype SignatureOps = SignatureOps(
    sign: (Address, OutputMap) -> Signature,
    verify: (Address, OutputMap, Signature) -> bool)

  datatype Input = Input(timestamp: int, amount: int, address: Address, signature: Signature)

  /** A transaction as a value: what a block carries and what `validate` reads. */
  datatype TxValue = TxValue(id: string, outputMap: OutputMap, input: Input)

  /** The answer of `update`: it either changes the transaction or throws. */
  datatype UpdateOutcome = Updated | AmountExceedsBalance

  // ---------------------------------------------------------------------------
  // The output map as a dictionary

  /** `m[a]`: the amount stored under `a`, or None where JavaScript yields undefined. */
  function Get(m: OutputMap, a: Address): Option<int> {
    if a in m.amounts then Some(m.amounts[a]) else None
  }

  lemma {:induction false} KeySetAppend(keys: seq<Address>, a: Address)
    ensures KeySet(keys + [a]) == KeySet(keys) + {a}
  {
    if keys == [] {
      assert keys + [a] == [a];
    } else {
      assert (keys + [a])[1..] == keys[1..] + [a];
      KeySetAppend(keys[1..], a);
    }
  }

  lemma {:induction false} DistinctAppend(keys: seq<Address>, a: Address)
    requires Distinct(keys) && a !in KeySet(keys)
    ensures Distinct(keys + [a])
  {
    if keys == [] {
      assert keys + [a] == [a];
    } else {
      assert (keys + [a])[1..] == keys[1..] + [a];
      KeySetAppend(keys[1..], a);
      DistinctAppend(keys[1..], a);
    }
  }

  /**
   * `m[a] = v`: an existing property keeps its place and gets the new value,
   * a new one is appended at the end.
   */
  function Put(m: OutputMap, a: Address, v: int): (r: OutputMap)
    ensures r.amounts == m.amounts[a := v]
    ensures r.keys == if a in m.amounts then m.keys else m.keys + [a]
  {
    if a in m.amounts then
      Outputs(m.keys, m.amounts[a := v])
    else
      KeySetAppend(m.keys, a);
      DistinctAppend(m.keys, a);
      Outputs(m.keys + [a], m.amounts[a := v])
  }

  /** The sum of the amounts stored under `keys`. */
  function SumOver(keys: seq<Address>, amounts: map<Address, int>): int
    requires KeySet(keys) <= amounts.Keys
  {
    if keys == [] then 0 else amounts[keys[0]] + SumOver(keys[1..], amounts)
  }

  /** The sum of all the values of an output map. */
  function Sum(m: OutputMap): int {
    SumOver(m.keys, m.amounts)
  }

  lemma {:induction false} SumOverAppend(keys: seq<Address>, amounts: map<Address, int>, a: Address)
    requires KeySet(keys) <= amounts.Keys
    requires a in amounts
    ensures KeySet(keys + [a]) <= amounts.Keys
    ensures SumOver(keys + [a], amounts) == SumOver(keys, amounts) + amounts[a]
  {
    KeySetAppend(keys, a);
    if keys == [] {
      assert keys + [a] == [a];
    } else {
      assert (keys + [a])[1..] == keys[1..] + [a];
      SumOverAppend(keys[1..], amounts, a);
    }
  }

  /** Amounts stored under keys outside `keys` do not count. */
  lemma {:induction false} SumOverOther(keys: seq<Address>, amounts: map<Address, int>, a: Address, v: int)
    requires KeySet(keys) <= amounts.Keys
    requires a !in KeySet(keys)
    ensures SumOver(keys, amounts[a := v]) == SumOver(keys, amounts)
  {
    if keys != [] {
      SumOverOther(keys[1..], amounts, a, v);
    }
  }

  /** Changing the amount of a key that occurs once changes the sum by the difference. */
  lemma {:induction false} SumOverUpdate(keys: seq<Address>, amounts: map<Address, int>, a: Address, v: int)
    requires KeySet(keys) <= amounts.Keys
    requires Distinct(keys)
    requires a in KeySet(keys)
    ensures SumOver(keys, amounts[a := v]) == SumOver(keys, amounts) - amounts[a] + v
  {
    if keys[0] == a {
      SumOverOther(keys[1..], amounts, a, v);
    } else {
      SumOverUpdate(keys[1..], amounts, a, v);
    }
  }

  /** A write changes the total by the difference between the new and the old amount. */
  lemma SumPut(m: OutputMap, a: Address, v: int)
    ensures Sum(Put(m, a, v)) == Sum(m) - Get(m, a).GetOr(0) + v
  {
    if a in m.amounts {
      SumOverUpdate(m.keys, m.amounts, a, v);
    } else {
      SumOverOther(m.keys, m.amounts, a, v);
      SumOverAppend(m.keys, m.amounts[a := v], a);
    }
  }

  // ---------------------------------------------------------------------------
  // Building a transaction

  /**
   * `createOutputMap`: the recipient is written first, then the sender's
   * change, which overwrites the first entry when both are one address.
   */
  function CreateOutputMap(senderWallet: Wallet, recipient: Address, amount: int): (m: OutputMap)
    ensures m.amounts.Keys == {recipient, senderWallet.publicKey}
    ensures Get(m, senderWallet.publicKey) == Some(senderWallet.balance - amount)
    ensures recipient != senderWallet.publicKey ==>
      m.keys == [recipient, senderWallet.publicKey] && Get(m, recipient) == Some(amount) &&
      Sum(m) == senderWallet.balance
    ensures recipient == senderWallet.publicKey ==> m.keys == [recipient]
  {
    var first := Put(Outputs([], map[]), recipient, amount);
    SumPut(Outputs([], map[]), recipient, amount);
    var m := Put(first, senderWallet.publicKey, senderWallet.balance - amount);
    SumPut(first, senderWallet.publicKey, senderWallet.balance - amount);
    m
  }

  /** `createInput`: the sender's whole balance, its key, and its signature over the outputs. */
  function CreateInput(sig: SignatureOps, senderWallet: Wallet, outputMap: OutputMap, now: int): (input: Input)
    ensures input.timestamp == now && input.amount == senderWallet.balance
    ensures input.address == senderWallet.publicKey
    ensures input.signature == sig.sign(senderWallet.publicKey, outputMap)
  {
    Input(now, senderWallet.balance, senderWallet.publicKey, sig.sign(senderWallet.publicKey, outputMap))
  }

  /** The value `new Transaction({ senderWallet, recipient, amount })` holds. */
  function NewTransaction(sig: SignatureOps, senderWallet: Wallet, recipient: Address, amount: int,
                          id: string, now: int): TxValue
  {
    var outputMap := CreateOutputMap(senderWallet, recipient, amount);
    TxValue(id, outputMap, CreateInput(sig, senderWallet, outputMap, now))
  }

  /** The credit step of `update`: the recipient's entry, or 0, plus `amount`. */
  function Credit(m: OutputMap, recipient: Address, amount: int): OutputMap {
    Put(m, recipient, Get(m, recipient).GetOr(0) + amount)
  }

  /**
   * What `update` does to the outputs: credit the recipient, then debit the
   * sender's entry, which must exist.
   */
  function Transfer(m: OutputMap, sender: Address, recipient: Address, amount: int): (r: OutputMap)
    requires Get(m, sender).Some?
    ensures Sum(r) == Sum(m)
    ensures recipient != sender ==>
      Get(r, recipient) == Some(Get(m, recipient).GetOr(0) + amount) &&
      Get(r, sender) == Some(Get(m, sender).value - amount)
    ensures recipient == sender ==> r == m
    ensures forall a :: a != sender && a != recipient ==> Get(r, a) == Get(m, a)
    ensures r.keys == if recipient in m.amounts then m.keys else m.keys + [recipient]
  {
    var credited := Credit(m, recipient, amount);
    SumPut(m, recipient, Get(m, recipient).GetOr(0) + amount);
    var r := Put(credited, sender, Get(credited, sender).value - amount);
    SumPut(credited, sender, Get(credited, sender).value - amount);
    if recipient == sender then
      assert r.amounts == m.amounts;
      r
    else
      r
  }

  /** The truthiness test of `update` (absent or zero means "set") gives the same credit. */
  lemma CreditBranches(m: OutputMap, recipient: Address, amount: int)
    ensures var current := Get(m, recipient);
      (if current.Some? && current.value != 0 then Put(m, recipient, current.value + amount)
       else Put(m, recipient, amount)) == Credit(m, recipient, amount)
  {
  }

  // ---------------------------------------------------------------------------
  // Validation

  /** The running total of `reduce((total, x) => total + x)` over the values still to come. */
  function FoldTotal(total: int, rest: seq<Address>, amounts: map<Address, int>): int
    requires KeySet(rest) <= amounts.Keys
    decreases |rest|
  {
    if rest == [] then total else FoldTotal(total + amounts[rest[0]], rest[1..], amounts)
  }

  lemma {:induction false} FoldTotalIsSum(total: int, rest: seq<Address>, amounts: map<Address, int>)
    requires KeySet(rest) <= amounts.Keys
    ensures FoldTotal(total, rest, amounts) == total + SumOver(rest, amounts)
    decreases |rest|
  {
    if rest != [] {
      FoldTotalIsSum(total + amounts[rest[0]], rest[1..], amounts);
    }
  }

  /** `Object.values(outputMap).reduce(...)` with no initial value, which needs one entry. */
  function OutputTotal(outputMap: OutputMap): (total: int)
    requires |outputMap.keys| > 0
    ensures total == Sum(outputMap)
  {
    var keys, amounts := outputMap.keys, outputMap.amounts;
    FoldTotalIsSum(amounts[keys[0]], keys[1..], amounts);
    FoldTotal(amounts[keys[0]], keys[1..], amounts)
  }

  /** `Transaction.validate`: the outputs add up to the input amount and the signature verifies. */
  function Validate(sig: SignatureOps, transaction: TxValue): (valid: bool)
    requires |transaction.outputMap.keys| > 0
    ensures valid <==>
      Sum(transaction.outputMap) == transaction.input.amount &&
      sig.verify(transaction.input.address, transaction.outputMap, transaction.input.signature)
  {
    var outputTotal := OutputTotal(transaction.outputMap);
    if transaction.input.amount != outputTotal then
      false
    else if !sig.verify(transaction.input.address, transaction.outputMap, transaction.input.signature) then
      false
    else
      true
  }

  /** A signature scheme in which every signature verifies against its signer and data. */
  ghost predicate SignaturesVerify(sig: SignatureOps) {
    forall k, m :: sig.verify(k, m, sig.sign(k, m))
  }

  /** A freshly built transaction to someone else passes `validate`. */
  lemma ConstructedTransactionValid(sig: SignatureOps, senderWallet: Wallet, recipient: Address,
                                    amount: int, id: string, now: int)
    requires recipient != senderWallet.publicKey
    requires SignaturesVerify(sig)
    ensures var t := NewTransaction(sig, senderWallet, recipient, amount, id, now);
      t.input.amount == senderWallet.balance && t.input.address == senderWallet.publicKey &&
      Sum(t.outputMap) == t.input.amount && Validate(sig, t)
  {
  }

  /** Paying oneself a non-zero amount leaves only the change entry, whose total falls short. */
  lemma SelfPaymentInvalid(sig: SignatureOps, senderWallet: Wallet, amount: int, id: string, now: int)
    requires amount != 0
    ensures !Validate(sig, NewTransaction(sig, senderWallet, senderWallet.publicKey, amount, id, now))
  {
  }

  /**
   * An update signed again by the same wallet, whose balance is still the
   * input amount, keeps a valid transaction valid.
   */
  lemma UpdatePreservesValidity(sig: SignatureOps, t: TxValue, senderWallet: Wallet,
                                recipient: Address, amount: int, now: int)
    requires SignaturesVerify(sig)
    requires |t.outputMap.keys| > 0 && Validate(sig, t)
    requires Get(t.outputMap, senderWallet.publicKey).Some?
    requires t.input.amount == senderWallet.balance
    ensures var m := Transfer(t.outputMap, senderWallet.publicKey, recipient, amount);
      |m.keys| > 0 && Validate(sig, TxValue(t.id, m, CreateInput(sig, senderWallet, m, now)))
  {
  }

  // ---------------------------------------------------------------------------
  // The mutable transaction object

  class Transaction {
    var id: string
    var outputMap: OutputMap
    var input: Input

    function Value(): TxValue
      reads this
    {
      TxValue(id, outputMap, input)
    }

    /** `id` stands for the fresh uuid and `now` for the clock reading of `createInput`. */
    constructor (sig: SignatureOps, senderWallet: Wallet, recipient: Address, amount: int,
                 id: string, now: int)
      ensures Value() == NewTransaction(sig, senderWallet, recipient, amount, id, now)
    {
      this.id := id;
      var m := CreateOutputMap(senderWallet, recipient, amount);
      outputMap := m;
      input := CreateInput(sig, senderWallet, m, now);
    }

    /**
     * Moves `amount` from the sender's entry to the recipient's and signs
     * again; throws, changing nothing, when the amount exceeds the sender's entry.
     */
    method Update(sig: SignatureOps, senderWallet: Wallet, recipient: Address, amount: int, now: int)
      returns (outcome: UpdateOutcome)
      requires Get(outputMap, senderWallet.publicKey).Some?
      modifies this
      ensures id == old(id)
      ensures outcome == AmountExceedsBalance <==> amount > Get(old(outputMap), senderWallet.publicKey).value
      ensures outcome == AmountExceedsBalance ==> outputMap == old(outputMap) && input == old(input)
      ensures outcome == Updated ==>
        outputMap == Transfer(old(outputMap), senderWallet.publicKey, recipient, amount) &&
        input == CreateInput(sig, senderWallet, outputMap, now)
      ensures Sum(outputMap) == Sum(old(outputMap))
    {
      if amount > Get(outputMap, senderWallet.publicKey).value {
        return AmountExceedsBalance;
      }
      ghost var before := outputMap;
      var current := Get(outputMap, recipient);
      if current.Some? && current.value != 0 {
        outputMap := Put(outputMap, recipient, current.value + amount);
      } else {
        outputMap := Put(outputMap, recipient, amount);
      }
      CreditBranches(before, recipient, amount);
      assert outputMap == Credit(before, recipient, amount);
      outputMap := Put(outputMap, senderWallet.publicKey, Get(outputMap, senderWallet.publicKey).value - amount);
      assert outputMap == Transfer(before, senderWallet.publicKey, recipient, amount);
      input := CreateInput(sig, senderWallet, outputMap, now);
      outcome := Updated;
    }
  }
}

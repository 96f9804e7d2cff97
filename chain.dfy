/**
 * The blockchain as the front end sees it: the allowance table of the ERC-20
 * tokens it talks to (EIP-20, "Methods": `allowance` and `approve`), and the
 * transactions its signer has submitted, in order. The market contract's own
 * logic is not modelled: a `listEnergy` or `buyEnergy` transaction is recorded
 * in the log, its effect on the contract is not.
 */
module Chain {
  import opened Base

  /** 2^256: every argument of these contract calls is ABI-encoded as a uint256. */
  const Uint256Limit: int := 115792089237316195423570985008687907853269984665640564039457584007913129639936

  predicate IsUint256(x: int) {
    0 <= x < Uint256Limit
  }

  /** The addresses `config.js` supplies: the market contract and the two tokens. */
  datatype Config = Config(market: Address, sewhToken: Address, usdcToken: Address)

  /** An entry of a token's allowance table: `allowance(owner, spender)` on `token`. */
  datatype AllowanceKey = AllowanceKey(token: Address, owner: Address, spender: Address)

  /** A transaction the front end's signer submits. */
  datatype Tx =
    | ApproveTx(token: Address, owner: Address, spender: Address, amount: int)
    | ListEnergyTx(amount: int, price: int)
    | BuyEnergyTx(listingId: int)

  /** ethers encodes a call only when every argument fits a uint256; otherwise it throws before submitting. */
  predicate Encodable(tx: Tx) {
    match tx
    case ApproveTx(_, _, _, amount) => IsUint256(amount)
    case ListEnergyTx(amount, price) => IsUint256(amount) && IsUint256(price)
    case BuyEnergyTx(id) => IsUint256(id)
  }

  /** EIP-20 `allowance`: an entry that was never approved reads as zero. */
  function AllowanceOf(allowances: map<AllowanceKey, nat>, key: AllowanceKey): nat {
    if key in allowances then allowances[key] else 0
  }

  /**
   * The allowance table once `tx` is confirmed. EIP-20 `approve` overwrites the
   * owner's allowance for the spender with the new amount (it does not add to
   * it); no other transaction here touches the table.
   */
  function Confirmed(allowances: map<AllowanceKey, nat>, tx: Tx): (r: map<AllowanceKey, nat>)
    requires Encodable(tx)
    ensures tx.ApproveTx? ==> AllowanceOf(r, AllowanceKey(tx.token, tx.owner, tx.spender)) == tx.amount
    ensures forall k :: (!tx.ApproveTx? || k != AllowanceKey(tx.token, tx.owner, tx.spender)) ==>
      AllowanceOf(r, k) == AllowanceOf(allowances, k)
  {
    match tx
    case ApproveTx(token, owner, spender, amount) => allowances[AllowanceKey(token, owner, spender) := amount]
    case _ => allowances
  }

  /**
   * How a transaction fares beyond the front end's control: the wallet may
   * refuse to send it (`await contract.f(...)` throws), or `tx.wait()` may
   * throw instead of confirming it. A transaction that is not confirmed changes
   * nothing.
   */
  datatype TxFaults = TxFaults(submitFails: bool, confirmFails: bool)

  /** The transaction reached the chain. */
  predicate Submitted(tx: Tx, f: TxFaults) {
    Encodable(tx) && !f.submitFails
  }

  /** The transaction was submitted and confirmed. */
  predicate Succeeds(tx: Tx, f: TxFaults) {
    Submitted(tx, f) && !f.confirmFails
  }

  /** The part of the chain the front end reads and writes. */
  class Ledger {
    var allowances: map<AllowanceKey, nat>
    /** Every transaction submitted so far, oldest first. */
    var sent: seq<Tx>

    constructor (allowances: map<AllowanceKey, nat>)
      ensures this.allowances == allowances && sent == []
    {
      this.allowances := allowances;
      sent := [];
    }

    /** `token.allowance(owner, spender)`, a read that may fail. */
    method ReadAllowance(key: AllowanceKey, fails: bool) returns (r: Option<nat>)
      ensures r.None? <==> fails
      ensures r.Some? ==> r.value == AllowanceOf(allowances, key)
    {
      if fails {
        return None;
      }
      r := Some(AllowanceOf(allowances, key));
    }

    /** Submit `tx` and wait for its confirmation: `const t = await contract.f(...); await t.wait()`. */
    method Transact(tx: Tx, f: TxFaults) returns (ok: bool)
      modifies this
      ensures ok <==> Succeeds(tx, f)
      ensures sent == old(sent) + (if Submitted(tx, f) then [tx] else [])
      ensures allowances == if ok then Confirmed(old(allowances), tx) else old(allowances)
    {
      if !Encodable(tx) || f.submitFails {
        return false;
      }
      sent := sent + [tx];
      if f.confirmFails {
        return false;
      }
      allowances := Confirmed(allowances, tx);
      ok := true;
    }
  }
}

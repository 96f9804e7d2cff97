/**
 * `checkAndRequestApproval` (written out twice in the source, in
 * src/ProducerView.jsx and src/ListingCard.jsx, identical apart
 * from the token named in its alert message): read the owner's
 * allowance for the spender and, only when it is below the amount needed,
 * submit `approve(spender, amount)` and wait for it. Every failure is caught
 * and turned into `false`.
 */
module Approval {
  import opened Base
  import opened Chain
  import opened Wallet

  /** Which of the calls the check makes throw: `getAddress`, `allowance`, and the approval transaction. */
  datatype ApprovalFaults = ApprovalFaults(addressFails: bool, allowanceReadFails: bool, approve: TxFaults)

  /** Which external calls of an action flow throw: those of its approval check, and its write transaction. */
  datatype FlowFaults = FlowFaults(approval: ApprovalFaults, write: TxFaults)

  /** What one check does: its answer, the transactions it submits and the allowance table it leaves. */
  datatype ApprovalRun = ApprovalRun(ok: bool, submitted: seq<Tx>, allowances: map<AllowanceKey, nat>)

  /** The approval the check submits when the allowance is short: exactly `amount`, never more. */
  function ApprovalFor(token: Address, owner: Address, spender: Address, amount: int): Tx {
    ApproveTx(token, owner, spender, amount)
  }

  /** The allowance the check finds short of `amount`. */
  predicate Short(allowances: map<AllowanceKey, nat>, token: Address, owner: Address, spender: Address, amount: int) {
    AllowanceOf(allowances, AllowanceKey(token, owner, spender)) < amount
  }

  /** The effect of one check, as a function of the allowance table before it. */
  function ApprovalEffect(allowances: map<AllowanceKey, nat>, token: Address, owner: Address, spender: Address,
                          amount: int, f: ApprovalFaults): (r: ApprovalRun)
    // An approval is submitted iff both reads succeed and the allowance is short
    // (and the wallet sends it); it is always for exactly `amount`.
    ensures r.submitted != [] <==>
      !f.addressFails && !f.allowanceReadFails && Short(allowances, token, owner, spender, amount)
      && Submitted(ApprovalFor(token, owner, spender, amount), f.approve)
    ensures r.submitted == [] || r.submitted == [ApprovalFor(token, owner, spender, amount)]
    // A sufficient allowance answers true without any write.
    ensures !f.addressFails && !f.allowanceReadFails && !Short(allowances, token, owner, spender, amount) ==>
      r.ok && r.submitted == [] && r.allowances == allowances
    // It answers false exactly when a call it needed failed.
    ensures !r.ok <==>
      f.addressFails || f.allowanceReadFails ||
      (Short(allowances, token, owner, spender, amount) && !Succeeds(ApprovalFor(token, owner, spender, amount), f.approve))
    // A true answer leaves enough allowance; a false one leaves the table as it was.
    ensures r.ok ==> !Short(r.allowances, token, owner, spender, amount)
    ensures !r.ok ==> r.allowances == allowances
    // No other allowance changes.
    ensures forall k :: k != AllowanceKey(token, owner, spender) ==> AllowanceOf(r.allowances, k) == AllowanceOf(allowances, k)
  {
    if f.addressFails || f.allowanceReadFails then
      ApprovalRun(false, [], allowances)
    else if !Short(allowances, token, owner, spender, amount) then
      ApprovalRun(true, [], allowances)
    else
      var tx := ApprovalFor(token, owner, spender, amount);
      var ok := Succeeds(tx, f.approve);
      ApprovalRun(ok, if Submitted(tx, f.approve) then [tx] else [], if ok then Confirmed(allowances, tx) else allowances)
  }

  /** `checkAndRequestApproval(ethersSigner, tokenContract, spenderAddress, amount)` against the ledger. */
  method CheckAndRequestApproval(ledger: Ledger, signer: Signer, token: Address, spender: Address, amount: int,
                                 f: ApprovalFaults) returns (ok: bool)
    modifies ledger
    ensures var r := ApprovalEffect(old(ledger.allowances), token, signer.address, spender, amount, f);
      && ok == r.ok
      && ledger.allowances == r.allowances
      && ledger.sent == old(ledger.sent) + r.submitted
  {
    if f.addressFails {
      return false;
    }
    var owner := signer.address;
    var allowance := ledger.ReadAllowance(AllowanceKey(token, owner, spender), f.allowanceReadFails);
    if allowance.None? {
      return false;
    }
    if allowance.value < amount {
      ok := ledger.Transact(ApprovalFor(token, owner, spender, amount), f.approve);
      return;
    }
    ok := true;
  }

  /**
   * Once a check has answered true, a second check for the same amount submits
   * nothing and answers true unless one of its reads fails.
   */
  lemma SecondCheckSubmitsNothing(allowances: map<AllowanceKey, nat>, token: Address, owner: Address,
                                  spender: Address, amount: int, f1: ApprovalFaults, f2: ApprovalFaults)
    requires ApprovalEffect(allowances, token, owner, spender, amount, f1).ok
    ensures var again := ApprovalEffect(ApprovalEffect(allowances, token, owner, spender, amount, f1).allowances,
                                        token, owner, spender, amount, f2);
      && again.submitted == []
      && (again.ok <==> !f2.addressFails && !f2.allowanceReadFails)
  {
  }

  /** A check for a smaller amount after one that answered true submits nothing either. */
  lemma SmallerAmountAfterApproval(allowances: map<AllowanceKey, nat>, token: Address, owner: Address,
                                   spender: Address, amount: int, smaller: int, f1: ApprovalFaults, f2: ApprovalFaults)
    requires ApprovalEffect(allowances, token, owner, spender, amount, f1).ok
    requires smaller <= amount
    ensures ApprovalEffect(ApprovalEffect(allowances, token, owner, spender, amount, f1).allowances,
                           token, owner, spender, smaller, f2).submitted == []
  {
  }
}

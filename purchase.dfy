/**
 * A listing card (src/ListingCard.jsx): its busy flag `isBuying`, the
 * self-trade test `isOwnListing`, and `handleBuyNow`, which approves the
 * market to spend the listing's price in USDC and then calls
 * `buyEnergy(listing.id)`. The handler itself does not look at the seller:
 * only the disabled button keeps a user from buying their own listing.
 */
module Purchase {
  import opened Base
  import opened Chain
  import opened Wallet
  import opened Approval
  import opened Listings

  /** `toLowerCase` on one character, for the ASCII letters. */
  function LowerChar(c: char): char {
    if 'A' <= c <= 'Z' then (c as int - 'A' as int + 'a' as int) as char else c
  }

  /** `toLowerCase`, character by character. */
  function ToLower(s: string): string {
    if s == [] then [] else [LowerChar(s[0])] + ToLower(s[1..])
  }

  lemma {:induction false} ToLowerAt(s: string, i: nat)
    requires i < |s|
    ensures |ToLower(s)| == |s| && ToLower(s)[i] == LowerChar(s[i])
  {
    if i > 0 {
      ToLowerAt(s[1..], i - 1);
    } else if |s| > 1 {
      ToLowerAt(s[1..], 0);
    }
  }

  lemma {:induction false} ToLowerLength(s: string)
    ensures |ToLower(s)| == |s|
  {
    if s != [] {
      ToLowerLength(s[1..]);
    }
  }

  /** `isOwnListing`: the seller and the account are the same string ignoring case. */
  function IsOwnListing(seller: string, accountId: string): (own: bool)
    ensures seller == accountId ==> own
    ensures own ==> |seller| == |accountId|
  {
    ToLowerLength(seller);
    ToLowerLength(accountId);
    ToLower(seller) == ToLower(accountId)
  }

  /** Equal ignoring case means: same length, and the same character at each position once lower-cased. */
  lemma IsOwnListingMeans(seller: string, accountId: string)
    ensures IsOwnListing(seller, accountId) <==>
      |seller| == |accountId| && forall i :: 0 <= i < |seller| ==> LowerChar(seller[i]) == LowerChar(accountId[i])
  {
    ToLowerLength(seller);
    ToLowerLength(accountId);
    if |seller| == |accountId| {
      forall i | 0 <= i < |seller|
        ensures ToLower(seller)[i] == LowerChar(seller[i]) && ToLower(accountId)[i] == LowerChar(accountId[i])
      {
        ToLowerAt(seller, i);
        ToLowerAt(accountId, i);
      }
    }
  }

  /** Two spellings of one address that differ only in case are recognised as the same account. */
  lemma CaseOnlyDifference(seller: string, accountId: string)
    requires |seller| == |accountId|
    requires forall i :: 0 <= i < |seller| ==> seller[i] == accountId[i] || LowerChar(seller[i]) == accountId[i]
                                               || seller[i] == LowerChar(accountId[i])
    ensures IsOwnListing(seller, accountId)
  {
    IsOwnListingMeans(seller, accountId);
    forall i | 0 <= i < |seller|
      ensures LowerChar(seller[i]) == LowerChar(accountId[i])
    {
    }
  }

  /** The ways `handleBuyNow` can end. */
  datatype BuyOutcome = NotConnected | ApprovalRefused | BuyFailed | Bought

  class ListingCard {
    const listing: Listing
    var isBuying: bool

    constructor (listing: Listing)
      ensures this.listing == listing && !isBuying
    {
      this.listing := listing;
      isBuying := false;
    }

    /** The Buy button is disabled while buying, and on the viewer's own listing. */
    function BuyDisabled(accountId: string): (disabled: bool)
      reads this
      ensures !isBuying ==> (disabled <==> IsOwnListing(listing.seller, accountId))
      ensures isBuying ==> disabled
    {
      isBuying || IsOwnListing(listing.seller, accountId)
    }

    /**
     * `handleBuyNow`: with a signer, set the busy flag, approve the market to
     * spend exactly the listing's price in USDC, then submit
     * `buyEnergy(listing.id)`. Outcome Bought is the one where
     * `onPurchaseSuccess` runs; every exit after the flag was set clears it.
     */
    method HandleBuyNow(signer: Option<Signer>, config: Config, ledger: Ledger, f: FlowFaults)
      returns (outcome: BuyOutcome)
      modifies this, ledger
      ensures outcome == NotConnected <==> signer.None?
      ensures outcome == NotConnected ==> unchanged(this) && unchanged(ledger)
      ensures outcome != NotConnected ==> !isBuying
      ensures signer.Some? ==>
        var r := ApprovalEffect(old(ledger.allowances), config.usdcToken, signer.value.address, config.market,
                                listing.price, f.approval);
        var buy := BuyEnergyTx(listing.id);
        && (outcome == ApprovalRefused <==> !r.ok)
        && (r.ok ==> outcome == if Succeeds(buy, f.write) then Bought else BuyFailed)
        && ledger.allowances == r.allowances
        && ledger.sent == old(ledger.sent) + r.submitted + (if r.ok && Submitted(buy, f.write) then [buy] else [])
    {
      if signer.None? {
        return NotConnected;
      }
      isBuying := true;
      var approved := CheckAndRequestApproval(ledger, signer.value, config.usdcToken, config.market, listing.price, f.approval);
      if !approved {
        isBuying := false;
        return ApprovalRefused;
      }
      var bought := ledger.Transact(BuyEnergyTx(listing.id), f.write);
      if !bought {
        isBuying := false;
        return BuyFailed;
      }
      isBuying := false;
      outcome := Bought;
    }

    /**
     * A click on the Buy button: a disabled button does not run its handler,
     * so a click on one's own listing, or during a purchase, does nothing.
     */
    method ClickBuyNow(accountId: string, signer: Option<Signer>, config: Config, ledger: Ledger, f: FlowFaults)
      returns (outcome: Option<BuyOutcome>)
      modifies this, ledger
      ensures outcome.None? <==> old(BuyDisabled(accountId))
      ensures outcome.None? ==> unchanged(this) && unchanged(ledger)
      // An enabled button runs handleBuyNow, with all that it promises.
      ensures outcome.Some? ==> (outcome.value == NotConnected <==> signer.None?)
      ensures outcome.Some? && signer.None? ==> unchanged(this) && unchanged(ledger)
      ensures outcome.Some? && signer.Some? ==>
        var r := ApprovalEffect(old(ledger.allowances), config.usdcToken, signer.value.address, config.market,
                                listing.price, f.approval);
        var buy := BuyEnergyTx(listing.id);
        && !isBuying
        && (outcome.value == ApprovalRefused <==> !r.ok)
        && (r.ok ==> outcome.value == if Succeeds(buy, f.write) then Bought else BuyFailed)
        && ledger.allowances == r.allowances
        && ledger.sent == old(ledger.sent) + r.submitted + (if r.ok && Submitted(buy, f.write) then [buy] else [])
    {
      if BuyDisabled(accountId) {
        return None;
      }
      var o := HandleBuyNow(signer, config, ledger, f);
      outcome := Some(o);
    }
  }

  /**
   * A card inside the wallet provider: `handleBuyNow` acts with the signer
   * that `useWallet()` publishes, so the session's signer decides the guard
   * and owns the approval. The session itself is not changed.
   */
  method BuyNowWithSession(session: WalletSession, card: ListingCard, config: Config, ledger: Ledger, f: FlowFaults)
    returns (outcome: BuyOutcome)
    modifies card, ledger
    ensures outcome == NotConnected <==> session.ethersSigner.None?
    ensures session.ethersSigner.None? ==> unchanged(card) && unchanged(ledger)
    ensures session.ethersSigner.Some? ==>
      var r := ApprovalEffect(old(ledger.allowances), config.usdcToken, session.ethersSigner.value.address,
                              config.market, card.listing.price, f.approval);
      && !card.isBuying
      && (outcome == ApprovalRefused <==> !r.ok)
      && ledger.allowances == r.allowances
  {
    var context := UseWallet(Some(session.Value()));
    outcome := card.HandleBuyNow(context.value.ethersSigner, config, ledger, f);
  }
}

/**
 * The producer form (src/ProducerView.jsx): two text fields, `amount` and
 * `price`, a busy flag `isListing`, the unit conversions, and
 * `handleListEnergy`, which approves the SEWH energy token to the market and
 * then calls `listEnergy(amount, price)`.
 */
module Producer {
  import opened Base
  import opened Numerals
  import opened Chain
  import opened Wallet
  import opened Approval

  /** The SEWH token has 8 decimals. */
  const AmountDecimals: nat := 8

  /** One cent is 10,000 smallest units of the 6-decimal payment token. */
  const PriceScale: int := 10000

  /** The address `config.js` ships with until the SEWH token is configured. */
  const PlaceholderTokenAddress: string := "0x...YOUR_SEWH_TOKEN_ADDRESS_HERE"

  /** `getAmountInSmallestUnit`: `parseUnits(value, 8)`; whole numbers only in this model. */
  function AmountInSmallestUnit(value: string): (r: Option<int>)
    ensures r.Some? ==> |value| > 0
    ensures IsDigits(value) ==> r == Some(DigitsValue(value) * 100000000)
  {
    assert Pow10(AmountDecimals) == 100000000;
    ParseUnits(value, AmountDecimals)
  }

  /** `getPriceInSmallestUnit`: `BigInt(value) * 10000`; throws on anything but an integer. */
  function PriceInSmallestUnit(value: string): (r: Option<int>)
    ensures r.Some? <==> ParseBigInt(value).Some?
    ensures r.Some? ==> r.value == ParseBigInt(value).value * PriceScale
  {
    match ParseBigInt(value)
    case Some(cents) => Some(cents * PriceScale)
    case None => None
  }

  /** Every integer number of cents, written out, converts to cents × 10^4. */
  lemma PriceOfCents(cents: int)
    ensures PriceInSmallestUnit(ShowInt(cents)) == Some(cents * 10000)
  {
    ParseBigIntShowInt(cents);
  }

  /** Every integer number of energy units, written out, converts to units × 10^8. */
  lemma AmountOfUnits(units: int)
    ensures AmountInSmallestUnit(ShowInt(units)) == Some(units * 100000000)
  {
    ParseUnitsShowInt(units, AmountDecimals);
    assert Pow10(AmountDecimals) == 100000000;
  }

  /** A price with a decimal point makes `BigInt` throw. */
  lemma FractionalPriceThrows(value: string, k: nat)
    requires k < |value| && value[k] == '.'
    ensures PriceInSmallestUnit(value) == None
  {
  }

  /** The worked examples: 1000 energy units are 100000000000 smallest units; 15 cents are 150000. */
  lemma ConversionExamples()
    ensures AmountInSmallestUnit("1000") == Some(100000000000)
    ensures PriceInSmallestUnit("15") == Some(150000)
  {
    AmountOfUnits(1000);
    PriceOfCents(15);
    assert ShowInt(1000) == "1000";
    assert ShowInt(15) == "15";
  }

  /** The ways `handleListEnergy` can end. */
  datatype ListOutcome = NotConnected | TokenNotConfigured | ConversionFailed | ApprovalRefused | ListFailed | Listed

  /** The outcomes reached before the busy flag is set. */
  predicate Guarded(outcome: ListOutcome) {
    outcome == NotConnected || outcome == TokenNotConfigured
  }

  class ProducerForm {
    var amount: string
    var price: string
    var isListing: bool

    constructor ()
      ensures amount == "" && price == "" && !isListing
    {
      amount := "";
      price := "";
      isListing := false;
    }

    /**
     * `handleListEnergy`: with a signer and a configured token, set the busy
     * flag, convert amount and price, approve the market to spend exactly the
     * amount of SEWH, then submit `listEnergy(amount, price)`. Only a confirmed
     * listing resets the form (and calls `onListingSuccess`, outcome Listed);
     * every other exit after the flag was set clears it and keeps the fields.
     */
    method HandleListEnergy(signer: Option<Signer>, config: Config, ledger: Ledger, f: FlowFaults)
      returns (outcome: ListOutcome)
      modifies this, ledger
      // The guards: nothing happens without a signer or with the placeholder token.
      ensures signer.None? ==> outcome == NotConnected
      ensures signer.Some? && config.sewhToken == PlaceholderTokenAddress ==> outcome == TokenNotConfigured
      ensures Guarded(outcome) ==> unchanged(this) && unchanged(ledger)
      // Once the flag was set, every exit clears it.
      ensures !Guarded(outcome) ==> !isListing
      // Only a listing resets the form.
      ensures outcome == Listed ==> amount == "" && price == ""
      ensures outcome != Listed ==> amount == old(amount) && price == old(price)
      // A field that does not convert stops the flow before any transaction.
      ensures outcome == ConversionFailed <==>
        && signer.Some? && config.sewhToken != PlaceholderTokenAddress
        && (AmountInSmallestUnit(old(amount)).None? || PriceInSmallestUnit(old(price)).None?)
      ensures outcome == ConversionFailed ==> unchanged(ledger)
      // Approval first; listEnergy is submitted only after it answered true.
      ensures signer.Some? && config.sewhToken != PlaceholderTokenAddress &&
              AmountInSmallestUnit(old(amount)).Some? && PriceInSmallestUnit(old(price)).Some? ==>
        var units := AmountInSmallestUnit(old(amount)).value;
        var cents := PriceInSmallestUnit(old(price)).value;
        var r := ApprovalEffect(old(ledger.allowances), config.sewhToken, signer.value.address, config.market, units, f.approval);
        var list := ListEnergyTx(units, cents);
        && (outcome == ApprovalRefused <==> !r.ok)
        && (r.ok ==> outcome == if Succeeds(list, f.write) then Listed else ListFailed)
        && ledger.allowances == r.allowances
        && ledger.sent == old(ledger.sent) + r.submitted + (if r.ok && Submitted(list, f.write) then [list] else [])
    {
      if signer.None? {
        return NotConnected;
      }
      if config.sewhToken == PlaceholderTokenAddress {
        return TokenNotConfigured;
      }
      isListing := true;
      var units := AmountInSmallestUnit(amount);
      if units.None? {
        isListing := false;
        return ConversionFailed;
      }
      var cents := PriceInSmallestUnit(price);
      if cents.None? {
        isListing := false;
        return ConversionFailed;
      }
      outcome := ApproveAndList(signer.value, config, ledger, units.value, cents.value, f);
      isListing := false;
      if outcome == Listed {
        amount := "";
        price := "";
      }
    }
  }

  /**
   * The transactions of `handleListEnergy` once both fields converted: approve
   * exactly `units` of SEWH to the market, and only if that answered true,
   * submit `listEnergy(units, cents)`.
   */
  method ApproveAndList(signer: Signer, config: Config, ledger: Ledger, units: int, cents: int, f: FlowFaults)
    returns (outcome: ListOutcome)
    modifies ledger
    ensures outcome == ApprovalRefused || outcome == ListFailed || outcome == Listed
    ensures var r := ApprovalEffect(old(ledger.allowances), config.sewhToken, signer.address, config.market, units, f.approval);
      var list := ListEnergyTx(units, cents);
      && (outcome == ApprovalRefused <==> !r.ok)
      && (r.ok ==> outcome == if Succeeds(list, f.write) then Listed else ListFailed)
      && ledger.allowances == r.allowances
      && ledger.sent == old(ledger.sent) + r.submitted + (if r.ok && Submitted(list, f.write) then [list] else [])
  {
    var approved := CheckAndRequestApproval(ledger, signer, config.sewhToken, config.market, units, f.approval);
    if !approved {
      return ApprovalRefused;
    }
    var listed := ledger.Transact(ListEnergyTx(units, cents), f.write);
    outcome := if listed then Listed else ListFailed;
  }

  /**
   * The form inside the wallet provider: `handleListEnergy` acts with the
   * signer that `useWallet()` publishes. The session itself is not changed.
   */
  method ListEnergyWithSession(session: WalletSession, form: ProducerForm, config: Config, ledger: Ledger, f: FlowFaults)
    returns (outcome: ListOutcome)
    modifies form, ledger
    ensures outcome == NotConnected <==> session.ethersSigner.None?
    ensures Guarded(outcome) ==> unchanged(form) && unchanged(ledger)
    ensures !Guarded(outcome) ==> !form.isListing
    ensures session.ethersSigner.Some? && config.sewhToken != PlaceholderTokenAddress &&
            AmountInSmallestUnit(old(form.amount)).Some? && PriceInSmallestUnit(old(form.price)).Some? ==>
      var r := ApprovalEffect(old(ledger.allowances), config.sewhToken, session.ethersSigner.value.address,
                              config.market, AmountInSmallestUnit(old(form.amount)).value, f.approval);
      && (outcome == ApprovalRefused <==> !r.ok)
      && ledger.allowances == r.allowances
  {
    var context := UseWallet(Some(session.Value()));
    outcome := form.HandleListEnergy(context.value.ethersSigner, config, ledger, f);
  }
}

# SOKO energy marketplace front end: a Dafny model of its client-side logic

The SOKO front end is a React page over a market contract and two ERC-20
tokens. The tokens are SEWH, the energy token with 8 decimals, and USDC, the
payment token. The page reaches the chain through ethers and the wallet
through HashConnect. This project models the sequential logic the page holds
itself:

- the listing fetch of `App`: the counter read, the per-index reads, the
  filter on `active`, the index tagging and the newest-first order. It also
  covers the loading flag and the refresh trigger;
- the allowance check `checkAndRequestApproval`. It reads `allowance(owner,
  spender)` and submits `approve(spender, amount)` only when the allowance is
  short. Every failure becomes `false`. The source has two copies of it,
  identical apart from the token named in its alert message, and the model
  has one;
- the two action flows. `handleListEnergy` approves SEWH and then calls
  `listEnergy(amount, price)`. `handleBuyNow` approves USDC and then calls
  `buyEnergy(id)`. The model covers their busy flags, the form fields and the
  unit conversions (price = cents × 10^4, amount = units × 10^8);
- the self-trade test `isOwnListing` and the Buy button it disables;
- the wallet session `WalletProvider`: its five state fields, `initialize`,
  the startup check for a stored pairing, the pairing, disconnection and
  status-change handlers, `connectWallet`, `disconnectWallet` and
  `useWallet`.

The chain becomes a `Ledger` object. It holds an allowance table keyed by
(token, owner, spender), as EIP-20 defines `allowance` and `approve` in its
"Methods" section, and a log of every transaction submitted, in order. A
`TxFaults` or `ApprovalFaults` value says which external call throws: the
signer's `getAddress`, the allowance read, the wallet's submission or the
confirmation. Each flow is a sequential method, and its `ensures` gives the
whole new state: the busy flag, the form fields, the allowance table and the
transactions appended. The flows hold these facts:

- a write call enters the log only after the approval check answered true;
- every exit after the busy flag was set clears it again;
- the guards (no signer, or the placeholder token address) change nothing.

Modules: `Base` (Option, Result, Address), `Numerals` (digit strings, `BigInt`
and `parseUnits`), `Chain` (the ledger), `Approval`, `Wallet`, `Listings`
(App.jsx), `Producer` (ProducerView.jsx) and `Purchase` (ListingCard.jsx).

Notes on the source as written:

- `handleBuyNow` never consults `isOwnListing`. Only the disabled button keeps
  a user from buying their own listing, so `HandleBuyNow` takes no account id
  and `ClickBuyNow` states the guard at the button.
- `BigInt("")` is `0n`, so an empty price field converts to a price of 0. The
  form's `required` attribute normally keeps the field from being empty.
- A negative amount ("-5") passes the allowance check: any allowance is at
  least a negative amount, so the check answers true without a write. The call
  then fails when `listEnergy`'s arguments are encoded.
- A status-change event can report Connected without a signer
  (`ConnectedWithoutSigner`). This is why both flows test for a signer rather
  than for the status.

## Model

| member | source | states |
|---|---|---|
| Numerals.ParseBigInt | src/ProducerView.jsx:57-61 | `BigInt(value)` on number-input strings: "" is 0, a signed or unsigned run of digits is its value, and anything else throws (None) |
| Numerals.ParseUnits | src/ProducerView.jsx:51-54 | `parseUnits(value, d)` on whole numbers: "" and "-" throw, and a run of digits is its value × 10^d |
| Numerals.ParseBigIntShowInt | src/ProducerView.jsx:60 | `BigInt` reads back the numeral of every integer, negative ones included |
| Numerals.ParseUnitsShowInt | src/ProducerView.jsx:53 | `parseUnits` maps the numeral of every integer n to n × 10^d |
| Numerals.ParseBigIntRejectsFraction | src/ProducerView.jsx:60 | a string with a decimal point makes `BigInt` throw |
| Producer.AmountInSmallestUnit | src/ProducerView.jsx:51-54 | a run of digits converts to its value × 10^8, and an empty field throws |
| Producer.PriceInSmallestUnit | src/ProducerView.jsx:57-61 | the price converts exactly when `BigInt` accepts the field, and then to cents × 10000 |
| Producer.PriceOfCents | src/ProducerView.jsx:60 | every integer c of cents, written out, becomes c × 10000 |
| Producer.AmountOfUnits | src/ProducerView.jsx:53 | every integer n of energy units, written out, becomes n × 10^8 |
| Producer.FractionalPriceThrows | src/ProducerView.jsx:84 | a non-integer price throws, so the flow ends in its catch |
| Producer.ConversionExamples | src/ProducerView.jsx:83-84 | "1000" units become 100000000000 and "15" cents become 150000 |
| Producer.ProducerForm.constructor | src/ProducerView.jsx:46-48 | the form starts with empty amount and price and is not listing |
| Producer.ListEnergyWithSession | src/ProducerView.jsx:45-92 | the form acts with the signer the session publishes through useWallet: no session signer means nothing happens; once started isListing ends false, and the approval is the session signer's |
| Producer.ProducerForm.HandleListEnergy | src/ProducerView.jsx:63-116 | guards change nothing; once started, isListing is false on every exit; a field that does not convert stops the flow before any transaction; approval of exactly the amount on SEWH to the market comes first; listEnergy(amount, price) is submitted only after approval answered true; only a confirmed listing resets both fields (outcome Listed, when onListingSuccess runs) |
| Producer.ApproveAndList | src/ProducerView.jsx:86-104 | once both fields converted: approval of exactly the amount on SEWH to the market first; listEnergy(amount, price) is submitted only after it answered true; the outcome is ApprovalRefused, ListFailed or Listed accordingly |
| Chain.Confirmed | src/ProducerView.jsx:28-29 | a confirmed approve overwrites exactly the (token, owner, spender) allowance with the amount; no other entry and no other transaction touches the table |
| Chain.Ledger.ReadAllowance | src/ProducerView.jsx:22 | the allowance read fails or returns the table's entry, where a missing entry is 0 |
| Chain.Ledger.Transact | src/ProducerView.jsx:103-104 | a transaction is logged iff it is encodable and the wallet submits it; only a confirmed one changes the allowance table |
| Approval.ApprovalEffect | src/ProducerView.jsx:12-42 | an approval is submitted iff the reads succeed and the allowance is below the amount; it is for exactly the amount; a sufficient allowance answers true with no write; false exactly when a needed call failed; true leaves the allowance at least the amount; no other allowance changes |
| Approval.CheckAndRequestApproval | src/ListingCard.jsx:12-42 | the step-by-step check: its answer, the ledger's new allowance table and the transactions it appends are those of ApprovalEffect |
| Approval.SecondCheckSubmitsNothing | src/ProducerView.jsx:24-36 | after a check answered true, a second check for the same amount submits nothing and answers true unless a read fails |
| Approval.SmallerAmountAfterApproval | src/ProducerView.jsx:24 | after a check answered true, a check for a smaller amount submits nothing |
| Purchase.IsOwnListing | src/ListingCard.jsx:106 | `isOwnListing`: a seller compared with itself is always the viewer's own listing, and a match implies equal lengths |
| Purchase.IsOwnListingMeans | src/ListingCard.jsx:106 | `isOwnListing` holds iff seller and account have the same length and agree at every position once lower-cased |
| Purchase.CaseOnlyDifference | src/ListingCard.jsx:106 | two spellings that differ only in letter case count as the same account |
| Purchase.ListingCard.constructor | src/ListingCard.jsx:58 | a card starts not buying |
| Purchase.ListingCard.BuyDisabled | src/ListingCard.jsx:116 | the button is disabled while buying; otherwise it is disabled exactly on the viewer's own listing |
| Purchase.ListingCard.HandleBuyNow | src/ListingCard.jsx:60-103 | with no signer nothing changes; otherwise isBuying is false on every exit; approval of exactly listing.price on USDC to the market comes first; buyEnergy(listing.id) is submitted only after approval answered true; Bought (when onPurchaseSuccess runs) only once the buy is confirmed |
| Purchase.ListingCard.ClickBuyNow | src/ListingCard.jsx:113-119 | a click on a disabled button (own listing, or buying) runs nothing and changes nothing; a click on an enabled one runs handleBuyNow with all its guarantees (no-signer guard, isBuying cleared, approval first, buyEnergy only after approval) |
| Purchase.BuyNowWithSession | src/ListingCard.jsx:57-76 | the card acts with the signer the session publishes through useWallet: no session signer means nothing happens, otherwise the approval is the session signer's and isBuying ends false |
| Listings.ReadActiveListings | src/App.jsx:31-50 | one counter read, then listings(0), listings(1), ... each once in increasing order; the first failing read ends the fetch with no result; otherwise the result is ActiveNewestFirst of the registry |
| Listings.Reverse | src/App.jsx:50 | `fetchedListings.reverse()`: the same length, with element i taken from position length - 1 - i |
| Listings.ActiveNewestFirstSound | src/App.jsx:40-46 | every entry shown comes from an active record, has that record's index as id, and copies seller, amount and price unchanged |
| Listings.ActiveNewestFirstComplete | src/App.jsx:37-47 | every active record is shown |
| Listings.ActiveNewestFirstDescending | src/App.jsx:50 | the ids shown strictly decrease (newest first) |
| Listings.ThreeListingExample | src/App.jsx:37-50 | registry [inactive, active A, active B] is shown as [listing 2, listing 1] |
| Listings.App.constructor | src/App.jsx:18-22 | the page starts with no listings, loading, and refresh token 0 |
| Listings.App.FetchListings | src/App.jsx:27-58 | loading is false at the end on both paths; on success the listings are replaced by ActiveNewestFirst, on failure they keep their previous value |
| Listings.App.RefreshListings | src/App.jsx:23 | the refresh token takes the clock's value; the fetch runs again exactly when the token changed |
| Listings.RenderApp | src/App.jsx:71-113 | the producer form is shown iff the status is Connected, together with the account block; the loading notice shows iff loading; otherwise cards appear for exactly the listings, when there are any |
| Wallet.WalletSession.constructor | src/WalletContext.jsx:26-34 | the session starts Disconnected, with accountId "" and no pairing, provider or signer |
| Wallet.WalletSession.Initialize | src/WalletContext.jsx:37-57 | on success, accountId is accountIds[0], provider and signer are installed for it, and the status is Connected; a failure changes nothing; pairingData is never touched |
| Wallet.WalletSession.InitHashConnect | src/WalletContext.jsx:60-75 | a stored pairing is installed and initialized; when none is found, or init throws, nothing changes |
| Wallet.WalletSession.OnPairing | src/WalletContext.jsx:78-82 | the pairing event replaces pairingData wholesale and re-initializes the session for its first account |
| Wallet.WalletSession.OnDisconnection | src/WalletContext.jsx:84-93 | the disconnection event clears pairingData, accountId, provider and signer, and sets Disconnected |
| Wallet.WalletSession.OnConnectionStatusChange | src/WalletContext.jsx:95-98 | the status-change event overwrites the status only |
| Wallet.WalletSession.ConnectWallet | src/WalletContext.jsx:104-110 | the pairing modal is opened iff the status is Disconnected; nothing else happens |
| Wallet.WalletSession.DisconnectWallet | src/WalletContext.jsx:112-118 | a disconnect with pairingData.topic is requested iff the status is Connected and a pairing is held |
| Wallet.WalletSession.Value | src/WalletContext.jsx:121-128 | the context value carries status, accountId, provider and signer, and not pairingData |
| Wallet.UseWallet | src/WalletContext.jsx:138-143 | useWallet throws exactly outside a provider, and otherwise returns the provider's value |
| Wallet.ConnectedWithoutSigner | src/WalletContext.jsx:95-98 | a status-change event can make the session Connected while it holds no signer |
| Wallet.PairDisconnectPair | src/WalletContext.jsx:78-93 | a pairing, a disconnection and a second pairing leave only the second account, its signer and its pairing |

## Left out

- Rendering, `alert`, `console` and CSS are not modelled. The outcome values
  (`ListOutcome`, `BuyOutcome`) stand for which alert is shown.
- `formatPrice` and `formatAmount` use floating-point `Number` division and
  are not modelled.
- vite.config.js and src/main.jsx hold no logic and are not modelled.
- The internals of ethers and HashConnect are not modelled. This covers
  `Contract`, `BrowserProvider`, `getSigner`, the pairing protocol and
  `openPairingModal`. Their answers are parameters (a signer address or None,
  a stored pairing, fault flags), and the requests made of them are return
  values.
- The market contract's logic is not modelled. A `listEnergy` or `buyEnergy`
  transaction is logged, but its effect on the registry is not. Any
  `transferFrom` it makes against an allowance is not modelled either: only
  `approve` changes the allowance table.
- Wallet.WalletSession.Initialize: a pairing with no account ids is treated
  as a failed initialization, which changes nothing. The source has no such
  guard: it passes `accountIds[0]`, which is then `undefined`, to HashConnect's
  `getSigner` and to `setAccountId`. Whether that throws depends on
  HashConnect, which is not part of this model.
- A transaction whose confirmation fails is treated as reverted and changes
  nothing.
- The argument types of `listEnergy` and `buyEnergy` are taken to be uint256.
  The contract's ABI (config.js) is not part of this model.
- Producer.AmountInSmallestUnit: only whole numbers are modelled. `parseUnits`
  also accepts up to eight fractional digits ("1.5"), but the model reports
  every non-integer amount as a conversion failure. Its 512-bit overflow check
  is not modelled either. Such a value fails at the approval encoding instead,
  which leaves the same state.
- Numerals.ParseBigInt: `BigInt` forms that a number input never produces are
  not modelled. These are surrounding white space and the 0x, 0o and 0b
  prefixes.
- Purchase.IsOwnListingMeans: lower-casing is modelled for ASCII letters
  only. `toLowerCase` also maps other Unicode letters.
- `Number(listingCounter)` is taken to be exact. Counters above 2^53 are not
  modelled.
- Interleaving of several asynchronous flows and React's batching of state
  updates are not modelled. Each handler is one sequential method, and each
  `set` call is an assignment, since no handler reads the state it sets.
- `Date.now()` is a parameter of `RefreshListings`.
- The input handlers `setAmount` and `setPrice` and the AI-suggestion button
  are plain UI and are not modelled.

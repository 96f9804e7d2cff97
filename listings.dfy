/**
 * The listings page (src/App.jsx): `fetchListings` reads the market's listing
 * counter, then every listing record below it, keeps the active ones tagged
 * with their index and shows them newest first; `refreshListings` re-runs the
 * fetch; the page shows the producer form only to a connected wallet.
 */
module Listings {
  import opened Base
  import opened Wallet

  /** A record of the market contract's `listings(i)`. */
  datatype ListingRecord = ListingRecord(seller: Address, amountSEWH: nat, priceUSDC: nat, active: bool)

  /** A listing as the page keeps it: the record's index as `id`, and its seller, amount and price. */
  datatype Listing = Listing(id: nat, seller: Address, amount: nat, price: nat)

  /** A read call made against the market contract. */
  datatype ReadCall = ReadCounter | ReadListing(index: nat)

  /** Which read throws, if any: the `nextListingId()` counter, or `listings(index)`. */
  datatype ReadFault = NoFault | CounterFails | ListingFails(index: nat)

  /** The listing record `i` becomes on the page. */
  function Tag(records: seq<ListingRecord>, i: nat): Listing
    requires i < |records|
  {
    Listing(i, records[i].seller, records[i].amountSEWH, records[i].priceUSDC)
  }

  /** The page's listings for the registry `records`: the active ones, tagged, newest first. */
  function ActiveNewestFirst(records: seq<ListingRecord>): seq<Listing>
    decreases |records|
  {
    if records == [] then []
    else
      var last := |records| - 1;
      (if records[last].active then [Tag(records, last)] else []) + ActiveNewestFirst(records[..last])
  }

  /** `Array.prototype.reverse`. */
  function Reverse<T>(s: seq<T>): (r: seq<T>)
    ensures |r| == |s|
    ensures forall i :: 0 <= i < |s| ==> r[i] == s[|s| - 1 - i]
  {
    if s == [] then [] else [s[|s| - 1]] + Reverse(s[..|s| - 1])
  }

  /** Whether the fetch completes: the counter read and every listing read below the counter succeed. */
  predicate FetchSucceeds(count: nat, fault: ReadFault) {
    match fault
    case NoFault => true
    case CounterFails => false
    case ListingFails(k) => k >= count
  }

  /** How many listing records the fetch reads before it completes or fails. */
  function ListingReads(count: nat, fault: ReadFault): (n: nat)
    ensures n <= count
    ensures FetchSucceeds(count, fault) ==> n == count
  {
    match fault
    case NoFault => count
    case CounterFails => 0
    case ListingFails(k) => if k < count then k + 1 else count
  }

  /** Every entry of the page comes from an active record, with its index as id and its fields copied. */
  lemma {:induction false} ActiveNewestFirstSound(records: seq<ListingRecord>, j: nat)
    requires j < |ActiveNewestFirst(records)|
    ensures ActiveNewestFirst(records)[j].id < |records|
    ensures records[ActiveNewestFirst(records)[j].id].active
    ensures ActiveNewestFirst(records)[j] == Tag(records, ActiveNewestFirst(records)[j].id)
    decreases |records|
  {
    var last := |records| - 1;
    var head := if records[last].active then [Tag(records, last)] else [];
    if j >= |head| {
      ActiveNewestFirstSound(records[..last], j - |head|);
    }
  }

  /** Every active record is on the page. */
  lemma {:induction false} ActiveNewestFirstComplete(records: seq<ListingRecord>, i: nat)
    requires i < |records| && records[i].active
    ensures Tag(records, i) in ActiveNewestFirst(records)
    decreases |records|
  {
    var last := |records| - 1;
    if i < last {
      ActiveNewestFirstComplete(records[..last], i);
    }
  }

  /** The page lists the newest first: ids strictly decrease. */
  lemma {:induction false} ActiveNewestFirstDescending(records: seq<ListingRecord>, j: nat, k: nat)
    requires j < k < |ActiveNewestFirst(records)|
    ensures ActiveNewestFirst(records)[j].id > ActiveNewestFirst(records)[k].id
    decreases |records|
  {
    var last := |records| - 1;
    var head := if records[last].active then [Tag(records, last)] else [];
    if j < |head| {
      ActiveNewestFirstSound(records[..last], k - 1);
    } else {
      ActiveNewestFirstDescending(records[..last], j - |head|, k - |head|);
    }
  }

  /** Reversing a list after pushing onto it puts the pushed element first. */
  lemma ReversePush<T>(s: seq<T>, x: T)
    ensures Reverse(s + [x]) == [x] + Reverse(s)
  {
  }

  /**
   * The loop of `fetchListings`, reading `registry` as the market holds it:
   * the counter first, then `listings(0)`, `listings(1)`, ... in order, each
   * once; the active records are pushed, tagged with their index, and the list
   * is reversed. The first read that throws ends the fetch with no result.
   */
  method ReadActiveListings(registry: seq<ListingRecord>, fault: ReadFault)
    returns (result: Option<seq<Listing>>, calls: seq<ReadCall>)
    ensures result.Some? <==> FetchSucceeds(|registry|, fault)
    ensures result.Some? ==> result.value == ActiveNewestFirst(registry)
    ensures |calls| == 1 + ListingReads(|registry|, fault)
    ensures calls[0] == ReadCounter
    ensures forall i :: 1 <= i < |calls| ==> calls[i] == ReadListing(i - 1)
  {
    calls := [ReadCounter];
    if fault == CounterFails {
      return None, calls;
    }
    var total := |registry|;
    var fetched: seq<Listing> := [];
    var i := 0;
    while i < total
      invariant 0 <= i <= total
      invariant |calls| == 1 + i && calls[0] == ReadCounter
      invariant forall j :: 1 <= j < |calls| ==> calls[j] == ReadListing(j - 1)
      invariant fault.ListingFails? ==> fault.index >= i
      invariant Reverse(fetched) == ActiveNewestFirst(registry[..i])
    {
      calls := calls + [ReadListing(i)];
      if fault == ListingFails(i) {
        return None, calls;
      }
      var listing := registry[i];
      assert registry[..i + 1][..i] == registry[..i];
      if listing.active {
        ReversePush(fetched, Listing(i, listing.seller, listing.amountSEWH, listing.priceUSDC));
        fetched := fetched + [Listing(i, listing.seller, listing.amountSEWH, listing.priceUSDC)];
      }
      i := i + 1;
    }
    assert registry[..total] == registry;
    result := Some(Reverse(fetched));
  }

  /** The example registry of three listings, the first inactive: the page shows listing 2, then listing 1. */
  lemma ThreeListingExample(a: Address, b: Address, amountB: nat, priceB: nat)
    ensures ActiveNewestFirst([ListingRecord(a, 0, 0, false), ListingRecord(a, 100000000000, 150000, true),
                               ListingRecord(b, amountB, priceB, true)])
         == [Listing(2, b, amountB, priceB), Listing(1, a, 100000000000, 150000)]
  {
    var r := [ListingRecord(a, 0, 0, false), ListingRecord(a, 100000000000, 150000, true),
              ListingRecord(b, amountB, priceB, true)];
    assert ActiveNewestFirst(r[..1]) == [] by {
      assert r[..1][..0] == [];
    }
    assert ActiveNewestFirst(r[..2]) == [Tag(r, 1)] by {
      assert r[..2][..1] == r[..1];
    }
    assert r[..|r| - 1] == r[..2];
  }

  /** The page's own state: the listings shown, the loading flag and the refresh token. */
  class App {
    var listings: seq<Listing>
    var loading: bool
    var refreshId: int

    constructor ()
      ensures listings == [] && loading && refreshId == 0
    {
      listings := [];
      loading := true;
      refreshId := 0;
    }

    /** `fetchListings`: on success the page shows exactly the new listings; on failure it keeps the old ones. Loading ends either way. */
    method FetchListings(registry: seq<ListingRecord>, fault: ReadFault)
      modifies this`listings, this`loading
      ensures !loading
      ensures listings == if FetchSucceeds(|registry|, fault) then ActiveNewestFirst(registry) else old(listings)
    {
      loading := true;
      var result, calls := ReadActiveListings(registry, fault);
      if result.Some? {
        listings := result.value;
      }
      loading := false;
    }

    /**
     * `refreshListings`: the refresh token becomes the clock's value `now`;
     * the fetch effect runs again only when the token changes.
     */
    method RefreshListings(now: int, registry: seq<ListingRecord>, fault: ReadFault)
      modifies this
      ensures refreshId == now
      ensures now != old(refreshId) ==>
        !loading && listings == if FetchSucceeds(|registry|, fault) then ActiveNewestFirst(registry) else old(listings)
      ensures now == old(refreshId) ==> listings == old(listings) && loading == old(loading)
    {
      var changed := now != refreshId;
      refreshId := now;
      if changed {
        FetchListings(registry, fault);
      }
    }
  }

  /** The wallet block of the page: the account and a disconnect button, or a connect button. */
  datatype WalletBlock = AccountInfo(accountId: string) | ConnectButton

  /** The listings block: a loading notice, a no-listings notice, or one card per listing. */
  datatype ListingsBlock = LoadingNotice | NoListingsNotice | Cards(cards: seq<Listing>)

  datatype Page = Page(wallet: WalletBlock, producerForm: bool, main: ListingsBlock)

  /** What the page shows for the wallet's status and the page state. */
  function RenderApp(status: ConnectionState, accountId: string, listings: seq<Listing>, loading: bool): (p: Page)
    ensures p.producerForm <==> status == Connected
    ensures p.producerForm <==> p.wallet.AccountInfo?
    ensures p.wallet.AccountInfo? ==> p.wallet.accountId == accountId
    ensures p.main.LoadingNotice? <==> loading
    ensures p.main.Cards? ==> p.main.cards == listings && |listings| > 0
    ensures !loading && |listings| > 0 ==> p.main.Cards?
  {
    var connected := status == Connected;
    Page(if connected then AccountInfo(accountId) else ConnectButton,
         connected,
         if loading then LoadingNotice else if |listings| == 0 then NoListingsNotice else Cards(listings))
  }
}

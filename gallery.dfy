/** The gallery page: the status/chain filter over the user's assets, and the
    transfer and listing dialogs with their input guards. */
module Gallery {
  import opened JsValues
  import opened Assets

  /** The filter value that matches everything. */
  const All := "all"

  /** The filter predicate: a status filter other than `all` must equal the
      asset's status, and a chain filter other than `all` its chain. */
  predicate Keeps(a: Asset, filterStatus: string, filterChain: string) {
    && (filterStatus == All || a.status == Some(filterStatus))
    && (filterChain == All || a.chain == filterChain)
  }

  /** `nfts.filter(...)` */
  function Filtered(nfts: seq<Asset>, filterStatus: string, filterChain: string): (r: seq<Asset>)
    ensures |r| <= |nfts|
    ensures forall i | 0 <= i < |r| :: Keeps(r[i], filterStatus, filterChain)
  {
    if nfts == [] then []
    else
      (if Keeps(nfts[0], filterStatus, filterChain) then [nfts[0]] else [])
      + Filtered(nfts[1..], filterStatus, filterChain)
  }

  /** An asset is kept, as many times as it occurs, exactly when it passes
      the filter. */
  lemma {:induction false} FilteredCounts(nfts: seq<Asset>, filterStatus: string, filterChain: string, a: Asset)
    ensures multiset(Filtered(nfts, filterStatus, filterChain))[a]
         == if Keeps(a, filterStatus, filterChain) then multiset(nfts)[a] else 0
  {
    if nfts != [] {
      var rest := nfts[1..];
      FilteredCounts(rest, filterStatus, filterChain, a);
      var head := if Keeps(nfts[0], filterStatus, filterChain) then [nfts[0]] else [];
      assert nfts == [nfts[0]] + rest;
      assert multiset(Filtered(nfts, filterStatus, filterChain))
          == multiset(head) + multiset(Filtered(rest, filterStatus, filterChain));
      assert multiset(nfts) == multiset([nfts[0]]) + multiset(rest);
    }
  }

  /** `a` is `b` with some elements left out, order kept. */
  predicate IsSubsequence(a: seq<Asset>, b: seq<Asset>)
    decreases |b|
  {
    || a == []
    || (&& b != []
        && ((a[0] == b[0] && IsSubsequence(a[1..], b[1..])) || IsSubsequence(a, b[1..])))
  }

  /** The filter keeps the assets in their original order. */
  lemma {:induction false} FilteredIsSubsequence(nfts: seq<Asset>, filterStatus: string, filterChain: string)
    ensures IsSubsequence(Filtered(nfts, filterStatus, filterChain), nfts)
  {
    if nfts != [] {
      FilteredIsSubsequence(nfts[1..], filterStatus, filterChain);
      var rest := Filtered(nfts[1..], filterStatus, filterChain);
      if Keeps(nfts[0], filterStatus, filterChain) {
        var r := [nfts[0]] + rest;
        assert Filtered(nfts, filterStatus, filterChain) == r;
        assert r[0] == nfts[0] && r[1..] == rest;
      } else {
        assert Filtered(nfts, filterStatus, filterChain) == rest;
      }
    }
  }

  /** Filtering the filtered list again changes nothing. */
  lemma {:induction false} FilterIdempotent(nfts: seq<Asset>, filterStatus: string, filterChain: string)
    ensures Filtered(Filtered(nfts, filterStatus, filterChain), filterStatus, filterChain)
         == Filtered(nfts, filterStatus, filterChain)
  {
    if nfts != [] {
      FilterIdempotent(nfts[1..], filterStatus, filterChain);
      var rest := Filtered(nfts[1..], filterStatus, filterChain);
      if Keeps(nfts[0], filterStatus, filterChain) {
        var r := [nfts[0]] + rest;
        assert r[0] == nfts[0] && r[1..] == rest;
        assert Filtered(r, filterStatus, filterChain) == [nfts[0]] + Filtered(rest, filterStatus, filterChain);
      } else {
        assert Filtered(nfts, filterStatus, filterChain) == rest;
      }
    }
  }

  /** With both filters at `all`, every asset shows. */
  lemma {:induction false} FilterAllShowsEverything(nfts: seq<Asset>)
    ensures Filtered(nfts, All, All) == nfts
  {
    if nfts != [] {
      FilterAllShowsEverything(nfts[1..]);
      assert nfts == [nfts[0]] + nfts[1..];
    }
  }

  /** A dialog's `{ open, nftId }` state. */
  datatype Dialog = Dialog(open: bool, nftId: string)

  const Closed := Dialog(false, "")

  datatype TransferForm = TransferForm(toAddress: string, chain: string)

  const DefaultTransferForm := TransferForm("", "polygon-amoy")

  datatype ListForm = ListForm(price: string, currency: string)

  const DefaultListForm := ListForm("", "MATIC")

  /** An invocation of the transfer function. */
  datatype TransferCall = TransferCall(nftId: string, toAddress: string, chain: string)

  /** A `marketplace_listings` row as inserted by the page (the id and the
      timestamps are assigned by the database). */
  datatype Listing = Listing(
    nft_id: string,
    seller_id: string,
    seller_address: string,
    price: real,
    currency: string,
    status: string)

  /** The listing price guard: blank, or a number not above zero. `parsed` is
      `parseFloat(price)`, `None` for NaN, which compares false with 0 and so
      passes. */
  predicate PriceRejected(price: string, parsed: Option<real>) {
    IsBlank(price) || (parsed.Some? && parsed.value <= 0.0)
  }

  class GalleryPage {
    const userId: string
    const walletAddress: string
    var nfts: seq<Asset>
    var transferDialog: Dialog
    var listDialog: Dialog
    var transferForm: TransferForm
    var listForm: ListForm
    var isTransferring: bool
    var isListing: bool
    var filterStatus: string
    var filterChain: string
    /** The rows this page added to `marketplace_listings`. */
    var listings: seq<Listing>
    /** The transfer function's invocations, in order. */
    ghost var transfers: seq<TransferCall>

    constructor (userId: string, walletAddress: string, nfts: seq<Asset>)
      ensures this.userId == userId && this.walletAddress == walletAddress && this.nfts == nfts
      ensures transferDialog == Closed && listDialog == Closed
      ensures transferForm == DefaultTransferForm && listForm == DefaultListForm
      ensures !isTransferring && !isListing
      ensures filterStatus == All && filterChain == All
      ensures listings == [] && transfers == []
      ensures ListingsWellFormed(listings, userId, walletAddress)
    {
      this.userId := userId;
      this.walletAddress := walletAddress;
      this.nfts := nfts;
      transferDialog, listDialog := Closed, Closed;
      transferForm, listForm := DefaultTransferForm, DefaultListForm;
      isTransferring, isListing := false, false;
      filterStatus, filterChain := All, All;
      listings, transfers := [], [];
    }

    /** The assets the page shows: the loaded ones that pass both filters,
        in their loaded order, and all of them while both filters are `all`. */
    function Shown(): (r: seq<Asset>)
      reads this
      ensures forall i | 0 <= i < |r| :: Keeps(r[i], filterStatus, filterChain)
      ensures IsSubsequence(r, nfts)
      ensures filterStatus == All && filterChain == All ==> r == nfts
    {
      FilteredIsSubsequence(nfts, filterStatus, filterChain);
      FilterAllShowsEverything(nfts);
      Filtered(nfts, filterStatus, filterChain)
    }

    /** `handleTransfer`: a blank destination is refused before anything is
        invoked; a successful invocation closes the dialog and resets the
        form. `invokeSucceeded` is the transfer function's outcome. */
    method HandleTransfer(nftId: string, invokeSucceeded: bool)
      modifies this
      ensures IsBlank(old(transferForm.toAddress)) ==>
        && transfers == old(transfers)
        && transferDialog == old(transferDialog) && transferForm == old(transferForm)
        && isTransferring == old(isTransferring)
      ensures !IsBlank(old(transferForm.toAddress)) ==>
        && transfers == old(transfers) + [TransferCall(nftId, old(transferForm.toAddress), old(transferForm.chain))]
        && !isTransferring
        && transferDialog == (if invokeSucceeded then Closed else old(transferDialog))
        && transferForm == (if invokeSucceeded then DefaultTransferForm else old(transferForm))
      ensures nfts == old(nfts) && listings == old(listings)
      ensures listDialog == old(listDialog) && listForm == old(listForm) && isListing == old(isListing)
      ensures filterStatus == old(filterStatus) && filterChain == old(filterChain)
    {
      if IsBlank(transferForm.toAddress) {
        return;
      }
      isTransferring := true;
      transfers := transfers + [TransferCall(nftId, transferForm.toAddress, transferForm.chain)];
      if invokeSucceeded {
        transferDialog := Closed;
        transferForm := DefaultTransferForm;
      }
      isTransferring := false;
    }

    /** `handleList`: a blank or non-positive price is refused before the
        insert; otherwise one active listing by this user and wallet is
        inserted. The database refuses it when `insertAccepted` is false, and
        always when the price is NaN, which is sent as `null` into a column
        that cannot hold one. */
    method HandleList(nftId: string, parsedPrice: Option<real>, insertAccepted: bool)
      modifies this
      ensures PriceRejected(old(listForm.price), parsedPrice) ==>
        listings == old(listings) && listDialog == old(listDialog) && listForm == old(listForm)
        && isListing == old(isListing)
      ensures !PriceRejected(old(listForm.price), parsedPrice) ==>
        && !isListing
        && (insertAccepted && parsedPrice.Some? ==>
              && listings == old(listings) + [Listing(nftId, userId, walletAddress, parsedPrice.value,
                                                      old(listForm.currency), "active")]
              && listDialog == Closed && listForm == DefaultListForm)
        && (!(insertAccepted && parsedPrice.Some?) ==>
              listings == old(listings) && listDialog == old(listDialog) && listForm == old(listForm))
      ensures nfts == old(nfts) && transfers == old(transfers)
      ensures transferDialog == old(transferDialog) && transferForm == old(transferForm)
      ensures isTransferring == old(isTransferring)
      ensures filterStatus == old(filterStatus) && filterChain == old(filterChain)
      ensures ListingsWellFormed(old(listings), userId, walletAddress) ==>
        ListingsWellFormed(listings, userId, walletAddress)
    {
      if PriceRejected(listForm.price, parsedPrice) {
        return;
      }
      isListing := true;
      if insertAccepted && parsedPrice.Some? {
        AcceptedPriceIsPositive(listForm.price, parsedPrice);
        listings := listings + [Listing(nftId, userId, walletAddress, parsedPrice.value, listForm.currency, "active")];
        listDialog := Closed;
        listForm := DefaultListForm;
      }
      isListing := false;
    }
  }

  /** Every listing the page inserts is active, priced above zero, and sold
      by the page's user from the page's wallet. */
  predicate ListingsWellFormed(listings: seq<Listing>, userId: string, walletAddress: string) {
    forall i | 0 <= i < |listings| ::
      && listings[i].status == "active" && listings[i].price > 0.0
      && listings[i].seller_id == userId && listings[i].seller_address == walletAddress
  }

  /** A listing that gets past the guard has a positive price. */
  lemma AcceptedPriceIsPositive(price: string, parsed: Option<real>)
    requires !PriceRejected(price, parsed) && parsed.Some?
    ensures parsed.value > 0.0
  {
  }
}

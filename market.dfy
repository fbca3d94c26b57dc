/** The market module: listing an asset (after the approval probe), buying
    (with the ERC-20 allowance top-up), unlisting, and the filtered listing
    queries. */
module Market {
  import opened Common
  import opened Chain
  import opened SdkState

  /** ListArg: what `list` puts up for sale, and on what terms. */
  datatype ListArg = ListArg(
    assetContract: Address,
    tokenId: nat,
    currencyContract: Address,
    pricePerToken: nat,
    quantity: nat,
    tokensPerBuyer: nat,
    secondsUntilStart: nat,
    secondsUntilEnd: nat)

  /** The ERC-165 interface id of ERC-721, as EIP-721 fixes it. */
  const Erc721InterfaceId: seq<bv8> := [0x80, 0xac, 0x58, 0xcd]

  /** The arguments of the market's `list` entry point. */
  function ListArgs(arg: ListArg): (args: seq<Arg>)
  {
    [AStr(arg.assetContract), AInt(arg.tokenId), AStr(arg.currencyContract), AInt(arg.pricePerToken),
     AInt(arg.quantity), AInt(arg.tokensPerBuyer), AInt(arg.secondsUntilStart), AInt(arg.secondsUntilEnd)]
  }

  /** `list` carries the eight fields of its argument, in declaration order. */
  lemma ListArgsInOrder(arg: ListArg)
    ensures var a := ListArgs(arg);
      && |a| == 8
      && a[0] == AStr(arg.assetContract) && a[1] == AInt(arg.tokenId)
      && a[2] == AStr(arg.currencyContract) && a[3] == AInt(arg.pricePerToken)
      && a[4] == AInt(arg.quantity) && a[5] == AInt(arg.tokensPerBuyer)
      && a[6] == AInt(arg.secondsUntilStart) && a[7] == AInt(arg.secondsUntilEnd)
  {
  }

  /** How the asset contract is addressed: ERC-721 exactly when it reports
      the ERC-721 interface, ERC-1155 otherwise. */
  function StandardOf(view: ChainView, asset: Address): (std: TokenStandard)
    ensures std == Erc721 <==> view.supportsInterface(asset, Erc721InterfaceId)
    ensures std == Erc1155 <==> !view.supportsInterface(asset, Erc721InterfaceId)
  {
    if view.supportsInterface(asset, Erc721InterfaceId) then Erc721 else Erc1155
  }

  /** The probes `list` makes once it has the signer's address: the
      interface query, then whether the market is approved for all of the
      signer's assets through the detected standard. */
  function ListProbes(view: ChainView, market: Address, asset: Address, owner: Address): (ps: seq<Probe>)
    ensures |ps| == 2
    ensures ps[0] == SupportsInterface(asset, Erc721InterfaceId)
    ensures ps[1] == IsApprovedForAll(StandardOf(view, asset), asset, owner, market)
  {
    [SupportsInterface(asset, Erc721InterfaceId), IsApprovedForAll(StandardOf(view, asset), asset, owner, market)]
  }

  /** The currency of a listing needs an allowance exactly when it is set
      and is not the zero address (the native token). */
  predicate PaysInErc20(l: Listing)
  {
    l.currencyContract.Some? && l.currencyContract.value != ZeroAddress
  }

  /** `total_price`: the price for `quantity` tokens of the listing. */
  function TotalPrice(l: Listing, quantity: nat): (total: nat)
    ensures quantity == 0 || l.pricePerToken == 0 ==> total == 0
    ensures quantity > 0 ==> l.pricePerToken <= total
    ensures l.pricePerToken > 0 ==> quantity <= total
  {
    l.pricePerToken * quantity
  }

  /** The probes `buy` makes for `owner`: the listing, then the allowance
      only when the listing is paid in an ERC-20 token. */
  function BuyProbes(view: ChainView, market: Address, listingId: nat, owner: Address): (ps: seq<Probe>)
  {
    var l := view.listing(market, listingId);
    [GetListing(market, listingId)]
      + (if PaysInErc20(l) then [Allowance(l.currencyContract.value, owner, market)] else [])
  }

  /** Whether `buy` by `owner` first raises the market's allowance. */
  predicate NeedsTopUp(view: ChainView, market: Address, listingId: nat, quantity: nat, owner: Address)
  {
    var l := view.listing(market, listingId);
    PaysInErc20(l) && view.allowance(l.currencyContract.value, owner, market) < TotalPrice(l, quantity)
  }

  /** The transactions `buy` by `owner` issues with options `opts`. */
  function BuyCalls(view: ChainView, market: Address, listingId: nat, quantity: nat, owner: Address,
                    opts: TxParams): (calls: seq<Call>)
  {
    var l := view.listing(market, listingId);
    (if NeedsTopUp(view, market, listingId, quantity, owner)
     then [Call(l.currencyContract.value, "increase_allowance", [AStr(market), AInt(TotalPrice(l, quantity))], opts)]
     else [])
      + [Call(market, "buy", [AInt(listingId), AInt(quantity)], opts)]
  }

  /** No allowance is read or raised when the listing is priced in the
      native token (no currency, or the zero address). */
  lemma NativeCurrencyBuy(view: ChainView, market: Address, listingId: nat, quantity: nat, owner: Address,
                          opts: TxParams)
    requires var c := view.listing(market, listingId).currencyContract; c.None? || c.value == ZeroAddress
    ensures BuyProbes(view, market, listingId, owner) == [GetListing(market, listingId)]
    ensures BuyCalls(view, market, listingId, quantity, owner, opts)
         == [Call(market, "buy", [AInt(listingId), AInt(quantity)], opts)]
  {
  }

  /** `buy` issues the allowance increase iff the fetched allowance is below
      the total price, increases it by the total price (not the shortfall),
      and always ends with exactly one `buy(listing_id, quantity)`. */
  lemma BuyCallsShape(view: ChainView, market: Address, listingId: nat, quantity: nat, owner: Address,
                      opts: TxParams)
    ensures var calls := BuyCalls(view, market, listingId, quantity, owner, opts);
      var l := view.listing(market, listingId);
      && (|calls| == 2 <==> PaysInErc20(l)
                            && view.allowance(l.currencyContract.value, owner, market) < l.pricePerToken * quantity)
      && (|calls| == 1 || |calls| == 2)
      && calls[|calls| - 1] == Call(market, "buy", [AInt(listingId), AInt(quantity)], opts)
      && (|calls| == 2 ==>
            calls[0] == Call(l.currencyContract.value, "increase_allowance",
                             [AStr(market), AInt(l.pricePerToken * quantity)], opts))
      && forall k :: 0 <= k < |calls| - 1 ==> calls[k].fn == "increase_allowance"
  {
  }

  /** A listing filter; `None` in a field means the field is not set. */
  datatype Filter = Filter(assetContract: Option<Address>, tokenId: Option<nat>, seller: Option<Address>)

  /** The read-only market query `get_all` dispatches to. */
  datatype ListingQuery =
    | AllListings
    | ByAsset(asset: Address, tokenId: nat)
    | ByAssetContract(asset: Address)
    | BySeller(seller: Address)

  /** The dispatch of `get_all(search_filter)`: the asset contract is looked
      at first, then the seller. */
  function QueryOf(filter: Option<Filter>): (q: ListingQuery)
    ensures filter.None? ==> q == AllListings
    ensures filter.Some? ==> var f := filter.value;
      && (q.ByAsset? <==> f.assetContract.Some? && f.tokenId.Some?)
      && (q.ByAssetContract? <==> f.assetContract.Some? && f.tokenId.None?)
      && (q.BySeller? <==> f.assetContract.None? && f.seller.Some?)
      && (q == AllListings <==> f.assetContract.None? && f.seller.None?)
      && (q.ByAsset? ==> q.asset == f.assetContract.value && q.tokenId == f.tokenId.value)
      && (q.ByAssetContract? ==> q.asset == f.assetContract.value)
      && (q.BySeller? ==> q.seller == f.seller.value)
  {
    match filter
    case None => AllListings
    case Some(f) =>
      if f.assetContract.Some? then
        if f.tokenId.Some? then ByAsset(f.assetContract.value, f.tokenId.value)
        else ByAssetContract(f.assetContract.value)
      else if f.seller.Some? then BySeller(f.seller.value)
      else AllListings
  }

  /** A set asset contract wins over a set seller: the seller is then not
      consulted at all. */
  lemma AssetContractBeatsSeller(f: Filter, seller: Option<Address>)
    requires f.assetContract.Some?
    ensures QueryOf(Some(f.(seller := seller))) == QueryOf(Some(f))
    ensures !QueryOf(Some(f)).BySeller? && !QueryOf(Some(f)).AllListings?
  {
  }

  /** The answer of a listing query on the market contract. */
  function RunQuery(view: ChainView, market: Address, q: ListingQuery): (ls: seq<Listing>)
  {
    match q
    case AllListings => view.allListings(market)
    case ByAsset(a, t) => view.listingsByAsset(market, a, t)
    case ByAssetContract(a) => view.listingsByAssetContract(market, a)
    case BySeller(s) => view.listingsBySeller(market, s)
  }

  class MarketModule {
    const base: ModuleBase

    constructor (address: Address, client: Chain)
      ensures fresh(base) && base.address == address && base.client == client
      ensures base.state == null && base.accessors == {}
    {
      base := new ModuleBase(address, client);
    }

    /** `list(arg)`. Without a signer it fails before any probe. Otherwise it
        probes the interface and the operator approval; when the market is
        already approved no approval call is made and exactly one `list`
        transaction with the eight fields of `arg` is issued. The
        not-approved branches fail with nothing sent. */
    method List(arg: ListArg) returns (r: Result<Receipt>)
      requires base.state != null
      modifies base.client`log, base.client`probes
      ensures var s := base.state;
        s.signerAddress == "" ==>
          r == Err(NoSigner) && base.client.log == old(base.client.log) && base.client.probes == old(base.client.probes)
      ensures var s := base.state; var view := base.client.view;
        s.signerAddress != "" ==>
          && base.client.probes == old(base.client.probes)
               + ListProbes(view, base.address, arg.assetContract, s.signerAddress)
          && (view.isApprovedForAll(arg.assetContract, s.signerAddress, base.address) ==>
                Executed(old(base.client.log), base.client.log, r, base.address, "list", ListArgs(arg),
                         s.TransactOpts()))
          && (!view.isApprovedForAll(arg.assetContract, s.signerAddress, base.address) ==>
                r == Err(ApprovalFailed) && base.client.log == old(base.client.log))
    {
      var s := base.state;
      var from := s.SignerAddress();
      if from.Err? {
        r := Err(from.error);
        return;
      }
      var isErc721 := base.client.QuerySupportsInterface(arg.assetContract, Erc721InterfaceId);
      var standard := if isErc721 then Erc721 else Erc1155;
      var approved := base.client.QueryApprovedForAll(standard, arg.assetContract, from.value, base.address);
      if !approved {
        r := Err(ApprovalFailed);
        return;
      }
      r := base.client.Execute(base.address, "list", ListArgs(arg), s.TransactOpts());
    }

    /** `unlist(listing_id, quantity)`: one `unlist` transaction. */
    method Unlist(listingId: nat, quantity: nat) returns (r: Result<Receipt>)
      requires base.state != null
      modifies base.client`log
      ensures Executed(old(base.client.log), base.client.log, r, base.address, "unlist",
                       [AInt(listingId), AInt(quantity)], base.state.TransactOpts())
    {
      r := base.client.Execute(base.address, "unlist", [AInt(listingId), AInt(quantity)], base.state.TransactOpts());
    }

    /** `unlist_all(listing_id)`: reads the listing, then unlists exactly its
        current quantity. */
    method UnlistAll(listingId: nat) returns (r: Result<Receipt>)
      requires base.state != null
      modifies base.client`log, base.client`probes
      ensures base.client.probes == old(base.client.probes) + [GetListing(base.address, listingId)]
      ensures Executed(old(base.client.log), base.client.log, r, base.address, "unlist",
                       [AInt(listingId), AInt(Get(listingId).quantity)], base.state.TransactOpts())
    {
      var l := base.client.QueryListing(base.address, listingId);
      r := Unlist(listingId, l.quantity);
    }

    /** `buy(listing_id, quantity)`: reads the listing, asks for the signer,
        then (for an ERC-20 priced listing) reads the allowance and tops it
        up, and finally issues `buy`; the receipt is that of `buy`. */
    method Buy(listingId: nat, quantity: nat) returns (r: Result<Receipt>)
      requires base.state != null
      modifies base.client`log, base.client`probes
      ensures var s := base.state;
        s.signerAddress == "" ==>
          && r == Err(NoSigner) && base.client.log == old(base.client.log)
          && base.client.probes == old(base.client.probes) + [GetListing(base.address, listingId)]
      ensures var s := base.state; var view := base.client.view;
        s.signerAddress != "" ==>
          var calls := BuyCalls(view, base.address, listingId, quantity, s.signerAddress, s.TransactOpts().value);
          && base.client.probes == old(base.client.probes) + BuyProbes(view, base.address, listingId, s.signerAddress)
          && base.client.log == old(base.client.log) + calls
          && r == Ok(Receipt(|old(base.client.log)| + |calls| - 1))
    {
      var s := base.state;
      var listing := base.client.QueryListing(base.address, listingId);
      var owner := s.SignerAddress();
      if owner.Err? {
        r := Err(owner.error);
        return;
      }
      var spender := base.address;
      var total := TotalPrice(listing, quantity);
      if listing.currencyContract.Some? && listing.currencyContract.value != ZeroAddress {
        var currency := listing.currencyContract.value;
        var allowance := base.client.QueryAllowance(currency, owner.value, spender);
        if allowance < total {
          var _ := base.client.Execute(currency, "increase_allowance", [AStr(spender), AInt(total)],
                                       s.TransactOpts());
        }
      }
      r := base.client.Execute(base.address, "buy", [AInt(listingId), AInt(quantity)], s.TransactOpts());
    }

    /** `set_market_fee_bps(amount)`. */
    method SetMarketFeeBps(amount: nat) returns (r: Result<Receipt>)
      requires base.state != null
      modifies base.client`log
      ensures Executed(old(base.client.log), base.client.log, r, base.address, "set_market_fee_bps",
                       [AInt(amount)], base.state.TransactOpts())
    {
      r := base.client.Execute(base.address, "set_market_fee_bps", [AInt(amount)], base.state.TransactOpts());
    }

    /** `get(listing_id)`, also reached as `get_listing`. */
    function Get(listingId: nat): (l: Listing)
      ensures l == base.client.view.listing(base.address, listingId)
    {
      base.client.view.listing(base.address, listingId)
    }

    /** `get_all(search_filter)`, also reached as `get_all_listings`: the
        answer of the one query the filter selects. */
    function GetAll(filter: Option<Filter>): (ls: seq<Listing>)
      ensures filter.None? ==> ls == base.client.view.allListings(base.address)
      ensures filter.Some? && filter.value.assetContract.Some? && filter.value.tokenId.Some? ==>
        ls == base.client.view.listingsByAsset(base.address, filter.value.assetContract.value,
                                               filter.value.tokenId.value)
      ensures filter.Some? && filter.value.assetContract.Some? && filter.value.tokenId.None? ==>
        ls == base.client.view.listingsByAssetContract(base.address, filter.value.assetContract.value)
      ensures filter.Some? && filter.value.assetContract.None? && filter.value.seller.Some? ==>
        ls == base.client.view.listingsBySeller(base.address, filter.value.seller.value)
      ensures filter.Some? && filter.value.assetContract.None? && filter.value.seller.None? ==>
        ls == base.client.view.allListings(base.address)
    {
      RunQuery(base.client.view, base.address, QueryOf(filter))
    }
  }
}

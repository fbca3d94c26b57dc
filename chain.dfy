/** The chain as the nftlabs modules see it through their web3 client and ABI
    bindings: the answers of the contracts' read-only calls are given (a
    `ChainView`), and the client records, in order, every transaction the SDK
    issues and the probes the market's write operations make (other reads
    are answered by the view without being recorded). What the contracts do with
    a transaction is theirs and is not modelled. */
module Chain {
  import opened Common

  /** A market listing as `get_listing` returns it. */
  datatype Listing = Listing(
    listingId: nat,
    seller: Address,
    assetContract: Address,
    tokenId: nat,
    currencyContract: Option<Address>,
    pricePerToken: nat,
    quantity: nat,
    tokensPerBuyer: nat,
    saleStart: nat,
    saleEnd: nat)

  /** The answers of the contracts' read-only calls, keyed by contract address
      first. `nativeTokensEvents` gives, for a transaction hash, the decoded
      token-creation events of that transaction. */
  datatype ChainView = ChainView(
    connected: bool,
    uri: (Address, nat) -> string,
    totalSupply: (Address, nat) -> nat,
    creator: (Address, nat) -> Address,
    balanceOf: (Address, Address, nat) -> nat,
    nextTokenId: Address -> nat,
    nativeTokensEvents: nat -> seq<seq<nat>>,
    roleMemberCount: (Address, RoleHash) -> nat,
    roleMember: (Address, RoleHash, nat) -> Address,
    listing: (Address, nat) -> Listing,
    allListings: Address -> seq<Listing>,
    listingsByAsset: (Address, Address, nat) -> seq<Listing>,
    listingsByAssetContract: (Address, Address) -> seq<Listing>,
    listingsBySeller: (Address, Address) -> seq<Listing>,
    allowance: (Address, Address, Address) -> nat,
    supportsInterface: (Address, seq<bv8>) -> bool,
    isApprovedForAll: (Address, Address, Address) -> bool)

  /** One transaction issued to a contract: the ABI entry point, its
      arguments in order, and the options it was built with. */
  datatype Call = Call(contract: Address, fn: string, args: seq<Arg>, opts: TxParams)

  /** The token-ownership interface a probed contract was treated as. */
  datatype TokenStandard = Erc721 | Erc1155

  /** A read-only probe made by a write operation. */
  datatype Probe =
    | GetListing(market: Address, listingId: nat)
    | Allowance(token: Address, owner: Address, spender: Address)
    | SupportsInterface(contract: Address, interfaceId: seq<bv8>)
    | IsApprovedForAll(standard: TokenStandard, asset: Address, owner: Address, operator: Address)

  /** The effect of `execute_tx(binding.fn.build_transaction(*args, opts))`
      where `opts` is the result of `get_transact_opts()`: when building the
      options raised, nothing is issued and the error propagates; otherwise
      exactly one transaction is appended and its receipt returned, the hash
      being its position in the log. */
  predicate Executed(log0: seq<Call>, log1: seq<Call>, r: Result<Receipt>,
                     contract: Address, fn: string, args: seq<Arg>, opts: Result<TxParams>)
  {
    match opts
    case Err(e) => r == Err(e) && log1 == log0
    case Ok(p) => r == Ok(Receipt(|log0|)) && log1 == log0 + [Call(contract, fn, args, p)]
  }

  class Chain {
    const view: ChainView
    /** Every transaction issued so far, in order. */
    var log: seq<Call>
    /** Every probe made by a write operation so far, in order. */
    var probes: seq<Probe>

    constructor (view: ChainView)
      ensures this.view == view && log == [] && probes == []
    {
      this.view := view;
      log := [];
      probes := [];
    }

    /** `execute_tx(binding.fn.build_transaction(*args, opts))`. */
    method Execute(contract: Address, fn: string, args: seq<Arg>, opts: Result<TxParams>)
      returns (r: Result<Receipt>)
      modifies this`log
      ensures Executed(old(log), log, r, contract, fn, args, opts)
    {
      match opts
      case Err(e) =>
        r := Err(e);
      case Ok(p) =>
        r := Ok(Receipt(|log|));
        log := log + [Call(contract, fn, args, p)];
    }

    /** `get_listing(listingId)` on the market contract. */
    method QueryListing(market: Address, listingId: nat) returns (l: Listing)
      modifies this`probes
      ensures probes == old(probes) + [GetListing(market, listingId)]
      ensures l == view.listing(market, listingId)
    {
      probes := probes + [GetListing(market, listingId)];
      l := view.listing(market, listingId);
    }

    /** `allowance(owner, spender)` on an ERC-20 contract. */
    method QueryAllowance(token: Address, owner: Address, spender: Address) returns (a: nat)
      modifies this`probes
      ensures probes == old(probes) + [Allowance(token, owner, spender)]
      ensures a == view.allowance(token, owner, spender)
    {
      probes := probes + [Allowance(token, owner, spender)];
      a := view.allowance(token, owner, spender);
    }

    /** ERC-165 `supportsInterface(interfaceId)`. */
    method QuerySupportsInterface(contract: Address, interfaceId: seq<bv8>) returns (b: bool)
      modifies this`probes
      ensures probes == old(probes) + [SupportsInterface(contract, interfaceId)]
      ensures b == view.supportsInterface(contract, interfaceId)
    {
      probes := probes + [SupportsInterface(contract, interfaceId)];
      b := view.supportsInterface(contract, interfaceId);
    }

    /** `isApprovedForAll(owner, operator)` through the binding of `standard`. */
    method QueryApprovedForAll(standard: TokenStandard, asset: Address, owner: Address, operator: Address)
      returns (b: bool)
      modifies this`probes
      ensures probes == old(probes) + [IsApprovedForAll(standard, asset, owner, operator)]
      ensures b == view.isApprovedForAll(asset, owner, operator)
    {
      probes := probes + [IsApprovedForAll(standard, asset, owner, operator)];
      b := view.isApprovedForAll(asset, owner, operator);
    }
  }
}

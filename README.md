# nftlabs / thirdweb Python SDK — decision logic in Dafny

The SDK is a thin client over Ethereum contract bindings. It does not
compute anything itself. What it decides is which transactions it issues,
in what order, with which arguments, and which reads and uploads it makes
first. This project models that decision logic:

- **Transaction submission in the nftlabs modules** (`Chain.Chain.Execute`).
  An operation builds its transaction with the options from
  `get_transact_opts`, and `execute_tx` issues it. The client records every
  transaction in `Chain.log`. The reads the market's write operations make
  (listing, allowance, interface and approval) go into `Chain.probes`. Other
  reads are answered by the view and are not recorded.
- **SDK facade state** (`SdkState`). This is what the seven accessors
  installed on every module read: signer address, private key, current
  account, options, client and storage.
- **The collection and pack modules, and the shared role management**:
  - the collection module's writes (`Collection`), and the records its reads
    (token, balance, approval) return;
  - role management, common to both (`Roles`). `revoke_role` renounces
    whenever a signer exists.
- **The market module** (`Market`):
  - the approval probe before `list`;
  - the ERC-20 allowance top-up before `buy`;
  - `unlist_all`;
  - the filter dispatch of `get_all`.
- **The SDK facade** (`Sdk`):
  - construction: key, default gateway, connection;
  - `set_private_key` with its `lstrip` normalisation;
  - the four lazily built module slots, where the first build wins.
- **The thirdweb contract wrapper** (`Wrapper`). `send_transaction` takes
  the nonce, deletes `from`, and sends one raw transaction. The provider
  records the requests `send_transaction` makes to it directly (nonce, gas
  price, raw send, receipt wait) and every raw transaction.
- **The thirdweb Edition contract** (`EditionContract`): minting with the
  2^256 − 1 sentinel id, minting more supply of an existing token, and the
  unimplemented batch mint.
- **The contract-type tables** (`Maps`).

Everything outside the SDK is given as functions fixed when the model is
built:
- the answers of the contracts' read-only calls (`Chain.ChainView`);
- the storage backend's URIs and documents (`Storage.Backend`);
- `Account.from_key`;
- the provider's transaction counts and gas price.

Where the code's evident intent and its behaviour differ, the model follows
the code:
- `revoke_role` renounces whenever a signer is available, whatever the
  target. The comparison with the signer's address has no effect.
- When there is no signer, the `revoke_role` fallback asks for the
  transaction options again. These raise NoSignerException again, so under
  the facade's accessors no revoke transaction is ever issued.
- `get_all`'s filter precedence is the order of its tests. The asset
  contract comes first, then the seller.

## Model

| member | source | states |
|---|---|---|
| Storage.IpfsStorage.Upload | nftlabs/modules/collection.py:84 | appends exactly the one upload to the storage's record and returns the URI the backend assigns to that position |
| Storage.IpfsStorage.Fetch | nftlabs/modules/collection.py:27-28 | fails with NotFound exactly when nothing is stored at the URI; succeeds exactly when the stored document decodes, with its decoded metadata; MalformedMetadata otherwise |
| Chain.Chain.Execute | nftlabs/modules/collection.py:64-66 | when building the options raised, the error propagates and nothing is issued; otherwise exactly one transaction with the given entry point, arguments and options is appended, and its receipt is returned |
| Chain.Chain.QueryListing | nftlabs/modules/market.py:134-138 | records the read and returns the market's listing |
| Chain.Chain.QueryAllowance | nftlabs/modules/market.py:108-109 | records the read and returns the ERC-20 allowance of owner for spender |
| Chain.Chain.QuerySupportsInterface | nftlabs/modules/market.py:41-43 | records the ERC-165 probe and returns its answer |
| Chain.Chain.QueryApprovedForAll | nftlabs/modules/market.py:45-47 | records the operator-approval read with the standard it went through, and returns its answer |
| SdkState.ToWei | nftlabs/sdk.py:132 | the wei amount is a whole multiple of 10^9 whose quotient is the gwei amount, and never smaller than it |
| SdkState.InstalledAccessorsAreSeven | nftlabs/sdk.py:141-148 | the installed accessor set has exactly seven members, one per accessor kind |
| SdkState.SdkState.constructor | nftlabs/sdk.py:35-41 | a fresh facade state has no key, no signer address and no account |
| SdkState.SdkState.SignerAddress | nftlabs/sdk.py:121-124 | raises NoSignerException iff the signer address is empty, and returns it otherwise |
| SdkState.SdkState.TransactOpts | nftlabs/sdk.py:129-133 | fails exactly when the signer address does, with NoSignerException; otherwise the sender is the signer address and the gas price is the configured gwei × 10^9 |
| SdkState.ModuleBase.constructor | nftlabs/modules/collection.py:20-23 | a module built on its own has no facade and no accessors installed |
| Roles.RoleNameInjective | nftlabs/modules/collection.py:183-189 | distinct roles have distinct names, so the four keys of the role map never collide |
| Roles.RoleMembers | nftlabs/modules/collection.py:178-181 | as many members as the contract's member count for the role hash; element i is the contract's i-th member |
| Roles.AllRoleMembers | nftlabs/modules/collection.py:183-189 | keys exactly admin, minter, transfer and pauser; each maps to that role's member list |
| Roles.GrantRole | nftlabs/modules/collection.py:154-158 | exactly one grant_role(hash, address) transaction with the facade's options, or the options' error with nothing issued |
| Roles.RevokeRole | nftlabs/modules/collection.py:160-176 | with a signer: exactly one renounce_role(hash, address), whatever the address; without one: NoSignerException and nothing issued; in no case is a revoke_role transaction appended |
| Collection.BatchListsParallel | nftlabs/modules/collection.py:116-118 | the id list and the amount list each have one entry per argument, entry k taken from argument k |
| Collection.BatchListsZip | nftlabs/modules/collection.py:116-118 | pairing the id list with the amount list position by position gives back the arguments |
| Collection.WithZeroSupply | nftlabs/modules/collection.py:77 | one creation argument per metadata item, in order, each with supply 0 |
| Collection.Supplies | nftlabs/modules/collection.py:85 | one supply per argument, in order |
| Collection.UploadsOf | nftlabs/modules/collection.py:84 | one upload per argument, in order, of that argument's JSON, naming the collection and the signer |
| Collection.UrisFrom | nftlabs/modules/collection.py:84 | n URIs, the k-th being the one the backend assigns to the k-th new upload |
| Collection.CreateNativeTokensArgsShape | nftlabs/modules/collection.py:86-88 | create_native_tokens gets the signer, then one URI and one supply per input in the inputs' order, then "" |
| Collection.First | nftlabs/modules/collection.py:74 | element 0 of a returned list; IndexError on an empty list; an earlier error propagates |
| Collection.CollectionModule.constructor | nftlabs/modules/collection.py:20-23 | binds the module to its address and client, with no accessors installed |
| Collection.CollectionModule.Get | nftlabs/modules/collection.py:25-35 | fails exactly when the token's metadata cannot be fetched, with that error; otherwise the record's id and its metadata's id are both the token id, with the token's supply and creator |
| Collection.CollectionModule.GetMany | nftlabs/modules/collection.py:91 | succeeds iff every get succeeds, giving get(ids[k]) at position k; otherwise the error of the first failing id |
| Collection.CollectionModule.GetAll | nftlabs/modules/collection.py:37-38 | succeeds iff get(i) succeeds for every i below next_token_id; then exactly next_token_id records, the i-th being get(i), with id i |
| Collection.CollectionModule.BalanceOf | nftlabs/modules/collection.py:43-44 | the contract's balance of the address for the token |
| Collection.CollectionModule.Balance | nftlabs/modules/collection.py:49-54 | NoSignerException iff there is no signer; otherwise the signer's balance_of |
| Collection.CollectionModule.IsApproved | nftlabs/modules/collection.py:56-61 | the contract's operator approval for the address |
| Collection.CollectionModule.SetApproval | nftlabs/modules/collection.py:63-66 | exactly one set_approval_for_all(operator, approved) |
| Collection.CollectionModule.Transfer | nftlabs/modules/collection.py:68-71 | without a signer nothing is issued; otherwise exactly one safe_transfer_from(signer, to, id, amount, "") |
| Collection.CollectionModule.CreatedTokens | nftlabs/modules/collection.py:89-91 | IndexError when the transaction has no creation event; otherwise get(i) for each id of its first event, in event order |
| Collection.CollectionModule.CreateAndMintBatch | nftlabs/modules/collection.py:83-91 | without a signer nothing is uploaded or issued; otherwise one upload per input in order, then exactly one create_native_tokens whose URI and supply lists match the inputs, and the result is the records of the event's token ids |
| Collection.CollectionModule.CreateAndMint | nftlabs/modules/collection.py:80-81 | the effects of a one-element batch, and its element 0 |
| Collection.CollectionModule.CreateBatch | nftlabs/modules/collection.py:76-78 | the effects and result of a batch in which every item has supply 0 |
| Collection.CollectionModule.Create | nftlabs/modules/collection.py:73-74 | element 0 of the one-element zero-supply batch |
| Collection.CollectionModule.CreateWithErc20 | nftlabs/modules/collection.py:93-97 | without a signer nothing happens; otherwise one metadata upload, then exactly one wrap_erc20(token, amount, supply, uri) with that upload's URI |
| Collection.CollectionModule.CreateWithErc721 | nftlabs/modules/collection.py:99-103 | without a signer nothing happens; otherwise one metadata upload, then exactly one wrap_erc721(token, id, uri) with that upload's URI |
| Collection.CollectionModule.Mint | nftlabs/modules/collection.py:105-106 | mint_to with the signer's address; nothing is issued without a signer |
| Collection.CollectionModule.MintTo | nftlabs/modules/collection.py:108-111 | exactly one mint(to, id, amount, "") |
| Collection.CollectionModule.MintBatch | nftlabs/modules/collection.py:113-114 | mint_batch_to with the signer's address; nothing is issued without a signer |
| Collection.CollectionModule.MintBatchTo | nftlabs/modules/collection.py:116-121 | exactly one mint_batch(to, ids, amounts) with the parallel lists |
| Collection.CollectionModule.Burn | nftlabs/modules/collection.py:123-124 | burn_from with the signer's address; nothing is issued without a signer |
| Collection.CollectionModule.BurnBatch | nftlabs/modules/collection.py:126-127 | burn_batch_from with the signer's address; nothing is issued without a signer |
| Collection.CollectionModule.BurnFrom | nftlabs/modules/collection.py:129-132 | exactly one burn(account, id, amount) |
| Collection.CollectionModule.BurnBatchFrom | nftlabs/modules/collection.py:134-137 | exactly one burn_batch(account, ids, amounts) with the parallel lists |
| Collection.CollectionModule.TransferFrom | nftlabs/modules/collection.py:139-142 | exactly one safe_transfer_from(from, to, id, amount, "") |
| Collection.CollectionModule.TransferBatchFrom | nftlabs/modules/collection.py:144-147 | exactly one safe_batch_transfer_from carrying the single id and amount of its argument |
| Collection.CollectionModule.SetRoyaltyBps | nftlabs/modules/collection.py:149-152 | exactly one set_royalty_bps(amount) |
| Collection.CollectionModule.GrantRole | nftlabs/modules/collection.py:154-158 | exactly one grant_role(hash, address) |
| Collection.CollectionModule.RevokeRole | nftlabs/modules/collection.py:160-176 | renounce_role whenever a signer exists, whatever the address; NoSignerException and nothing issued otherwise |
| Collection.CollectionModule.GetRoleMembers | nftlabs/modules/collection.py:178-181 | member-count many members, the i-th being member i |
| Collection.CollectionModule.GetAllRoleMembers | nftlabs/modules/collection.py:183-189 | exactly the four role-name keys, each with that role's members |
| Market.ListArgsInOrder | nftlabs/modules/market.py:65-74 | list carries asset contract, token id, currency, price, quantity, tokens per buyer, start and end, in that order |
| Market.StandardOf | nftlabs/modules/market.py:41-55 | the ERC-721 branch is taken iff supportsInterface(0x80ac58cd) holds, the ERC-1155 branch otherwise |
| Market.ListProbes | nftlabs/modules/market.py:41-56 | exactly two reads: the interface probe, then the market's operator approval for the signer through the detected standard |
| Market.TotalPrice | nftlabs/modules/market.py:106 | zero when the price or the quantity is zero; otherwise at least each factor |
| Market.NativeCurrencyBuy | nftlabs/modules/market.py:107 | with no currency or the zero address, no allowance is read and the only transaction is buy |
| Market.BuyCallsShape | nftlabs/modules/market.py:106-121 | increase_allowance(market, price × quantity) is issued iff the currency is an ERC-20 and the allowance is below price × quantity; it comes first, and the last transaction is always buy(listing id, quantity) |
| Market.QueryOf | nftlabs/modules/market.py:159-180 | no filter: all listings; asset contract and token id: by asset; asset contract alone: by asset contract; otherwise seller: by seller; nothing set: all listings, both directions of each case |
| Market.AssetContractBeatsSeller | nftlabs/modules/market.py:165-178 | with an asset contract set, the seller field does not change the query |
| Market.MarketModule.constructor | nftlabs/modules/market.py:25-32 | binds the module to its address and client |
| Market.MarketModule.List | nftlabs/modules/market.py:35-77 | NoSignerException before any read; otherwise the two probes; when already approved, no approval call and exactly one list transaction with the eight fields; otherwise failure with nothing issued |
| Market.MarketModule.Unlist | nftlabs/modules/market.py:82-91 | exactly one unlist(listing id, quantity) |
| Market.MarketModule.UnlistAll | nftlabs/modules/market.py:93-97 | reads the listing, then unlists exactly its current quantity |
| Market.MarketModule.Buy | nftlabs/modules/market.py:99-123 | reads the listing, then NoSignerException with nothing issued, or the allowance read and top-up decided by the buy rules, followed by buy; the result is buy's receipt |
| Market.MarketModule.SetMarketFeeBps | nftlabs/modules/market.py:125-132 | exactly one set_market_fee_bps(amount) |
| Market.MarketModule.Get | nftlabs/modules/market.py:134-138 | the market's listing for the id |
| Market.MarketModule.GetAll | nftlabs/modules/market.py:159-180 | the answer of the one query the filter selects, by the precedence of QueryOf |
| Pack.PackModule.constructor | nftlabs/modules/pack.py:17-20 | binds the module to its address and client |
| Pack.PackModule.GrantRole | nftlabs/modules/pack.py:73-77 | exactly one grant_role(hash, address) |
| Pack.PackModule.RevokeRole | nftlabs/modules/pack.py:79-95 | renounce_role whenever a signer exists, whatever the target; no revoke_role is ever appended |
| Pack.PackModule.GetRoleMembers | nftlabs/modules/pack.py:97-100 | member-count many members, the i-th being member i |
| Pack.PackModule.GetAllRoleMembers | nftlabs/modules/pack.py:102-108 | exactly the four role-name keys, each with that role's members |
| Sdk.StorageGateway | nftlabs/sdk.py:45-47 | the configured gateway when set and non-empty, the Cloudflare IPFS gateway otherwise |
| Sdk.LStrip | nftlabs/sdk.py:61 | a suffix of the input that starts outside the set, every removed character being in the set |
| Sdk.LStripPrefix | nftlabs/sdk.py:61 | characters of the set in front of a string starting outside it are exactly what is stripped |
| Sdk.NormalizeKey | nftlabs/sdk.py:61 | "0x" followed by the key stripped of all leading '0' and 'x' characters |
| Sdk.NormalizeKeyIdempotent | nftlabs/sdk.py:61 | normalising a stored key again changes nothing |
| Sdk.NormalizeKeyExamples | nftlabs/sdk.py:61 | "0x0abc" and "abc" become "0xabc", and "00ab" becomes "0xab": a character set is stripped, not a prefix |
| Sdk.CurrencyModule.constructor | nftlabs/sdk.py:71 | binds the module to its address and client |
| Sdk.NftModule.constructor | nftlabs/sdk.py:83 | binds the module to its address and client |
| Sdk.NftlabsSdk.constructor | nftlabs/sdk.py:35-38 | all four module slots start empty |
| Sdk.NftlabsSdk.Create | nftlabs/sdk.py:32-51 | fails with InvalidKey iff a non-empty key is not one, with ConnectionFailed iff the key is fine but the client is unconnected, and succeeds iff neither: fresh state with the chosen gateway, empty slots, and a key set only when one was given |
| Sdk.NftlabsSdk.SetPrivateKey | nftlabs/sdk.py:59-62 | a bad key changes nothing; otherwise the account, the normalised key and the account's address replace the current ones |
| Sdk.NftlabsSdk.InitModule | nftlabs/sdk.py:141-148 | the module reads this facade through exactly the seven accessors |
| Sdk.NftlabsSdk.GetCurrencyModule | nftlabs/sdk.py:67-74 | a built module is returned again whatever the address; otherwise a fresh module at the address with the accessors installed fills the slot; the other slots are untouched |
| Sdk.NftlabsSdk.GetNftModule | nftlabs/sdk.py:79-86 | the same memoisation for the NFT slot |
| Sdk.NftlabsSdk.GetPackModule | nftlabs/sdk.py:91-98 | the same memoisation for the pack slot |
| Sdk.NftlabsSdk.GetCollectionModule | nftlabs/sdk.py:103-110 | the same memoisation for the collection slot |
| Maps.SameKeySets | thirdweb/contracts/maps.py:10-26 | the class, bytecode and name tables all have exactly the three contract types as keys |
| Maps.ReverseTableKeys | thirdweb/contracts/maps.py:22-32 | the reverse table is keyed by exactly the three remote names, and the two tables' values are each other's keys |
| Maps.ContractsMapByOwnType | thirdweb/contracts/maps.py:10-14 | each class is filed under its own contract type |
| Maps.NameRoundTrip | thirdweb/contracts/maps.py:22-32 | looking a type's remote name up in the reverse table gives the type back |
| Maps.TypeRoundTrip | thirdweb/contracts/maps.py:22-32 | looking a remote name's type up in the name table gives the name back |
| Maps.RemoteNameInjective | thirdweb/contracts/maps.py:22-26 | no two contract types share a remote name |
| Maps.Pairings | thirdweb/contracts/maps.py:10-31 | the collection goes with ERC-721 bytecode and TokenERC721, the edition with ERC-1155, the token with ERC-20 |
| Wrapper.Provider.constructor | thirdweb/core/classes/contract_wrapper.py:90 | a provider with nothing requested and nothing sent |
| Wrapper.Provider.GetTransactionCount | thirdweb/core/classes/contract_wrapper.py:96 | records the request and returns the account's transaction count |
| Wrapper.Provider.GetGasPrice | thirdweb/core/classes/contract_wrapper.py:98 | records the request and returns the provider's gas price |
| Wrapper.Provider.SendRaw | thirdweb/core/classes/contract_wrapper.py:106 | records the request and the transaction, returning its position as hash |
| Wrapper.Provider.WaitForReceipt | thirdweb/core/classes/contract_wrapper.py:108 | records the request and returns the receipt of that hash |
| Wrapper.PreparedTx | thirdweb/core/classes/contract_wrapper.py:100-103 | no from key, the nonce set, and every other built field kept |
| Wrapper.PreparedKeepsOtherFields | thirdweb/core/classes/contract_wrapper.py:100-103 | a field other than nonce and from is present iff it was built, with its built value |
| Wrapper.ContractWrapper.constructor | thirdweb/core/classes/contract_wrapper.py:26-44 | binds the wrapper to its binding, provider and signer |
| Wrapper.ContractWrapper.GetSignerAddress | thirdweb/core/classes/contract_wrapper.py:56-68 | NoSignerException iff there is no signer; otherwise the signer's address |
| Wrapper.ContractWrapper.SendTransaction | thirdweb/core/classes/contract_wrapper.py:82-108 | no signer: error before any request; otherwise nonce then gas-price requests, the transaction built at the provider's gas price with nonce set and from removed, exactly one raw transaction sent and its receipt returned |
| Wrapper.ContractWrapper.MultiCall | thirdweb/core/classes/contract_wrapper.py:110-117 | the effect of send_transaction("multicall", [encoded]) |
| EditionContract.MaxIntIsLargest256BitValue | thirdweb/contracts/edition.py:53 | the sentinel id is 2^256 − 1 |
| EditionContract.ResolvedUri | thirdweb/contracts/edition.py:51 | a given URI is used as is; metadata gets the URI of its upload |
| EditionContract.UploadsFor | thirdweb/contracts/edition.py:51 | no upload for a URI, exactly one for metadata |
| EditionContract.Edition.constructor | thirdweb/contracts/edition.py:18-28 | wraps the ERC-1155 binding with the provider and signer |
| EditionContract.Edition.MintTo | thirdweb/contracts/edition.py:42-54 | the URI is resolved, then the effect of one send_transaction("mint_to", [to, 2^256 − 1, uri, supply]) |
| EditionContract.Edition.Mint | thirdweb/contracts/edition.py:30-40 | mint_to with the signer's address; nothing uploaded or requested without a signer |
| EditionContract.Edition.MintAdditionalSupplyTo | thirdweb/contracts/edition.py:71-86 | one send_transaction("mint_to", [to, token id, the token's stored URI, additional supply]); nothing requested when the token's metadata cannot be read |
| EditionContract.Edition.MintAdditionalSupply | thirdweb/contracts/edition.py:56-69 | mint_additional_supply_to with the signer's address; nothing requested without a signer |
| EditionContract.Edition.MintBatchTo | thirdweb/contracts/edition.py:102-114 | always NotImplementedError, nothing sent |
| EditionContract.Edition.MintBatch | thirdweb/contracts/edition.py:88-100 | never succeeds: NoSignerException iff there is no signer, NotImplementedError iff there is one |

## Left out

- Market.MarketModule.List: when the market is not yet approved, both branches call binding methods that do not exist (`is_approve_for_all`, a one-argument `is_approved_for_all`, an ERC-1155 `get_approved`) or pass the wrong arguments. The model fails with ApprovalFailed there and sends nothing. It captures only that an approved market needs no approval call.
- Market.MarketModule.List: `supports_interface` is called with the client as an extra first argument. The model probes with the interface id only.
- Market.MarketModule.Buy: `get(listing_id)` is called without `self` (a NameError as written). The model reads the module's own listing.
- Market.MarketModule.Buy: the allowance increase is sent straight through the ERC-20 binding, not through `execute_tx`. The model appends it to the same transaction record.
- Market.MarketModule.GetAll: the filtered branches read `filer` instead of `search_filter` (a NameError as written). The model reads the filter it was given.
- `get_all_listings` and `get_listing` only forward to `get_all` and `get`. They are not separate members.
- `set_module_metadata` lacks `self` and cannot be called on an instance. It is not modelled.
- `total_listings` discards the value it reads and returns nothing. It is not modelled.
- The `get_new_listing_event` and `get_new_sale_event` lookups after `list` and `buy` are discarded by the source. They are not modelled.
- Methods whose source returns nothing after `execute_tx` return the receipt in the model. Nothing reads it.
- Collection.CollectionModule.MintBatchTo: the batch lists read `a.id` while the single-token operations read `a.token_id`. Both are modelled as the one `tokenId` field.
- Collection.CollectionModule.BurnBatchFrom: the same `i.id` and `token_id` discrepancy.
- Collection.CollectionModule.SetApproval: the default `approved=True` is not modelled. Every caller passes `approved` explicitly.
- Collection.CollectionModule.CreateAndMintBatch: the event lookup and the per-token reads after the transaction are not recorded in `Chain.probes`. They are answered by the view.
- EditionContract.Edition.MintAdditionalSupplyTo: the `uri(token_id)` read goes through the contract binding and is not recorded in the provider's requests. Neither are any requests `build_transaction` makes on its own.
- The ChainView is fixed. A transaction's effect on contract state (balances, listings, role members, allowances) is not modelled, so a read after a write sees the state from before. This includes the events a transaction emits, which the model takes from the fixed view.
- Role hashes (`Role.get_hash`) are opaque. Each role has its own hash value, and the hash strings themselves are not part of this model.
- The deployment bytecode strings and the string values of the contract types are opaque. The three contract types are taken to be distinct.
- `Account.from_key`, signing and every cryptographic step are represented only by their results. The given function `fromKey` supplies the account of a key, and a signed transaction records the signer and the transaction.
- `isConnected()` is a flag of the given ChainView. The HTTP provider built from the URL is the given client.
- The constructor's `print` is not modelled.
- `signer_address` is never assigned when no key is given, so reading it raises AttributeError. The model treats the missing value as "".
- SdkState.SdkState.constructor: `__private_key` is likewise never assigned without a key, so `get_private_key` would raise AttributeError. The model sets it to "".
- `max_gas_price_in_gwei` is an integer. Fractional gwei amounts are not modelled.
- Other fields of SdkOptions are not modelled. The wrapper's options are not modelled either: `send_transaction` never reads them.
- The pack module's own operations (`get`, `open`, `get_all`, `create`, etc.) have empty bodies and are not modelled.
- The currency and NFT modules are not part of this model. Only their slots in the facade are.
- `upload_or_extract_uri` and `_get_token_metadata` are not part of this model:
  - a string is taken to be used as the URI, and anything else is uploaded as metadata with no contract or uploader;
  - a token's metadata is taken to be fetched from the URI its contract reports, and that URI is the one reused.
- `getattr(abi, fn)` for an entry point the binding lacks is not modelled. Every function name used exists.
- `get_chain_id` and `get_contract_interface` only return provider data. They are not modelled.
- Waiting for a receipt has no timeout in the source. The model returns the receipt at once.

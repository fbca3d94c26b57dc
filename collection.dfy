/** The collection module (ERC-1155 style collection of tokens): reads of
    token records, the create/mint/burn/transfer writes and their argument
    lists, and role management. */
module Collection {
  import opened Common
  import opened Chain
  import opened Storage
  import opened SdkState
  import Roles

  /** A token of the collection: its metadata, supply, creator and id. */
  datatype CollectionMetadata = CollectionMetadata(metadata: NftMetadata, supply: nat, creator: Address, id: nat)

  /** MintCollectionArg: a token id and an amount of it. */
  datatype MintCollectionArg = MintCollectionArg(tokenId: nat, amount: nat)

  /** `[a.id for a in args]`. */
  function BatchIds(args: seq<MintCollectionArg>): (ids: seq<nat>)
  {
    if args == [] then [] else [args[0].tokenId] + BatchIds(args[1..])
  }

  /** `[a.amount for a in args]`. */
  function BatchAmounts(args: seq<MintCollectionArg>): (amounts: seq<nat>)
  {
    if args == [] then [] else [args[0].amount] + BatchAmounts(args[1..])
  }

  /** Pairs the two lists back up, position by position. */
  function Zip(ids: seq<nat>, amounts: seq<nat>): (args: seq<MintCollectionArg>)
    requires |ids| == |amounts|
  {
    if ids == [] then [] else [MintCollectionArg(ids[0], amounts[0])] + Zip(ids[1..], amounts[1..])
  }

  /** The batch lists are parallel: both have one entry per argument, in the
      arguments' order. */
  lemma {:induction false} BatchListsParallel(args: seq<MintCollectionArg>)
    ensures |BatchIds(args)| == |args| && |BatchAmounts(args)| == |args|
    ensures forall k :: 0 <= k < |args| ==> BatchIds(args)[k] == args[k].tokenId && BatchAmounts(args)[k] == args[k].amount
  {
    if args != [] {
      BatchListsParallel(args[1..]);
    }
  }

  /** Nothing is lost in splitting the arguments into two lists. */
  lemma {:induction false} BatchListsZip(args: seq<MintCollectionArg>)
    ensures |BatchIds(args)| == |BatchAmounts(args)|
    ensures Zip(BatchIds(args), BatchAmounts(args)) == args
  {
    BatchListsParallel(args);
    if args != [] {
      BatchListsZip(args[1..]);
    }
  }

  /** `[CreateCollectionArg(metadata=m, supply=0) for m in metas]`. */
  function WithZeroSupply(metas: seq<Metadata>): (args: seq<CreateCollectionArg>)
    ensures |args| == |metas|
    ensures forall k :: 0 <= k < |metas| ==> args[k].metadata == metas[k] && args[k].supply == 0
  {
    seq(|metas|, k requires 0 <= k < |metas| => CreateCollectionArg(metas[k], 0))
  }

  /** `[a.supply for a in args]`. */
  function Supplies(args: seq<CreateCollectionArg>): (supplies: seq<nat>)
    ensures |supplies| == |args|
    ensures forall k :: 0 <= k < |args| ==> supplies[k] == args[k].supply
  {
    seq(|args|, k requires 0 <= k < |args| => args[k].supply)
  }

  /** The uploads `create_and_mint_batch` makes: the JSON of each argument,
      in order, naming the collection and the signer. */
  function UploadsOf(args: seq<CreateCollectionArg>, contract: Address, signer: Address): (ups: seq<UploadEntry>)
    ensures |ups| == |args|
    ensures forall k :: 0 <= k < |args| ==> ups[k] == UploadEntry(CreateArgJson(args[k]), Some(contract), Some(signer))
  {
    seq(|args|, k requires 0 <= k < |args| => UploadEntry(CreateArgJson(args[k]), Some(contract), Some(signer)))
  }

  /** The URIs the backend assigns to `n` uploads made after `start` earlier ones. */
  function UrisFrom(backend: Backend, start: nat, n: nat): (uris: seq<string>)
    ensures |uris| == n
    ensures forall k :: 0 <= k < n ==> uris[k] == backend.uriOfUpload(start + k)
  {
    seq(n, k requires 0 <= k < n => backend.uriOfUpload(start + k))
  }

  /** The arguments of `create_native_tokens`. */
  function CreateNativeTokensArgs(signer: Address, uris: seq<string>, args: seq<CreateCollectionArg>): (txArgs: seq<Arg>)
  {
    [AStr(signer), StrList(uris), IntList(Supplies(args)), AStr("")]
  }

  /** `create_native_tokens` carries one URI and one supply per input, in
      the inputs' order. */
  lemma CreateNativeTokensArgsShape(signer: Address, backend: Backend, start: nat, args: seq<CreateCollectionArg>)
    ensures var a := CreateNativeTokensArgs(signer, UrisFrom(backend, start, |args|), args);
      && |a| == 4 && a[0] == AStr(signer) && a[3] == AStr("")
      && |a[1].items| == |args| && |a[2].items| == |args|
      && forall k :: 0 <= k < |args| ==>
           a[1].items[k] == AStr(backend.uriOfUpload(start + k)) && a[2].items[k] == AInt(args[k].supply)
  {
  }

  function MintArgs(to: Address, arg: MintCollectionArg): (txArgs: seq<Arg>)
  {
    [AStr(to), AInt(arg.tokenId), AInt(arg.amount), AStr("")]
  }

  function MintBatchArgs(to: Address, args: seq<MintCollectionArg>): (txArgs: seq<Arg>)
  {
    [AStr(to), IntList(BatchIds(args)), IntList(BatchAmounts(args))]
  }

  function BurnArgs(account: Address, arg: MintCollectionArg): (txArgs: seq<Arg>)
  {
    [AStr(account), AInt(arg.tokenId), AInt(arg.amount)]
  }

  function TransferArgs(from: Address, to: Address, tokenId: nat, amount: nat): (txArgs: seq<Arg>)
  {
    [AStr(from), AStr(to), AInt(tokenId), AInt(amount), AStr("")]
  }

  /** `xs[0]` of a list that a call returned. */
  function First<T>(xs: Result<seq<T>>): (r: Result<T>)
    ensures xs.Err? ==> r == Err(xs.error)
    ensures xs.Ok? && xs.value == [] ==> r == Err(IndexOutOfRange)
    ensures xs.Ok? && xs.value != [] ==> r == Ok(xs.value[0])
  {
    match xs
    case Err(e) => Err(e)
    case Ok(s) => if s == [] then Err(IndexOutOfRange) else Ok(s[0])
  }

  class CollectionModule {
    const base: ModuleBase

    constructor (address: Address, client: Chain)
      ensures fresh(base) && base.address == address && base.client == client
      ensures base.state == null && base.accessors == {}
    {
      base := new ModuleBase(address, client);
    }

    /** `get(token_id)`: the metadata behind the token's URI, with its `id`
        set to the token id, and the token's supply and creator. */
    function Get(tokenId: nat): (r: Result<CollectionMetadata>)
      requires base.state != null
      reads base
      ensures r.Ok? ==> r.value.id == tokenId && r.value.metadata.id == tokenId
      ensures var uri := base.client.view.uri(base.address, tokenId);
        var fetched := base.state.storage.Fetch(uri);
        && (r.Ok? <==> fetched.Ok?)
        && (r.Err? ==> r.error == fetched.error)
        && (r.Ok? ==> r.value.metadata == fetched.value.(id := tokenId)
                      && r.value.supply == base.client.view.totalSupply(base.address, tokenId)
                      && r.value.creator == base.client.view.creator(base.address, tokenId))
    {
      var view := base.client.view;
      match base.state.storage.Fetch(view.uri(base.address, tokenId))
      case Err(e) => Err(e)
      case Ok(meta) =>
        Ok(CollectionMetadata(
          meta.(id := tokenId),
          view.totalSupply(base.address, tokenId),
          view.creator(base.address, tokenId),
          tokenId))
    }

    /** `[self.get(i) for i in ids]`: fails with the error of the first
        token that cannot be read; otherwise one record per id, in order. */
    function GetMany(ids: seq<nat>): (r: Result<seq<CollectionMetadata>>)
      requires base.state != null
      reads base
      decreases |ids|
      ensures r.Ok? <==> forall k :: 0 <= k < |ids| ==> Get(ids[k]).Ok?
      ensures r.Ok? ==> |r.value| == |ids| && forall k :: 0 <= k < |ids| ==> r.value[k] == Get(ids[k]).value
      ensures r.Err? ==> exists k :: 0 <= k < |ids| && Get(ids[k]).Err? && r.error == Get(ids[k]).error
                                    && forall j :: 0 <= j < k ==> Get(ids[j]).Ok?
    {
      if ids == [] then Ok([])
      else match Get(ids[0])
        case Err(e) =>
          assert Get(ids[0]).Err?;
          Err(e)
        case Ok(head) =>
          match GetMany(ids[1..])
          case Err(e) =>
            assert forall k :: 1 <= k < |ids| ==> ids[k] == ids[1..][k - 1];
            Err(e)
          case Ok(tail) =>
            assert forall k :: 1 <= k < |ids| ==> ids[k] == ids[1..][k - 1];
            Ok([head] + tail)
    }

    /** `get_all()`: one record for each token id from 0 up to the
        collection's next token id, in ascending order. */
    function GetAll(): (r: Result<seq<CollectionMetadata>>)
      requires base.state != null
      reads base
      ensures var n := base.client.view.nextTokenId(base.address);
        && (r.Ok? <==> forall i :: 0 <= i < n ==> Get(i).Ok?)
        && (r.Ok? ==> |r.value| == n && forall i :: 0 <= i < n ==> r.value[i] == Get(i).value && r.value[i].id == i)
    {
      var n := base.client.view.nextTokenId(base.address);
      var ids: seq<nat> := seq(n, i requires 0 <= i => i);
      RangeGets(ids, n);
      GetMany(ids)
    }

    lemma RangeGets(ids: seq<nat>, n: nat)
      requires base.state != null
      requires |ids| == n && forall i :: 0 <= i < n ==> ids[i] == i
      ensures (forall i :: 0 <= i < n ==> Get(i).Ok?) <==> (forall k :: 0 <= k < |ids| ==> Get(ids[k]).Ok?)
    {
      if forall k :: 0 <= k < |ids| ==> Get(ids[k]).Ok? {
        forall i | 0 <= i < n
          ensures Get(i).Ok?
        {
          assert Get(ids[i]).Ok?;
        }
      }
    }

    /** `balance_of(address, token_id)`. */
    function BalanceOf(account: Address, tokenId: nat): (b: nat)
      ensures b == base.client.view.balanceOf(base.address, account, tokenId)
    {
      base.client.view.balanceOf(base.address, account, tokenId)
    }

    /** `balance(token_id)`: the signer's balance, NoSignerException without one. */
    function Balance(tokenId: nat): (r: Result<nat>)
      requires base.state != null
      reads base, base.state
      ensures r.Err? <==> base.state.signerAddress == ""
      ensures r.Err? ==> r.error == NoSigner
      ensures r.Ok? ==> r.value == BalanceOf(base.state.signerAddress, tokenId)
    {
      match base.state.SignerAddress()
      case Err(e) => Err(e)
      case Ok(a) => Ok(BalanceOf(a, tokenId))
    }

    /** `is_approved(address, operator)`. */
    function IsApproved(account: Address, operator: Address): (b: bool)
      ensures b == base.client.view.isApprovedForAll(base.address, account, operator)
    {
      base.client.view.isApprovedForAll(base.address, account, operator)
    }

    /** `set_approval(operator, approved)`. */
    method SetApproval(operator: Address, approved: bool) returns (r: Result<Receipt>)
      requires base.state != null
      modifies base.client`log
      ensures Executed(old(base.client.log), base.client.log, r, base.address, "set_approval_for_all",
                       [AStr(operator), ABool(approved)], base.state.TransactOpts())
    {
      r := base.client.Execute(base.address, "set_approval_for_all", [AStr(operator), ABool(approved)],
                               base.state.TransactOpts());
    }

    /** `transfer(to_address, token_id, amount)`: from the signer. */
    method Transfer(to: Address, tokenId: nat, amount: nat) returns (r: Result<Receipt>)
      requires base.state != null
      modifies base.client`log
      ensures base.state.signerAddress == "" ==> r == Err(NoSigner) && base.client.log == old(base.client.log)
      ensures base.state.signerAddress != "" ==>
        Executed(old(base.client.log), base.client.log, r, base.address, "safe_transfer_from",
                 TransferArgs(base.state.signerAddress, to, tokenId, amount), base.state.TransactOpts())
    {
      var signer := base.state.SignerAddress();
      if signer.Err? {
        r := Err(signer.error);
        return;
      }
      r := base.client.Execute(base.address, "safe_transfer_from", TransferArgs(signer.value, to, tokenId, amount),
                               base.state.TransactOpts());
    }

    /** The effect of `create_and_mint_batch(args)` on the uploads and the
        transaction log, from the uploads `uploads0` and log `log0` before it:
        nothing without a signer; otherwise one upload per argument and then
        one `create_native_tokens` transaction carrying the URIs and supplies. */
    ghost predicate BatchCreated(args: seq<CreateCollectionArg>, uploads0: seq<UploadEntry>, log0: seq<Call>)
      requires base.state != null
      reads base, base.state, base.state.storage, base.client
    {
      var s := base.state;
      if s.signerAddress == "" then
        s.storage.uploads == uploads0 && base.client.log == log0
      else
        && s.storage.uploads == uploads0 + UploadsOf(args, base.address, s.signerAddress)
        && base.client.log == log0 + [Call(base.address, "create_native_tokens",
             CreateNativeTokensArgs(s.signerAddress, UrisFrom(s.storage.backend, |uploads0|, |args|), args),
             s.TransactOpts().value)]
    }

    /** What `create_and_mint_batch` returns when its transaction is the
        `txHash`-th: the records of the token ids named by the first
        token-creation event of that transaction, in event order. */
    function CreatedTokens(txHash: nat): (r: Result<seq<CollectionMetadata>>)
      requires base.state != null
      reads base
      ensures var events := base.client.view.nativeTokensEvents(txHash);
        && (events == [] ==> r == Err(IndexOutOfRange))
        && (events != [] ==> r == GetMany(events[0]))
    {
      var events := base.client.view.nativeTokensEvents(txHash);
      if events == [] then Err(IndexOutOfRange) else GetMany(events[0])
    }

    function BatchResult(args: seq<CreateCollectionArg>, log0: seq<Call>): (r: Result<seq<CollectionMetadata>>)
      requires base.state != null
      reads base, base.state
    {
      if base.state.signerAddress == "" then Err(NoSigner) else CreatedTokens(|log0|)
    }

    /** `create_and_mint_batch(meta_with_supply)`. */
    method CreateAndMintBatch(args: seq<CreateCollectionArg>) returns (r: Result<seq<CollectionMetadata>>)
      requires base.state != null
      modifies base.state.storage`uploads, base.client`log
      ensures BatchCreated(args, old(base.state.storage.uploads), old(base.client.log))
      ensures r == BatchResult(args, old(base.client.log))
    {
      var s := base.state;
      var storage := s.storage;
      var uris: seq<string> := [];
      var i := 0;
      while i < |args|
        invariant 0 <= i <= |args|
        invariant i > 0 ==> s.signerAddress != ""
        invariant storage.uploads == old(storage.uploads) + UploadsOf(args[..i], base.address, s.signerAddress)
        invariant uris == UrisFrom(storage.backend, |old(storage.uploads)|, i)
        invariant base.client.log == old(base.client.log)
      {
        var signer := s.SignerAddress();
        if signer.Err? {
          r := Err(signer.error);
          return;
        }
        var uri := storage.Upload(CreateArgJson(args[i]), Some(base.address), Some(signer.value));
        assert args[..i + 1] == args[..i] + [args[i]];
        uris := uris + [uri];
        i := i + 1;
      }
      assert args[..i] == args;
      var signer := s.SignerAddress();
      if signer.Err? {
        r := Err(signer.error);
        return;
      }
      var receipt := base.client.Execute(base.address, "create_native_tokens",
                                         CreateNativeTokensArgs(signer.value, uris, args), s.TransactOpts());
      var events := base.client.view.nativeTokensEvents(receipt.value.transactionHash);
      if events == [] {
        r := Err(IndexOutOfRange);
        return;
      }
      r := GetMany(events[0]);
    }

    /** `create_and_mint(meta_with_supply)`: element 0 of a one-element batch. */
    method CreateAndMint(arg: CreateCollectionArg) returns (r: Result<CollectionMetadata>)
      requires base.state != null
      modifies base.state.storage`uploads, base.client`log
      ensures BatchCreated([arg], old(base.state.storage.uploads), old(base.client.log))
      ensures r == First(BatchResult([arg], old(base.client.log)))
    {
      var rs := CreateAndMintBatch([arg]);
      r := First(rs);
    }

    /** `create_batch(metas)`: every item with supply 0. */
    method CreateBatch(metas: seq<Metadata>) returns (r: Result<seq<CollectionMetadata>>)
      requires base.state != null
      modifies base.state.storage`uploads, base.client`log
      ensures BatchCreated(WithZeroSupply(metas), old(base.state.storage.uploads), old(base.client.log))
      ensures r == BatchResult(WithZeroSupply(metas), old(base.client.log))
    {
      r := CreateAndMintBatch(WithZeroSupply(metas));
    }

    /** `create(metadata)`: element 0 of `create_batch([metadata])`. */
    method Create(metadata: Metadata) returns (r: Result<CollectionMetadata>)
      requires base.state != null
      modifies base.state.storage`uploads, base.client`log
      ensures BatchCreated([CreateCollectionArg(metadata, 0)], old(base.state.storage.uploads), old(base.client.log))
      ensures r == First(BatchResult([CreateCollectionArg(metadata, 0)], old(base.client.log)))
    {
      var rs := CreateBatch([metadata]);
      assert WithZeroSupply([metadata]) == [CreateCollectionArg(metadata, 0)];
      r := First(rs);
    }

    /** `create_with_erc20(token_contract, token_amount, arg)`: uploads the
        argument's metadata, then one `wrap_erc20` transaction. */
    method CreateWithErc20(tokenContract: Address, tokenAmount: nat, arg: CreateCollectionArg) returns (r: Result<Receipt>)
      requires base.state != null
      modifies base.state.storage`uploads, base.client`log
      ensures base.state.signerAddress == "" ==>
        r == Err(NoSigner) && base.client.log == old(base.client.log)
        && base.state.storage.uploads == old(base.state.storage.uploads)
      ensures base.state.signerAddress != "" ==>
        && base.state.storage.uploads == old(base.state.storage.uploads)
             + [UploadEntry(MetadataJson(arg.metadata), Some(base.address), Some(base.state.signerAddress))]
        && Executed(old(base.client.log), base.client.log, r, base.address, "wrap_erc20",
             [AStr(tokenContract), AInt(tokenAmount), AInt(arg.supply),
              AStr(base.state.storage.backend.uriOfUpload(|old(base.state.storage.uploads)|))],
             base.state.TransactOpts())
    {
      var signer := base.state.SignerAddress();
      if signer.Err? {
        r := Err(signer.error);
        return;
      }
      var uri := base.state.storage.Upload(MetadataJson(arg.metadata), Some(base.address), Some(signer.value));
      r := base.client.Execute(base.address, "wrap_erc20",
                               [AStr(tokenContract), AInt(tokenAmount), AInt(arg.supply), AStr(uri)],
                               base.state.TransactOpts());
    }

    /** `create_with_erc721(token_contract, token_id, metadata)`: uploads
        the metadata, then one `wrap_erc721` transaction. */
    method CreateWithErc721(tokenContract: Address, tokenId: nat, arg: CreateCollectionArg) returns (r: Result<Receipt>)
      requires base.state != null
      modifies base.state.storage`uploads, base.client`log
      ensures base.state.signerAddress == "" ==>
        r == Err(NoSigner) && base.client.log == old(base.client.log)
        && base.state.storage.uploads == old(base.state.storage.uploads)
      ensures base.state.signerAddress != "" ==>
        && base.state.storage.uploads == old(base.state.storage.uploads)
             + [UploadEntry(MetadataJson(arg.metadata), Some(base.address), Some(base.state.signerAddress))]
        && Executed(old(base.client.log), base.client.log, r, base.address, "wrap_erc721",
             [AStr(tokenContract), AInt(tokenId),
              AStr(base.state.storage.backend.uriOfUpload(|old(base.state.storage.uploads)|))],
             base.state.TransactOpts())
    {
      var signer := base.state.SignerAddress();
      if signer.Err? {
        r := Err(signer.error);
        return;
      }
      var uri := base.state.storage.Upload(MetadataJson(arg.metadata), Some(base.address), Some(signer.value));
      r := base.client.Execute(base.address, "wrap_erc721", [AStr(tokenContract), AInt(tokenId), AStr(uri)],
                               base.state.TransactOpts());
    }

    /** `mint(args)`: `mint_to` with the signer's address. */
    method Mint(arg: MintCollectionArg) returns (r: Result<Receipt>)
      requires base.state != null
      modifies base.client`log
      ensures base.state.signerAddress == "" ==> r == Err(NoSigner) && base.client.log == old(base.client.log)
      ensures base.state.signerAddress != "" ==>
        Executed(old(base.client.log), base.client.log, r, base.address, "mint",
                 MintArgs(base.state.signerAddress, arg), base.state.TransactOpts())
    {
      var signer := base.state.SignerAddress();
      if signer.Err? {
        r := Err(signer.error);
        return;
      }
      r := MintTo(signer.value, arg);
    }

    /** `mint_to(to_address, arg)`: one `mint(to, id, amount, "")` transaction. */
    method MintTo(to: Address, arg: MintCollectionArg) returns (r: Result<Receipt>)
      requires base.state != null
      modifies base.client`log
      ensures Executed(old(base.client.log), base.client.log, r, base.address, "mint", MintArgs(to, arg),
                       base.state.TransactOpts())
    {
      r := base.client.Execute(base.address, "mint", MintArgs(to, arg), base.state.TransactOpts());
    }

    /** `mint_batch(args)`: `mint_batch_to` with the signer's address. */
    method MintBatch(args: seq<MintCollectionArg>) returns (r: Result<Receipt>)
      requires base.state != null
      modifies base.client`log
      ensures base.state.signerAddress == "" ==> r == Err(NoSigner) && base.client.log == old(base.client.log)
      ensures base.state.signerAddress != "" ==>
        Executed(old(base.client.log), base.client.log, r, base.address, "mint_batch",
                 MintBatchArgs(base.state.signerAddress, args), base.state.TransactOpts())
    {
      var signer := base.state.SignerAddress();
      if signer.Err? {
        r := Err(signer.error);
        return;
      }
      r := MintBatchTo(signer.value, args);
    }

    /** `mint_batch_to(to_address, args)`: one `mint_batch` transaction
        with the parallel id and amount lists. */
    method MintBatchTo(to: Address, args: seq<MintCollectionArg>) returns (r: Result<Receipt>)
      requires base.state != null
      modifies base.client`log
      ensures Executed(old(base.client.log), base.client.log, r, base.address, "mint_batch",
                       MintBatchArgs(to, args), base.state.TransactOpts())
    {
      r := base.client.Execute(base.address, "mint_batch", MintBatchArgs(to, args), base.state.TransactOpts());
    }

    /** `burn(args)`: `burn_from` with the signer's address. */
    method Burn(arg: MintCollectionArg) returns (r: Result<Receipt>)
      requires base.state != null
      modifies base.client`log
      ensures base.state.signerAddress == "" ==> r == Err(NoSigner) && base.client.log == old(base.client.log)
      ensures base.state.signerAddress != "" ==>
        Executed(old(base.client.log), base.client.log, r, base.address, "burn",
                 BurnArgs(base.state.signerAddress, arg), base.state.TransactOpts())
    {
      var signer := base.state.SignerAddress();
      if signer.Err? {
        r := Err(signer.error);
        return;
      }
      r := BurnFrom(signer.value, arg);
    }

    /** `burn_batch(args)`: `burn_batch_from` with the signer's address. */
    method BurnBatch(args: seq<MintCollectionArg>) returns (r: Result<Receipt>)
      requires base.state != null
      modifies base.client`log
      ensures base.state.signerAddress == "" ==> r == Err(NoSigner) && base.client.log == old(base.client.log)
      ensures base.state.signerAddress != "" ==>
        Executed(old(base.client.log), base.client.log, r, base.address, "burn_batch",
                 MintBatchArgs(base.state.signerAddress, args), base.state.TransactOpts())
    {
      var signer := base.state.SignerAddress();
      if signer.Err? {
        r := Err(signer.error);
        return;
      }
      r := BurnBatchFrom(signer.value, args);
    }

    /** `burn_from(account, args)`: one `burn(account, id, amount)` transaction. */
    method BurnFrom(account: Address, arg: MintCollectionArg) returns (r: Result<Receipt>)
      requires base.state != null
      modifies base.client`log
      ensures Executed(old(base.client.log), base.client.log, r, base.address, "burn", BurnArgs(account, arg),
                       base.state.TransactOpts())
    {
      r := base.client.Execute(base.address, "burn", BurnArgs(account, arg), base.state.TransactOpts());
    }

    /** `burn_batch_from(account, args)`: one `burn_batch` transaction with
        the parallel id and amount lists. */
    method BurnBatchFrom(account: Address, args: seq<MintCollectionArg>) returns (r: Result<Receipt>)
      requires base.state != null
      modifies base.client`log
      ensures Executed(old(base.client.log), base.client.log, r, base.address, "burn_batch",
                       MintBatchArgs(account, args), base.state.TransactOpts())
    {
      r := base.client.Execute(base.address, "burn_batch", MintBatchArgs(account, args), base.state.TransactOpts());
    }

    /** `transfer_from(from_address, to_address, args)`. */
    method TransferFrom(from: Address, to: Address, arg: MintCollectionArg) returns (r: Result<Receipt>)
      requires base.state != null
      modifies base.client`log
      ensures Executed(old(base.client.log), base.client.log, r, base.address, "safe_transfer_from",
                       TransferArgs(from, to, arg.tokenId, arg.amount), base.state.TransactOpts())
    {
      r := base.client.Execute(base.address, "safe_transfer_from", TransferArgs(from, to, arg.tokenId, arg.amount),
                               base.state.TransactOpts());
    }

    /** `transfer_batch_from(from_address, to_address, args)`: passes the
        single id and amount of `args`, not lists. */
    method TransferBatchFrom(from: Address, to: Address, arg: MintCollectionArg) returns (r: Result<Receipt>)
      requires base.state != null
      modifies base.client`log
      ensures Executed(old(base.client.log), base.client.log, r, base.address, "safe_batch_transfer_from",
                       TransferArgs(from, to, arg.tokenId, arg.amount), base.state.TransactOpts())
    {
      r := base.client.Execute(base.address, "safe_batch_transfer_from",
                               TransferArgs(from, to, arg.tokenId, arg.amount), base.state.TransactOpts());
    }

    /** `set_royalty_bps(amount)`. */
    method SetRoyaltyBps(amount: nat) returns (r: Result<Receipt>)
      requires base.state != null
      modifies base.client`log
      ensures Executed(old(base.client.log), base.client.log, r, base.address, "set_royalty_bps", [AInt(amount)],
                       base.state.TransactOpts())
    {
      r := base.client.Execute(base.address, "set_royalty_bps", [AInt(amount)], base.state.TransactOpts());
    }

    /** `grant_role(role, address)`. */
    method GrantRole(role: Role, account: Address) returns (r: Result<Receipt>)
      requires base.state != null
      modifies base.client`log
      ensures Executed(old(base.client.log), base.client.log, r, base.address, "grant_role",
                       Roles.RoleArgs(role, account), base.state.TransactOpts())
    {
      r := Roles.GrantRole(base, role, account);
    }

    /** `revoke_role(role, address)`: renounces whenever a signer exists. */
    method RevokeRole(role: Role, account: Address) returns (r: Result<Receipt>)
      requires base.state != null
      modifies base.client`log
      ensures base.state.signerAddress != "" ==>
        Executed(old(base.client.log), base.client.log, r, base.address, "renounce_role",
                 Roles.RoleArgs(role, account), base.state.TransactOpts())
      ensures base.state.signerAddress == "" ==> r == Err(NoSigner) && base.client.log == old(base.client.log)
    {
      r := Roles.RevokeRole(base, role, account);
    }

    /** `get_role_members(role)`. */
    function GetRoleMembers(role: Role): (members: seq<Address>)
      ensures |members| == base.client.view.roleMemberCount(base.address, RoleHashOf(role))
      ensures forall i :: 0 <= i < |members| ==>
        members[i] == base.client.view.roleMember(base.address, RoleHashOf(role), i)
    {
      Roles.RoleMembers(base.client.view, base.address, role)
    }

    /** `get_all_role_members()`. */
    function GetAllRoleMembers(): (m: map<string, seq<Address>>)
      ensures m.Keys == {"admin", "minter", "transfer", "pauser"}
      ensures forall r: Role :: Roles.RoleName(r) in m && m[Roles.RoleName(r)] == GetRoleMembers(r)
    {
      Roles.AllRoleMembers(base.client.view, base.address)
    }
  }
}

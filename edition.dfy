/** The thirdweb Edition contract (ERC-1155): minting new tokens, minting
    more supply of an existing token, and the batch mint that is not
    implemented. Every write goes through the contract wrapper. */
module EditionContract {
  import opened Common
  import opened Storage
  import opened Wrapper

  /** `int(MAX_INT, 16)`: 2^256 - 1, the token id `mint_to` passes so that
      the contract assigns a new one. */
  const MaxInt: nat := 0xffff_ffff_ffff_ffff_ffff_ffff_ffff_ffff_ffff_ffff_ffff_ffff_ffff_ffff_ffff_ffff

  lemma MaxIntIsLargest256BitValue()
    ensures MaxInt + 1 == 0x1_0000_0000_0000_0000_0000_0000_0000_0000_0000_0000_0000_0000_0000_0000_0000_0000
  {
  }

  /** The metadata of a new token: a URI to use as it is, or metadata to
      upload first. */
  datatype MetadataInput = UriInput(uri: string) | MetadataValue(metadata: Metadata)

  /** EditionMetadataInput: the new token's metadata and initial supply. */
  datatype EditionMetadataInput = EditionMetadataInput(metadata: MetadataInput, supply: nat)

  /** The arguments of the `mint_to` entry point. */
  function MintToArgs(to: Address, tokenId: nat, uri: string, supply: nat): (txArgs: seq<Arg>)
  {
    [AStr(to), AInt(tokenId), AStr(uri), AInt(supply)]
  }

  /** The URI `upload_or_extract_uri` yields after `uploads0` earlier
      uploads: the given URI, or the one the backend assigns to the upload. */
  function ResolvedUri(input: MetadataInput, backend: Backend, uploads0: seq<UploadEntry>): (uri: string)
    ensures input.UriInput? ==> uri == input.uri
    ensures input.MetadataValue? ==> uri == backend.uriOfUpload(|uploads0|)
  {
    match input
    case UriInput(u) => u
    case MetadataValue(_) => backend.uriOfUpload(|uploads0|)
  }

  /** The uploads `upload_or_extract_uri` makes: none for a URI, one for
      metadata, without contract or uploader address. */
  function UploadsFor(input: MetadataInput): (ups: seq<UploadEntry>)
    ensures input.UriInput? <==> ups == []
    ensures input.MetadataValue? ==> ups == [UploadEntry(MetadataJson(input.metadata), None, None)]
  {
    match input
    case UriInput(_) => []
    case MetadataValue(m) => [UploadEntry(MetadataJson(m), None, None)]
  }

  class Edition {
    const wrapper: ContractWrapper
    const storage: IpfsStorage

    /** `Edition(provider, address, storage, signer)`, with the ERC-1155
        binding at `address` given as `abi`. */
    constructor (provider: Provider, abi: ContractAbi, storage: IpfsStorage, signer: Option<Account>)
      ensures fresh(wrapper) && wrapper.abi == abi && wrapper.provider == provider && wrapper.signer == signer
      ensures this.storage == storage
    {
      wrapper := new ContractWrapper(abi, provider, signer);
      this.storage := storage;
    }

    /** `mint_to(to, metadata_with_supply)`: resolves the URI, then one
        `mint_to(to, 2^256 - 1, uri, supply)` transaction. */
    method MintTo(to: Address, input: EditionMetadataInput) returns (r: Result<Receipt>)
      modifies wrapper.provider, storage`uploads
      ensures storage.uploads == old(storage.uploads) + UploadsFor(input.metadata)
      ensures wrapper.Transacted(old(wrapper.provider.requests), old(wrapper.provider.sent), "mint_to",
        MintToArgs(to, MaxInt, ResolvedUri(input.metadata, storage.backend, old(storage.uploads)), input.supply), r)
    {
      var uri: string;
      match input.metadata {
        case UriInput(u) =>
          uri := u;
        case MetadataValue(m) =>
          uri := storage.Upload(MetadataJson(m), None, None);
      }
      r := wrapper.SendTransaction("mint_to", MintToArgs(to, MaxInt, uri, input.supply));
    }

    /** `mint(metadata_with_supply)`: `mint_to` the signer's address;
        without a signer nothing is uploaded or requested. */
    method Mint(input: EditionMetadataInput) returns (r: Result<Receipt>)
      modifies wrapper.provider, storage`uploads
      ensures wrapper.signer.None? ==>
        && r == Err(NoSigner) && storage.uploads == old(storage.uploads)
        && wrapper.provider.requests == old(wrapper.provider.requests)
        && wrapper.provider.sent == old(wrapper.provider.sent)
      ensures wrapper.signer.Some? ==>
        && storage.uploads == old(storage.uploads) + UploadsFor(input.metadata)
        && wrapper.Transacted(old(wrapper.provider.requests), old(wrapper.provider.sent), "mint_to",
             MintToArgs(wrapper.signer.value.address, MaxInt,
                        ResolvedUri(input.metadata, storage.backend, old(storage.uploads)), input.supply), r)
    {
      var to := wrapper.GetSignerAddress();
      if to.Err? {
        r := Err(to.error);
        return;
      }
      r := MintTo(to.value, input);
    }

    /** `mint_additional_supply_to(to, token_id, additional_supply)`: reads
        the token's metadata, then one `mint_to` with the existing token id
        and its stored URI; a token whose metadata cannot be read fails with
        nothing requested. */
    method MintAdditionalSupplyTo(to: Address, tokenId: nat, additionalSupply: nat) returns (r: Result<Receipt>)
      modifies wrapper.provider
      ensures var fetched := storage.Fetch(wrapper.abi.tokenUri(tokenId));
        && (fetched.Err? ==>
              r == Err(fetched.error)
              && wrapper.provider.requests == old(wrapper.provider.requests)
              && wrapper.provider.sent == old(wrapper.provider.sent))
        && (fetched.Ok? ==>
              wrapper.Transacted(old(wrapper.provider.requests), old(wrapper.provider.sent), "mint_to",
                MintToArgs(to, tokenId, wrapper.abi.tokenUri(tokenId), additionalSupply), r))
    {
      var uri := wrapper.abi.tokenUri(tokenId);
      var metadata := storage.Fetch(uri);
      if metadata.Err? {
        r := Err(metadata.error);
        return;
      }
      r := wrapper.SendTransaction("mint_to", MintToArgs(to, tokenId, uri, additionalSupply));
    }

    /** `mint_additional_supply(token_id, additional_supply)`: to the signer. */
    method MintAdditionalSupply(tokenId: nat, additionalSupply: nat) returns (r: Result<Receipt>)
      modifies wrapper.provider
      ensures wrapper.signer.None? ==>
        && r == Err(NoSigner)
        && wrapper.provider.requests == old(wrapper.provider.requests)
        && wrapper.provider.sent == old(wrapper.provider.sent)
      ensures var fetched := storage.Fetch(wrapper.abi.tokenUri(tokenId));
        wrapper.signer.Some? ==>
          && (fetched.Err? ==>
                r == Err(fetched.error)
                && wrapper.provider.requests == old(wrapper.provider.requests)
                && wrapper.provider.sent == old(wrapper.provider.sent))
          && (fetched.Ok? ==>
                wrapper.Transacted(old(wrapper.provider.requests), old(wrapper.provider.sent), "mint_to",
                  MintToArgs(wrapper.signer.value.address, tokenId, wrapper.abi.tokenUri(tokenId),
                             additionalSupply), r))
    {
      var to := wrapper.GetSignerAddress();
      if to.Err? {
        r := Err(to.error);
        return;
      }
      r := MintAdditionalSupplyTo(to.value, tokenId, additionalSupply);
    }

    /** `mint_batch_to(to, metadatas_with_supply)`: not implemented; it
        always raises and sends nothing. */
    function MintBatchTo(to: Address, inputs: seq<EditionMetadataInput>): (r: Result<Receipt>)
      ensures r.Err? && r.error == NotImplemented
    {
      Err(NotImplemented)
    }

    /** `mint_batch(metadatas_with_supply)`: asks for the signer's address
        first, so it fails with NoSignerException without a signer and with
        NotImplementedError otherwise; it never succeeds. */
    function MintBatch(inputs: seq<EditionMetadataInput>): (r: Result<Receipt>)
      ensures r.Err?
      ensures r.error == NoSigner <==> wrapper.signer.None?
      ensures r.error == NotImplemented <==> wrapper.signer.Some?
    {
      match wrapper.GetSignerAddress()
      case Err(e) => Err(e)
      case Ok(a) => MintBatchTo(a, inputs)
    }
  }
}

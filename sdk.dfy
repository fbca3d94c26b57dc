/** The SDK facade: building it (key, storage gateway, connection), setting
    the private key, and the four lazily built module slots. */
module Sdk {
  import opened Common
  import opened Chain
  import opened Storage
  import opened SdkState
  import Collection
  import Pack

  /** The gateway used when the options name none. */
  const DefaultGateway := "https://cloudflare-ipfs.com/ipfs/"

  /** The storage gateway: the option when it is set and not empty, the
      default gateway otherwise. */
  function StorageGateway(options: SdkOptions): (url: string)
    ensures options.ipfsGatewayUrl.Some? && options.ipfsGatewayUrl.value != "" ==> url == options.ipfsGatewayUrl.value
    ensures options.ipfsGatewayUrl.None? || options.ipfsGatewayUrl.value == "" ==> url == DefaultGateway
    ensures url != ""
  {
    match options.ipfsGatewayUrl
    case Some(g) => if g != "" then g else DefaultGateway
    case None => DefaultGateway
  }

  /** Python's `s.lstrip(chars)`: drops every leading character that is in
      the set, however they are ordered; it is not a prefix removal. */
  function LStrip(s: string, chars: set<char>): (t: string)
    ensures |t| <= |s| && t == s[|s| - |t|..]
    ensures t == [] || t[0] !in chars
    ensures forall i :: 0 <= i < |s| - |t| ==> s[i] in chars
    decreases |s|
  {
    if s != [] && s[0] in chars then LStrip(s[1..], chars) else s
  }

  /** Characters of the set in front of a string that starts outside it are
      exactly what `LStrip` removes. */
  lemma {:induction false} LStripPrefix(p: string, t: string, chars: set<char>)
    requires forall i :: 0 <= i < |p| ==> p[i] in chars
    requires t == [] || t[0] !in chars
    ensures LStrip(p + t, chars) == t
    decreases |p|
  {
    if p == [] {
      assert p + t == t;
    } else {
      assert (p + t)[1..] == p[1..] + t;
      LStripPrefix(p[1..], t, chars);
    }
  }

  /** The characters `set_private_key` strips from the front of the key. */
  const KeyStripChars: set<char> := {'0', 'x'}

  /** The stored private key: "0x" followed by the key with all of its
      leading '0' and 'x' characters removed. */
  function NormalizeKey(key: string): (k: string)
    ensures |k| >= 2 && k[..2] == "0x"
    ensures k[2..] == LStrip(key, KeyStripChars)
  {
    "0x" + LStrip(key, KeyStripChars)
  }

  /** Normalising a stored key again gives it back. */
  lemma NormalizeKeyIdempotent(key: string)
    ensures NormalizeKey(NormalizeKey(key)) == NormalizeKey(key)
  {
    var t := LStrip(key, KeyStripChars);
    LStripPrefix("0x", t, KeyStripChars);
    assert NormalizeKey(key) == "0x" + t;
  }

  /** The normalised key loses the zeros after its "0x" too: "0x0abc"
      becomes "0xabc", and "00ab" becomes "0xab". */
  lemma NormalizeKeyExamples()
    ensures NormalizeKey("0x0abc") == "0xabc"
    ensures NormalizeKey("00ab") == "0xab"
    ensures NormalizeKey("abc") == "0xabc"
  {
    LStripPrefix("0x0", "abc", KeyStripChars);
    assert "0x0abc" == "0x0" + "abc";
    LStripPrefix("00", "ab", KeyStripChars);
    assert "00ab" == "00" + "ab";
    LStripPrefix("", "abc", KeyStripChars);
  }

  /** The currency module; only its place in the facade is modelled. */
  class CurrencyModule {
    const base: ModuleBase

    constructor (address: Address, client: Chain)
      ensures fresh(base) && base.address == address && base.client == client
      ensures base.state == null && base.accessors == {}
    {
      base := new ModuleBase(address, client);
    }
  }

  /** The NFT module; only its place in the facade is modelled. */
  class NftModule {
    const base: ModuleBase

    constructor (address: Address, client: Chain)
      ensures fresh(base) && base.address == address && base.client == client
      ensures base.state == null && base.accessors == {}
    {
      base := new ModuleBase(address, client);
    }
  }

  class NftlabsSdk {
    /** The fields the accessors read. */
    const state: SdkState
    /** `Account.from_key`: the account of a key, None when the key is not one. */
    const fromKey: string -> Option<Account>
    var currencyModule: CurrencyModule?
    var nftModule: NftModule?
    var packModule: Pack.PackModule?
    var collectionModule: Collection.CollectionModule?

    constructor (state: SdkState, fromKey: string -> Option<Account>)
      ensures this.state == state && this.fromKey == fromKey
      ensures currencyModule == null && nftModule == null && packModule == null && collectionModule == null
    {
      this.state := state;
      this.fromKey := fromKey;
      currencyModule := null;
      nftModule := null;
      packModule := null;
      collectionModule := null;
    }

    /** `NftlabsSdk(options, url, private_key)`, with the web3 client for
        `url` given as `client`. A key that is not one fails first; the
        storage is then set up, and an unconnected client fails. */
    static method Create(options: SdkOptions, client: Chain, backend: Backend, privateKey: string,
                         fromKey: string -> Option<Account>)
      returns (r: Result<NftlabsSdk>)
      ensures r == Err(InvalidKey) <==> privateKey != "" && fromKey(privateKey).None?
      ensures r == Err(ConnectionFailed) <==>
        (privateKey == "" || fromKey(privateKey).Some?) && !client.view.connected
      ensures r.Ok? <==> (privateKey == "" || fromKey(privateKey).Some?) && client.view.connected
      ensures r.Err? ==> r.error in {InvalidKey, ConnectionFailed}
      ensures r.Ok? ==> var sdk := r.value;
        && client.view.connected
        && fresh(sdk) && fresh(sdk.state) && fresh(sdk.state.storage)
        && sdk.fromKey == fromKey
        && sdk.state.client == client && sdk.state.options == options
        && sdk.state.storage.gatewayUrl == StorageGateway(options)
        && sdk.state.storage.backend == backend && sdk.state.storage.uploads == []
        && sdk.currencyModule == null && sdk.nftModule == null
        && sdk.packModule == null && sdk.collectionModule == null
        && (privateKey == "" ==>
              sdk.state.privateKey == "" && sdk.state.signerAddress == "" && sdk.state.currentAccount == None)
        && (privateKey != "" ==>
              && fromKey(privateKey).Some?
              && sdk.state.currentAccount == fromKey(privateKey)
              && sdk.state.privateKey == NormalizeKey(privateKey)
              && sdk.state.signerAddress == fromKey(privateKey).value.address)
    {
      if privateKey != "" && fromKey(privateKey).None? {
        r := Err(InvalidKey);
        return;
      }
      var storage := new IpfsStorage(StorageGateway(options), backend);
      if !client.view.connected {
        r := Err(ConnectionFailed);
        return;
      }
      var state := new SdkState(client, options, storage);
      var sdk := new NftlabsSdk(state, fromKey);
      if privateKey != "" {
        var _ := sdk.SetPrivateKey(privateKey);
      }
      r := Ok(sdk);
    }

    /** `set_private_key(key)`: a key that is not one leaves everything as it
        was; otherwise the account, the normalised key and the account's
        address replace the current ones, for every module already built. */
    method SetPrivateKey(key: string) returns (r: Result<Account>)
      modifies state`currentAccount, state`privateKey, state`signerAddress
      ensures fromKey(key).None? ==>
        r == Err(InvalidKey) && unchanged(state`currentAccount, state`privateKey, state`signerAddress)
      ensures fromKey(key).Some? ==>
        && r == Ok(fromKey(key).value)
        && state.currentAccount == fromKey(key)
        && state.privateKey == NormalizeKey(key)
        && state.signerAddress == fromKey(key).value.address
    {
      var account := fromKey(key);
      if account.None? {
        r := Err(InvalidKey);
        return;
      }
      state.currentAccount := account;
      state.privateKey := NormalizeKey(key);
      state.signerAddress := account.value.address;
      r := Ok(account.value);
    }

    /** `__init_module(module)`: installs the seven accessors, all reading
        this facade. */
    method InitModule(m: ModuleBase)
      modifies m
      ensures m.state == state && m.accessors == InstalledAccessors
    {
      m.state := state;
      m.accessors := InstalledAccessors;
    }

    /** `get_currency_module(address)`: the first module built is returned
        for every later address. */
    method GetCurrencyModule(address: Address) returns (m: CurrencyModule)
      modifies this`currencyModule
      ensures old(currencyModule) != null ==> m == old(currencyModule) && currencyModule == m
      ensures old(currencyModule) == null ==>
        && fresh(m) && fresh(m.base) && currencyModule == m
        && m.base.address == address && m.base.client == state.client
        && m.base.state == state && m.base.accessors == InstalledAccessors
    {
      if currencyModule != null {
        return currencyModule;
      }
      m := new CurrencyModule(address, state.client);
      InitModule(m.base);
      currencyModule := m;
    }

    /** `get_nft_module(address)`. */
    method GetNftModule(address: Address) returns (m: NftModule)
      modifies this`nftModule
      ensures old(nftModule) != null ==> m == old(nftModule) && nftModule == m
      ensures old(nftModule) == null ==>
        && fresh(m) && fresh(m.base) && nftModule == m
        && m.base.address == address && m.base.client == state.client
        && m.base.state == state && m.base.accessors == InstalledAccessors
    {
      if nftModule != null {
        return nftModule;
      }
      m := new NftModule(address, state.client);
      InitModule(m.base);
      nftModule := m;
    }

    /** `get_pack_module(address)`. */
    method GetPackModule(address: Address) returns (m: Pack.PackModule)
      modifies this`packModule
      ensures old(packModule) != null ==> m == old(packModule) && packModule == m
      ensures old(packModule) == null ==>
        && fresh(m) && fresh(m.base) && packModule == m
        && m.base.address == address && m.base.client == state.client
        && m.base.state == state && m.base.accessors == InstalledAccessors
    {
      if packModule != null {
        return packModule;
      }
      m := new Pack.PackModule(address, state.client);
      InitModule(m.base);
      packModule := m;
    }

    /** `get_collection_module(address)`. */
    method GetCollectionModule(address: Address) returns (m: Collection.CollectionModule)
      modifies this`collectionModule
      ensures old(collectionModule) != null ==> m == old(collectionModule) && collectionModule == m
      ensures old(collectionModule) == null ==>
        && fresh(m) && fresh(m.base) && collectionModule == m
        && m.base.address == address && m.base.client == state.client
        && m.base.state == state && m.base.accessors == InstalledAccessors
    {
      if collectionModule != null {
        return collectionModule;
      }
      m := new Collection.CollectionModule(address, state.client);
      InitModule(m.base);
      collectionModule := m;
    }
  }
}

/** The part of the SDK facade that its modules read at call time. The facade
    installs seven accessors on every module it builds (`__init_module`);
    each of them reads the facade's current fields, so a later
    `set_private_key` is seen by every module already built. `SdkState` holds
    those fields, and `ModuleBase` the accessor slots every module has. */
module SdkState {
  import opened Common
  import opened Chain
  import opened Storage

  /** SdkOptions: the storage gateway (None or "" when not set) and the gas
      price the facade asks for, in gwei. */
  datatype SdkOptions = SdkOptions(ipfsGatewayUrl: Option<string>, maxGasPriceInGwei: nat)

  const WeiPerGwei: nat := 1_000_000_000

  /** `toWei(x, 'gwei')` for an integer amount. */
  function ToWei(gwei: nat): (wei: nat)
    ensures wei % WeiPerGwei == 0 && wei / WeiPerGwei == gwei
    ensures gwei <= wei
  {
    gwei * WeiPerGwei
  }

  /** The seven accessors `__init_module` assigns on a module. */
  datatype Accessor =
    | GetAccount | GetOptions | GetClient | GetStorage
    | GetSignerAddress | GetPrivateKey | GetTransactOpts

  const InstalledAccessors: set<Accessor> :=
    {GetAccount, GetOptions, GetClient, GetStorage, GetSignerAddress, GetPrivateKey, GetTransactOpts}

  lemma InstalledAccessorsAreSeven()
    ensures |InstalledAccessors| == 7
    ensures forall a: Accessor :: a in InstalledAccessors
  {
    var s := {GetAccount, GetOptions, GetClient, GetStorage, GetSignerAddress, GetPrivateKey};
    assert |{GetAccount, GetOptions, GetClient, GetStorage, GetSignerAddress}| == 5;
    assert |s| == 6;
    assert InstalledAccessors == s + {GetTransactOpts};
    forall a: Accessor ensures a in InstalledAccessors {
      match a
      case GetAccount =>
      case GetOptions =>
      case GetClient =>
      case GetStorage =>
      case GetSignerAddress =>
      case GetPrivateKey =>
      case GetTransactOpts =>
    }
  }

  class SdkState {
    const client: Chain
    const options: SdkOptions
    const storage: IpfsStorage
    var privateKey: string
    /** "" while no key has been set. */
    var signerAddress: string
    var currentAccount: Option<Account>

    constructor (client: Chain, options: SdkOptions, storage: IpfsStorage)
      ensures this.client == client && this.options == options && this.storage == storage
      ensures privateKey == "" && signerAddress == "" && currentAccount == None
    {
      this.client := client;
      this.options := options;
      this.storage := storage;
      privateKey := "";
      signerAddress := "";
      currentAccount := None;
    }

    /** `__get_signer_address`: raises NoSignerException exactly when no
        signer address is set. */
    function SignerAddress(): (r: Result<Address>)
      reads this
      ensures r.Err? <==> signerAddress == ""
      ensures r.Err? ==> r.error == NoSigner
      ensures r.Ok? ==> r.value == signerAddress
    {
      if signerAddress == "" then Err(NoSigner) else Ok(signerAddress)
    }

    /** `__get_transact_ops`: the signer address as sender and the configured
        gas price converted from gwei to wei; raises NoSignerException, as
        SignerAddress does, when there is no signer. */
    function TransactOpts(): (r: Result<TxParams>)
      reads this
      ensures r.Err? <==> SignerAddress().Err?
      ensures r.Err? ==> r.error == NoSigner
      ensures r.Ok? ==> r.value.sender == signerAddress
      ensures r.Ok? ==> r.value.gasPrice == options.maxGasPriceInGwei * 1_000_000_000
    {
      match SignerAddress()
      case Err(e) => Err(e)
      case Ok(a) => Ok(TxParams(a, ToWei(options.maxGasPriceInGwei)))
    }
  }

  /** The accessor slots a module object has. `state` is the facade whose
      accessors were installed; it is null until `__init_module` runs. */
  class ModuleBase {
    const address: Address
    const client: Chain
    var state: SdkState?
    var accessors: set<Accessor>

    constructor (address: Address, client: Chain)
      ensures this.address == address && this.client == client
      ensures state == null && accessors == {}
    {
      this.address := address;
      this.client := client;
      state := null;
      accessors := {};
    }
  }
}

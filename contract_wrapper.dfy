/** The thirdweb contract wrapper: one signed raw transaction per
    `send_transaction`, with the nonce taken from the signer's transaction
    count and the gas price from the provider. The provider records the
    requests `send_transaction` makes to it directly and every raw
    transaction it was sent; reads made through the contract binding are
    not recorded. */
module Wrapper {
  import opened Common

  /** A field of a built transaction. */
  datatype Field = FInt(i: int) | FStr(s: string)

  /** A built transaction: the dictionary `build_transaction` returns. */
  type BuiltTx = map<string, Field>

  /** The ABI binding of one contract: its address, what
      `getattr(abi, fn).build_transaction(*args, tx_params=TxParams(gas_price=g))`
      returns, and the `uri(token_id)` read. */
  datatype ContractAbi = ContractAbi(
    contractAddress: Address,
    buildTransaction: (string, seq<Arg>, nat) -> BuiltTx,
    tokenUri: nat -> string)

  /** A transaction signed by the account at `signer`. */
  datatype SignedTx = SignedTx(signer: Address, tx: BuiltTx)

  /** One request to the RPC provider. */
  datatype Request =
    | GetTransactionCount(account: Address)
    | GasPrice
    | SendRawTransaction(signed: SignedTx)
    | WaitForTransactionReceipt(txHash: nat)

  /** The web3 provider: the transaction counts and gas price it reports are
      given; the raw transactions it is sent are numbered in order, and that
      number is the hash it returns. */
  class Provider {
    const transactionCount: Address -> nat
    const gasPrice: nat
    var requests: seq<Request>
    var sent: seq<SignedTx>

    constructor (transactionCount: Address -> nat, gasPrice: nat)
      ensures this.transactionCount == transactionCount && this.gasPrice == gasPrice
      ensures requests == [] && sent == []
    {
      this.transactionCount := transactionCount;
      this.gasPrice := gasPrice;
      requests := [];
      sent := [];
    }

    /** `eth.get_transaction_count(account)`. */
    method GetTransactionCount(account: Address) returns (n: nat)
      modifies this`requests
      ensures requests == old(requests) + [Request.GetTransactionCount(account)]
      ensures n == transactionCount(account)
    {
      requests := requests + [Request.GetTransactionCount(account)];
      n := transactionCount(account);
    }

    /** `eth.gas_price`. */
    method GetGasPrice() returns (p: nat)
      modifies this`requests
      ensures requests == old(requests) + [GasPrice]
      ensures p == gasPrice
    {
      requests := requests + [GasPrice];
      p := gasPrice;
    }

    /** `eth.send_raw_transaction(signed.rawTransaction)`. */
    method SendRaw(signed: SignedTx) returns (txHash: nat)
      modifies this`requests, this`sent
      ensures requests == old(requests) + [SendRawTransaction(signed)]
      ensures sent == old(sent) + [signed]
      ensures txHash == |old(sent)|
    {
      requests := requests + [SendRawTransaction(signed)];
      txHash := |sent|;
      sent := sent + [signed];
    }

    /** `eth.wait_for_transaction_receipt(txHash)`. */
    method WaitForReceipt(txHash: nat) returns (receipt: Receipt)
      modifies this`requests
      ensures requests == old(requests) + [WaitForTransactionReceipt(txHash)]
      ensures receipt == Receipt(txHash)
    {
      requests := requests + [WaitForTransactionReceipt(txHash)];
      receipt := Receipt(txHash);
    }
  }

  /** The transaction that is signed: the built one with its `nonce` set
      and its `from` removed, every other field as built. */
  function PreparedTx(built: BuiltTx, nonce: nat): (tx: BuiltTx)
    ensures "from" !in tx
    ensures "nonce" in tx && tx["nonce"] == FInt(nonce)
    ensures tx.Keys == (built.Keys + {"nonce"}) - {"from"}
    ensures forall k :: k in tx && k != "nonce" ==> k in built && tx[k] == built[k]
  {
    built[("nonce") := FInt(nonce)] - {"from"}
  }

  /** A prepared transaction differs from the built one in `nonce` and
      `from` only: a field that is neither is kept exactly. */
  lemma PreparedKeepsOtherFields(built: BuiltTx, nonce: nat, k: string)
    requires k != "nonce" && k != "from"
    ensures k in PreparedTx(built, nonce) <==> k in built
    ensures k in built ==> PreparedTx(built, nonce)[k] == built[k]
  {
  }

  class ContractWrapper {
    const abi: ContractAbi
    const provider: Provider
    const signer: Option<Account>

    constructor (abi: ContractAbi, provider: Provider, signer: Option<Account>)
      ensures this.abi == abi && this.provider == provider && this.signer == signer
    {
      this.abi := abi;
      this.provider := provider;
      this.signer := signer;
    }

    /** `get_signer_address()`: NoSignerException without a signer, the
        signer's address otherwise. */
    function GetSignerAddress(): (r: Result<Address>)
      ensures r.Err? <==> signer.None?
      ensures r.Err? ==> r.error == NoSigner
      ensures r.Ok? ==> r.value == signer.value.address
    {
      match signer
      case None => Err(NoSigner)
      case Some(a) => Ok(a.address)
    }

    /** The effect of `send_transaction(fn, args)` on the provider, from its
        requests `req0` and sent transactions `sent0` before the call. */
    ghost predicate Transacted(req0: seq<Request>, sent0: seq<SignedTx>, fn: string, args: seq<Arg>,
                               r: Result<Receipt>)
      reads provider
    {
      match signer
      case None =>
        r == Err(NoSigner) && provider.requests == req0 && provider.sent == sent0
      case Some(account) =>
        var nonce := provider.transactionCount(account.address);
        var built := abi.buildTransaction(fn, args, provider.gasPrice);
        var asked := [Request.GetTransactionCount(account.address), GasPrice];
        if "from" !in built then
          r == Err(MissingKey) && provider.requests == req0 + asked && provider.sent == sent0
        else
          var signed := SignedTx(account.address, PreparedTx(built, nonce));
          && provider.sent == sent0 + [signed]
          && provider.requests == req0 + asked + [SendRawTransaction(signed), WaitForTransactionReceipt(|sent0|)]
          && r == Ok(Receipt(|sent0|))
    }

    /** `send_transaction(fn, args)`. Without a signer it fails before any
        request. Otherwise it asks for the nonce and the gas price, builds
        the transaction at that gas price, overwrites its nonce, deletes its
        `from` (KeyError when there is none), signs it, sends exactly one raw
        transaction and returns that transaction's receipt. */
    method SendTransaction(fn: string, args: seq<Arg>) returns (r: Result<Receipt>)
      modifies provider
      ensures Transacted(old(provider.requests), old(provider.sent), fn, args, r)
    {
      if signer.None? {
        r := Err(NoSigner);
        return;
      }
      var account := signer.value;
      var nonce := provider.GetTransactionCount(account.address);
      var gas := provider.GetGasPrice();
      var tx := abi.buildTransaction(fn, args, gas);
      tx := tx[("nonce") := FInt(nonce)];
      if "from" !in tx {
        r := Err(MissingKey);
        return;
      }
      tx := tx - {"from"};
      var signed := SignedTx(account.address, tx);
      var txHash := provider.SendRaw(signed);
      var receipt := provider.WaitForReceipt(txHash);
      r := Ok(receipt);
    }

    /** `multi_call(encoded)`: a `multicall` transaction carrying the list
        of encoded calls as its one argument. */
    method MultiCall(encoded: seq<string>) returns (r: Result<Receipt>)
      modifies provider
      ensures Transacted(old(provider.requests), old(provider.sent), "multicall", [StrList(encoded)], r)
    {
      r := SendTransaction("multicall", [StrList(encoded)]);
    }
  }
}

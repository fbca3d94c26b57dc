/** Values shared by the whole model: results and the exceptions they stand
    for, addresses, the arguments of contract calls, the role tags of the
    access-control contracts, transaction options and receipts. */
module Common {

  datatype Option<+T> = None | Some(value: T)

  /** The exceptions the SDK raises, as values. */
  datatype Error =
    | NoSigner           // NoSignerException: no account configured
    | NotImplemented     // NotImplementedError
    | NotFound           // the storage backend has no document at the URI
    | MalformedMetadata  // the document is not metadata JSON
    | IndexOutOfRange    // `[0]` of an empty list
    | MissingKey         // `del tx["from"]` on a transaction without that key
    | InvalidKey         // Account.from_key rejected the private key
    | ConnectionFailed   // "Failed to connect to the web3 provider"
    | ApprovalFailed     // the not-approved branches of MarketModule.list

  datatype Result<+T> = Ok(value: T) | Err(error: Error)

  /** A hex address as the SDK passes it around: a string. */
  type Address = string

  /** The address the market uses for the chain's native currency. */
  const ZeroAddress: Address := "0x0000000000000000000000000000000000000000"

  /** An account that can sign: only its address is observable here. */
  datatype Account = Account(address: Address)

  /** The roles of the access-control contracts. */
  datatype Role = Admin | Minter | Transfer | Pauser

  /** `role.get_hash()`: the fixed 32-byte identifier of a role. Its bytes are
      not part of the model, only that it is determined by the role. */
  datatype RoleHash = RoleHashOf(role: Role)

  /** One argument of a contract call, as handed to an ABI binding. */
  datatype Arg =
    | AInt(i: int)
    | AStr(s: string)
    | ABool(b: bool)
    | AHash(h: RoleHash)
    | AList(items: seq<Arg>)

  /** The transaction options the SDK facade hands to every write: the
      sender and the gas price in wei. */
  datatype TxParams = TxParams(sender: Address, gasPrice: nat)

  /** A transaction receipt, identified by the hash of its transaction. */
  datatype Receipt = Receipt(transactionHash: nat)

  /** A list of integers as one list argument. */
  function IntList(xs: seq<nat>): (a: Arg)
    ensures a.AList? && |a.items| == |xs|
    ensures forall k :: 0 <= k < |xs| ==> a.items[k] == AInt(xs[k])
  {
    AList(seq(|xs|, k requires 0 <= k < |xs| => AInt(xs[k])))
  }

  /** A list of strings as one list argument. */
  function StrList(xs: seq<string>): (a: Arg)
    ensures a.AList? && |a.items| == |xs|
    ensures forall k :: 0 <= k < |xs| ==> a.items[k] == AStr(xs[k])
  {
    AList(seq(|xs|, k requires 0 <= k < |xs| => AStr(xs[k])))
  }
}

/** The contract-type tables of the thirdweb layer: which class, which
    deployment bytecode and which remote contract name belong to each of the
    three prebuilt contract types, and the reverse name table. */
module Maps {
  /** The values `NFTCollection.contract_type`, `Edition.contract_type` and
      `Token.contract_type`; the three are taken to be distinct. */
  datatype ContractType = NftCollectionType | EditionType | TokenType

  /** The three contract classes. */
  datatype ContractClass = NftCollection | Edition | Token

  /** The deployment bytecode each table entry names; the byte strings
      themselves are not part of this model. */
  datatype Bytecode = TokenErc721Bytecode | TokenErc1155Bytecode | TokenErc20Bytecode

  /** The `contract_type` attribute of each class. */
  function ClassContractType(c: ContractClass): (t: ContractType)
  {
    match c
    case NftCollection => NftCollectionType
    case Edition => EditionType
    case Token => TokenType
  }

  const ContractsMap: map<ContractType, ContractClass> := map[
    ClassContractType(NftCollection) := NftCollection,
    ClassContractType(Edition) := Edition,
    ClassContractType(Token) := Token]

  const ContractBytecode: map<ContractType, Bytecode> := map[
    ClassContractType(NftCollection) := TokenErc721Bytecode,
    ClassContractType(Edition) := TokenErc1155Bytecode,
    ClassContractType(Token) := TokenErc20Bytecode]

  const RemoteContractName: map<ContractType, string> := map[
    ClassContractType(NftCollection) := "TokenERC721",
    ClassContractType(Edition) := "TokenERC1155",
    ClassContractType(Token) := "TokenERC20"]

  const RemoteContractNameToContractType: map<string, ContractType> := map[
    "TokenERC721" := ClassContractType(NftCollection),
    "TokenERC1155" := ClassContractType(Edition),
    "TokenERC20" := ClassContractType(Token)]

  /** The three contract types. */
  const AllContractTypes: set<ContractType> := {NftCollectionType, EditionType, TokenType}

  /** The three remote contract names. */
  const RemoteNames: set<string> := {"TokenERC721", "TokenERC1155", "TokenERC20"}

  /** Every table over contract types has all three types as keys, and no other. */
  lemma SameKeySets()
    ensures ContractsMap.Keys == AllContractTypes
    ensures ContractBytecode.Keys == AllContractTypes
    ensures RemoteContractName.Keys == AllContractTypes
    ensures forall t: ContractType :: t in AllContractTypes
  {
    forall t: ContractType ensures t in AllContractTypes {
      match t
      case NftCollectionType =>
      case EditionType =>
      case TokenType =>
    }
  }

  /** The reverse name table is keyed by the three remote names, and its
      values are the three contract types. */
  lemma ReverseTableKeys()
    ensures RemoteContractNameToContractType.Keys == RemoteNames
    ensures RemoteContractNameToContractType.Values == AllContractTypes
    ensures RemoteContractName.Values == RemoteNames
  {
    SameKeySets();
    forall v | v in RemoteContractName.Values ensures v in RemoteNames {
      var t :| t in RemoteContractName && RemoteContractName[t] == v;
      match t
      case NftCollectionType =>
      case EditionType =>
      case TokenType =>
    }
    assert RemoteContractName[NftCollectionType] == "TokenERC721";
    assert RemoteContractName[EditionType] == "TokenERC1155";
    assert RemoteContractName[TokenType] == "TokenERC20";
  }

  /** Each class is filed under its own contract type. */
  lemma ContractsMapByOwnType(c: ContractClass)
    ensures ClassContractType(c) in ContractsMap && ContractsMap[ClassContractType(c)] == c
  {
  }

  /** The remote name, looked up in the reverse table, gives back the type. */
  lemma NameRoundTrip(t: ContractType)
    ensures t in RemoteContractName
    ensures RemoteContractName[t] in RemoteContractNameToContractType
    ensures RemoteContractNameToContractType[RemoteContractName[t]] == t
  {
    match t
    case NftCollectionType =>
    case EditionType =>
    case TokenType =>
  }

  /** The type of a remote name, looked up in the name table, gives back the name. */
  lemma TypeRoundTrip(n: string)
    requires n in RemoteNames
    ensures n in RemoteContractNameToContractType
    ensures RemoteContractNameToContractType[n] in RemoteContractName
    ensures RemoteContractName[RemoteContractNameToContractType[n]] == n
  {
  }

  /** No two contract types share a remote name. */
  lemma RemoteNameInjective(t1: ContractType, t2: ContractType)
    ensures RemoteContractName[t1] == RemoteContractName[t2] ==> t1 == t2
  {
    SameKeySets();
    NameRoundTrip(t1);
    NameRoundTrip(t2);
  }

  /** Each type is paired consistently across the tables: the collection
      with ERC-721, the edition with ERC-1155, the token with ERC-20. */
  lemma Pairings()
    ensures ContractBytecode[NftCollectionType] == TokenErc721Bytecode && RemoteContractName[NftCollectionType] == "TokenERC721"
    ensures ContractBytecode[EditionType] == TokenErc1155Bytecode && RemoteContractName[EditionType] == "TokenERC1155"
    ensures ContractBytecode[TokenType] == TokenErc20Bytecode && RemoteContractName[TokenType] == "TokenERC20"
    ensures ContractsMap[NftCollectionType] == NftCollection && ContractsMap[EditionType] == Edition
            && ContractsMap[TokenType] == Token
  {
  }
}

/** Role management as the collection and pack modules both implement it,
    line for line the same: grant, revoke (which renounces whenever a signer is
    available), and the member enumerations. */
module Roles {
  import opened Common
  import opened Chain
  import opened SdkState

  /** `Role.<r>.name`. */
  function RoleName(r: Role): (name: string)
  {
    match r
    case Admin => "admin"
    case Minter => "minter"
    case Transfer => "transfer"
    case Pauser => "pauser"
  }

  lemma {:induction false} RoleNameInjective(r1: Role, r2: Role)
    ensures RoleName(r1) == RoleName(r2) ==> r1 == r2
  {
    match r1
    case Admin => assert RoleName(r1)[0] == 'a';
    case Minter => assert RoleName(r1)[0] == 'm';
    case Transfer => assert RoleName(r1)[0] == 't';
    case Pauser => assert RoleName(r1)[0] == 'p';
  }

  /** `get_role_members(role)`: the member count for the role's hash, then
      one `get_role_member(hash, i)` for each index in ascending order. */
  function RoleMembers(view: ChainView, contract: Address, role: Role): (members: seq<Address>)
    ensures |members| == view.roleMemberCount(contract, RoleHashOf(role))
    ensures forall i :: 0 <= i < |members| ==> members[i] == view.roleMember(contract, RoleHashOf(role), i)
  {
    var h := RoleHashOf(role);
    seq(view.roleMemberCount(contract, h), i requires 0 <= i => view.roleMember(contract, h, i))
  }

  /** `get_all_role_members()`: the members of each role, keyed by
      the role's name. */
  function AllRoleMembers(view: ChainView, contract: Address): (m: map<string, seq<Address>>)
    ensures m.Keys == {"admin", "minter", "transfer", "pauser"}
    ensures forall r: Role :: RoleName(r) in m && m[RoleName(r)] == RoleMembers(view, contract, r)
  {
    map[
      RoleName(Admin) := RoleMembers(view, contract, Admin),
      RoleName(Minter) := RoleMembers(view, contract, Minter),
      RoleName(Transfer) := RoleMembers(view, contract, Transfer),
      RoleName(Pauser) := RoleMembers(view, contract, Pauser)]
  }

  /** The arguments of `grant_role`, `renounce_role` and `revoke_role`. */
  function RoleArgs(role: Role, account: Address): (args: seq<Arg>)
  {
    [AHash(RoleHashOf(role)), AStr(account)]
  }

  /** `grant_role(role, address)`: one `grant_role(hash, address)`
      transaction. */
  method GrantRole(m: ModuleBase, role: Role, account: Address) returns (r: Result<Receipt>)
    requires m.state != null
    modifies m.client`log
    ensures Executed(old(m.client.log), m.client.log, r, m.address, "grant_role", RoleArgs(role, account),
                     m.state.TransactOpts())
  {
    r := m.client.Execute(m.address, "grant_role", RoleArgs(role, account), m.state.TransactOpts());
  }

  /** `revoke_role(role, address)`. With a signer available it renounces
      for `address` and returns, whatever `address` is: the comparison with
      the signer's address has no effect. Only after NoSignerException is
      caught does it build the `revoke_role` transaction, and building that
      asks for the transaction options, which raise NoSignerException again
      when they come from the facade. */
  method RevokeRole(m: ModuleBase, role: Role, account: Address) returns (r: Result<Receipt>)
    requires m.state != null
    modifies m.client`log
    ensures m.state.signerAddress != "" ==>
      Executed(old(m.client.log), m.client.log, r, m.address, "renounce_role", RoleArgs(role, account),
               m.state.TransactOpts())
    ensures m.state.signerAddress == "" ==>
      Executed(old(m.client.log), m.client.log, r, m.address, "revoke_role", RoleArgs(role, account),
               m.state.TransactOpts())
    ensures m.state.signerAddress != "" ==>
      r.Ok? && |m.client.log| == |old(m.client.log)| + 1 && m.client.log[|old(m.client.log)|].fn == "renounce_role"
    ensures m.state.signerAddress == "" ==> r == Err(NoSigner) && m.client.log == old(m.client.log)
    ensures forall k :: |old(m.client.log)| <= k < |m.client.log| ==> m.client.log[k].fn != "revoke_role"
  {
    var signer := m.state.SignerAddress();
    if signer.Ok? {
      // `signer_address.lower() != address.lower()` leads to `pass`
      r := m.client.Execute(m.address, "renounce_role", RoleArgs(role, account), m.state.TransactOpts());
      return;
    }
    // NoSignerException caught
    r := m.client.Execute(m.address, "revoke_role", RoleArgs(role, account), m.state.TransactOpts());
  }
}

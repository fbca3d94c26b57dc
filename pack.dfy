/** The pack module: only role management has a body in it; the pack
    operations themselves are empty stubs. */
module Pack {
  import opened Common
  import opened Chain
  import opened SdkState
  import Roles

  class PackModule {
    const base: ModuleBase

    constructor (address: Address, client: Chain)
      ensures fresh(base) && base.address == address && base.client == client
      ensures base.state == null && base.accessors == {}
    {
      base := new ModuleBase(address, client);
    }

    /** `grant_role(role, address)`: exactly one `grant_role(hash, address)`. */
    method GrantRole(role: Role, account: Address) returns (r: Result<Receipt>)
      requires base.state != null
      modifies base.client`log
      ensures Executed(old(base.client.log), base.client.log, r, base.address, "grant_role",
                       Roles.RoleArgs(role, account), base.state.TransactOpts())
    {
      r := Roles.GrantRole(base, role, account);
    }

    /** `revoke_role(role, address)`: renounces whenever a signer exists,
        whatever the target; never issues `revoke_role` under the facade's
        accessors. */
    method RevokeRole(role: Role, account: Address) returns (r: Result<Receipt>)
      requires base.state != null
      modifies base.client`log
      ensures base.state.signerAddress != "" ==>
        Executed(old(base.client.log), base.client.log, r, base.address, "renounce_role",
                 Roles.RoleArgs(role, account), base.state.TransactOpts())
      ensures base.state.signerAddress == "" ==> r == Err(NoSigner) && base.client.log == old(base.client.log)
      ensures forall k :: |old(base.client.log)| <= k < |base.client.log| ==> base.client.log[k].fn != "revoke_role"
    {
      r := Roles.RevokeRole(base, role, account);
    }

    /** `get_role_members(role)`. */
    function GetRoleMembers(role: Role): (members: seq<Address>)
      ensures |members| == base.client.view.roleMemberCount(base.address, RoleHashOf(role))
      ensures forall i :: 0 <= i < |members| ==>
        members[i] == base.client.view.roleMember(base.address, RoleHashOf(role), i)
    {
      Roles.RoleMembers(base.client.view, base.address, role)
    }

    /** `get_all_role_members()`. */
    function GetAllRoleMembers(): (m: map<string, seq<Address>>)
      ensures m.Keys == {"admin", "minter", "transfer", "pauser"}
      ensures forall r: Role :: Roles.RoleName(r) in m && m[Roles.RoleName(r)] == GetRoleMembers(r)
    {
      Roles.AllRoleMembers(base.client.view, base.address)
    }
  }
}

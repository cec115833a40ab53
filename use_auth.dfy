/** Identity derivation: the `useAuth` hook computes who the user is from
    the claims decoded out of the stored access token. */
module UseAuth {
  import opened Values

  /** The `UserInfo` claim of an access token. */
  datatype UserInfo = UserInfo(userId: string, username: string, roles: seq<string>)

  /** The record the hook returns; `status` is 'Admin', 'Engineer' or 'Sales'. */
  datatype Identity = Identity(
    userId: string, username: string, roles: seq<string>,
    isEngineer: bool, isAdmin: bool, status: string)

  const EmptyIdentity := Identity("", "", [], false, false, "Sales")

  /** `useAuth()` for the stored token; `decode` is the JWT decoder, a total
      function of the token's text (the hook does not guard against a
      token that fails to decode). */
  function UseAuth(token: Option<string>, decode: string -> UserInfo): (id: Identity)
    // no token: the empty identity
    ensures !Present(token) ==> id == EmptyIdentity
    // a token: the claims are passed through unchanged
    ensures Present(token) ==>
      && id.userId == decode(token.value).userId
      && id.username == decode(token.value).username
      && id.roles == decode(token.value).roles
    ensures id.isEngineer <==> Present(token) && "Engineer" in decode(token.value).roles
    ensures id.isAdmin <==> Present(token) && "Admin" in decode(token.value).roles
    // the status follows the priority Admin > Engineer > Sales
    ensures id.status == "Admin" <==> id.isAdmin
    ensures id.status == "Engineer" <==> id.isEngineer && !id.isAdmin
    ensures id.status == "Sales" <==> !id.isEngineer && !id.isAdmin
    ensures id.isEngineer || id.isAdmin ==> id.roles != []
  {
    var isEngineer := false;
    var isAdmin := false;
    var status := "Sales";
    if Present(token) then
      var info := decode(token.value);
      var isEngineer := "Engineer" in info.roles;
      var isAdmin := "Admin" in info.roles;
      var status := if isEngineer then "Engineer" else status;
      var status := if isAdmin then "Admin" else status;
      Identity(info.userId, info.username, info.roles, isEngineer, isAdmin, status)
    else
      Identity("", "", [], isEngineer, isAdmin, status)
  }
}

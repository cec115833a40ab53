/** The users endpoints: the list query with its response transform and
    cache tags, and the three mutations. */
module UsersApiSlice {
  import opened Values
  import ApiSlice
  import Entities
  import Seqs

  /** `roles: string | string[]`. */
  datatype Roles = RoleText(text: string) | RoleList(names: seq<string>)

  /** A user account as the server sends it; `id` is filled in from `_id`. */
  datatype User = User(_id: Id, id: Option<Id>, username: string, roles: Roles, active: bool)

  /** `roles.includes(role)`: membership for an array, a substring test for
      a string. */
  predicate Includes(roles: Roles, role: string) {
    match roles
    case RoleText(text) => Seqs.IsSubstring(role, text)
    case RoleList(names) => role in names
  }

  /** A role given as text is matched as a substring, so 'Engineers'
      includes 'Engineer'; a role list is matched by whole names. */
  lemma IncludesByShape()
    ensures Includes(RoleText("Engineers"), "Engineer")
    ensures !Includes(RoleList(["Engineers"]), "Engineer")
    ensures Includes(RoleList(["Sales", "Engineer"]), "Engineer")
    ensures !Includes(RoleText("Sales"), "Engineer")
  {
    assert "Engineers"[..8] == "Engineer";
    assert "Engineer" != "Engineers" by {
      assert |"Engineer"| != |"Engineers"|;
    }
    assert ["Sales", "Engineer"][1] == "Engineer";
  }

  /** `validateStatus` of `getUsers`: `response.status === 200 &&
      !result.isError`. The status test comes first, so the body is read
      only for a 200; reading `isError` of a `null` or `undefined` body
      throws. */
  function ValidateStatus(responseStatus: int, result: Json): (v: ApiSlice.Validation)
    // any status other than 200 is refused, whatever the body
    ensures responseStatus != 200 ==> v == ApiSlice.Refused
    // an empty (null) or missing body on a 200 throws
    ensures responseStatus == 200 && (result == Null || result == Undefined) ==> v == ApiSlice.Thrown
    // a 200 carrying a list, the normal response, is accepted
    ensures responseStatus == 200 && result.Arr? ==> v == ApiSlice.Accepted
    // a 200 carrying an object is refused exactly when it flags an error
    ensures responseStatus == 200 && result.Obj? ==>
      (v == ApiSlice.Refused <==> "isError" in result.fields && Truthy(result.fields["isError"]))
    // a primitive body has no `isError` property
    ensures responseStatus == 200 && (result.Bool? || result.Num? || result.Str?) ==> v == ApiSlice.Accepted
    // only a 200 can throw or be accepted
    ensures v != ApiSlice.Refused ==> responseStatus == 200
  {
    if responseStatus != 200 then ApiSlice.Refused
    else if result == Null || result == Undefined then ApiSlice.Thrown
    else if Truthy(Get(result, "isError")) then ApiSlice.Refused
    else ApiSlice.Accepted
  }

  /** The loaded list: every user with `id` set to its `_id`. */
  function Loaded(us: seq<User>): (r: seq<User>)
    ensures |r| == |us|
    ensures forall i :: 0 <= i < |us| ==> r[i].id == Some(us[i]._id) && r[i].(id := us[i].id) == us[i]
  {
    seq(|us|, i requires 0 <= i < |us| => us[i].(id := Some(us[i]._id)))
  }

  /** `transformResponse`: `user.id = user._id` on every object of the
      response, in place. */
  method TransformResponse(responseData: array<User>) returns (loaded: seq<User>)
    modifies responseData
    ensures responseData[..] == Loaded(old(responseData[..]))
    ensures loaded == responseData[..]
  {
    for i := 0 to responseData.Length
      invariant forall k :: 0 <= k < i ==> responseData[k] == old(responseData[k]).(id := Some(old(responseData[k])._id))
      invariant forall k :: i <= k < responseData.Length ==> responseData[k] == old(responseData[k])
    {
      responseData[i] := responseData[i].(id := Some(responseData[i]._id));
    }
    loaded := responseData[..];
  }

  const ListTag := ApiSlice.Tag(ApiSlice.UserTag, Str("LIST"))

  /** `providesTags`: the LIST tag, then one tag per id in `ids` order. */
  function ProvidesTags(result: Option<Entities.EntityState<User>>): (tags: seq<ApiSlice.Tag>)
    ensures result.None? ==> tags == [ListTag]
    ensures result.Some? ==>
      && |tags| == 1 + |result.value.ids|
      && tags[0] == ListTag
      && forall i :: 0 <= i < |result.value.ids| ==>
           tags[i + 1] == ApiSlice.Tag(ApiSlice.UserTag, Str(result.value.ids[i]))
  {
    match result
    case None => [ListTag]
    case Some(state) =>
      [ListTag] + seq(|state.ids|, i requires 0 <= i < |state.ids| => ApiSlice.Tag(ApiSlice.UserTag, Str(state.ids[i])))
  }

  /** `addNewUser`: a POST of a copy of the new user; invalidates the list. */
  function AddNewUserQuery(initialUserData: Json): ApiSlice.FetchArgs {
    ApiSlice.FetchArgs("/users", "POST", Spread(initialUserData))
  }
  const AddNewUserInvalidates: seq<ApiSlice.Tag> := [ListTag]

  /** `updateUser`: a PATCH of a copy of the user data. */
  function UpdateUserQuery(initialUserData: Json): ApiSlice.FetchArgs {
    ApiSlice.FetchArgs("/users", "PATCH", Spread(initialUserData))
  }

  /** Adding POSTs and updating PATCHes a copy of the argument's own
      properties to `/users`. */
  lemma MutationShapes(arg: Json)
    ensures AddNewUserQuery(arg).url == "/users" && AddNewUserQuery(arg).verb == "POST"
    ensures UpdateUserQuery(arg).url == "/users" && UpdateUserQuery(arg).verb == "PATCH"
    ensures arg.Obj? ==> AddNewUserQuery(arg).body == arg && UpdateUserQuery(arg).body == arg
    ensures !arg.Obj? ==> AddNewUserQuery(arg).body == Obj(map[]) && UpdateUserQuery(arg).body == Obj(map[])
  {
  }

  /** `deleteUser`: a DELETE whose body carries only the id. */
  function DeleteUserQuery(arg: Json): (q: ApiSlice.FetchArgs)
    ensures q.url == "/users" && q.verb == "DELETE"
    ensures q.body.Obj? && q.body.fields.Keys == {"id"} && q.body.fields["id"] == Get(arg, "id")
  {
    ApiSlice.FetchArgs("/users", "DELETE", Obj(map["id" := Get(arg, "id")]))
  }

  /** `invalidatesTags` of `updateUser` and of `deleteUser`. */
  function InvalidatesTags(arg: Json): (tags: seq<ApiSlice.Tag>)
    ensures |tags| == 1 && tags[0].kind == ApiSlice.UserTag && tags[0].id == Get(arg, "id")
  {
    [ApiSlice.Tag(ApiSlice.UserTag, Get(arg, "id"))]
  }

  lemma MutationTags(arg: Json)
    ensures AddNewUserInvalidates == [ApiSlice.Tag(ApiSlice.UserTag, Str("LIST"))]
    ensures Get(arg, "id") != Str("LIST") ==> ListTag !in InvalidatesTags(arg)
  {
  }

  /** The adapter keeps each entity under its `id`, which the transform
      set to `_id`: keys are distinct and every defined value sits under
      its own `_id`. */
  predicate KeyedById(state: Entities.EntityState<User>) {
    && (forall i, j :: 0 <= i < j < |state.entities| ==> state.entities[i].key != state.entities[j].key)
    && (forall i :: 0 <= i < |state.entities| && state.entities[i].value.Some? ==>
          state.entities[i].value.value._id == state.entities[i].key)
  }
}

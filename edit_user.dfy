/** The edit-user screen: it looks the routed user up in the cached list. */
module EditUser {
  import opened Values
  import Entities
  import UsersList
  import opened UsersApiSlice

  /** `id ? data?.entities[id] : undefined`. */
  function UserForRoute(data: Option<Entities.EntityState<User>>, id: Option<Id>): (u: Option<User>)
    ensures !Present(id) || data.None? ==> u.None?
    ensures Present(id) && data.Some? ==> u == Entities.Lookup(data.value.entities, id.value)
  {
    if Present(id) && data.Some? then Entities.Lookup(data.value.entities, id.value) else None
  }

  /** What the screen renders. */
  datatype Screen = Spinner | Form(user: User)

  /** `user ? <EditUserForm user={user} /> : <CircularProgress />`. */
  function EditUserScreen(data: Option<Entities.EntityState<User>>, id: Option<Id>): (s: Screen)
    ensures s.Form? <==> UserForRoute(data, id).Some?
    ensures s.Form? ==> s.user == UserForRoute(data, id).value
  {
    var user := UserForRoute(data, id);
    if user.Some? then Form(user.value) else Spinner
  }

  /** Following a row's edit button opens that same user, unless the user's
      `_id` is empty, which `id ?` treats as no id at all. */
  lemma EditRouteOpensRow(state: Entities.EntityState<User>, i: int)
    requires KeyedById(state)
    requires 0 <= i < |UsersList.TableContent(state)| && UsersList.TableContent(state)[i].Some?
    ensures var u := UsersList.TableContent(state)[i].value;
      UserForRoute(Some(state), Some(UsersList.EditRoute(u)[7..])) == (if u._id == "" then None else Some(u))
  {
    Entities.LookupDistinct(state.entities, i);
  }
}

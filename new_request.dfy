/** The new-request screen: it waits for the user list and offers every
    engineer as a possible owner. */
module NewRequest {
  import opened Values
  import Entities
  import opened UsersApiSlice

  /** The engineers among `ids`, looked up in `entries`, in `ids` order:
      the `reduce` of the screen's `selectFromResult`, as a left fold. */
  function Engineers(ids: seq<Id>, entries: seq<Entities.Entry<User>>): (r: seq<User>)
    ensures |r| <= |ids|
    ensures forall k :: 0 <= k < |r| ==> Includes(r[k].roles, "Engineer")
  {
    if ids == [] then []
    else
      var list := Engineers(ids[..|ids| - 1], entries);
      var user := Entities.Lookup(entries, ids[|ids| - 1]);
      if user.Some? && Includes(user.value.roles, "Engineer") then list + [user.value] else list
  }

  /** `id` names a defined engineer. */
  predicate EngineerId(entries: seq<Entities.Entry<User>>, id: Id, u: User) {
    Entities.Lookup(entries, id) == Some(u) && Includes(u.roles, "Engineer")
  }

  /** A user is listed exactly when some id looks it up and it has the
      Engineer role. */
  lemma {:induction false} EngineersListed(ids: seq<Id>, entries: seq<Entities.Entry<User>>, u: User)
    ensures u in Engineers(ids, entries) <==> exists i :: 0 <= i < |ids| && EngineerId(entries, ids[i], u)
  {
    if ids != [] {
      var front := ids[..|ids| - 1];
      EngineersListed(front, entries, u);
      assert forall i :: 0 <= i < |front| ==> front[i] == ids[i];
      if exists i :: 0 <= i < |ids| && EngineerId(entries, ids[i], u) {
        var i :| 0 <= i < |ids| && EngineerId(entries, ids[i], u);
        if i < |front| {
          assert EngineerId(entries, front[i], u);
        }
      }
    }
  }

  /** `users` of the screen: `undefined` while the list query has no data. */
  method EngineerUsers(data: Option<Entities.EntityState<User>>) returns (users: Option<seq<User>>)
    ensures data.None? ==> users.None?
    ensures data.Some? ==> users == Some(Engineers(data.value.ids, data.value.entities))
  {
    if data.None? {
      return None;
    }
    var ids, entities := data.value.ids, data.value.entities;
    var list: seq<User> := [];
    var i := 0;
    while i < |ids|
      invariant 0 <= i <= |ids|
      invariant list == Engineers(ids[..i], entities)
    {
      var user := Entities.Lookup(entities, ids[i]);
      if user.Some? && Includes(user.value.roles, "Engineer") {
        list := list + [user.value];
      }
      assert ids[..i + 1][..i] == ids[..i];
      i := i + 1;
    }
    assert ids[..i] == ids;
    return Some(list);
  }

  /** What the screen renders. */
  datatype Screen = Spinner | Form(users: seq<User>)

  /** `users ? <NewRequestForm users={users} /> : <CircularProgress />`: an
      empty engineer list is still an array, so the form is shown. */
  method NewRequestScreen(data: Option<Entities.EntityState<User>>) returns (screen: Screen)
    ensures screen.Form? <==> data.Some?
    ensures screen.Form? ==> screen.users == Engineers(data.value.ids, data.value.entities)
  {
    var users := EngineerUsers(data);
    screen := if users.Some? then Form(users.value) else Spinner;
  }
}

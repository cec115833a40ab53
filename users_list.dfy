/** The users screen: every dictionary value as a row, roles shown as a
    comma-and-space separated list. */
module UsersList {
  import opened Values
  import opened Seqs
  import Entities
  import opened UsersApiSlice

  /** `roles.toString()`: an array joins its items with ','. */
  function RolesText(roles: Roles): string {
    match roles
    case RoleText(text) => text
    case RoleList(names) => Join(names, ",")
  }

  /** The Roles cell: `roles.toString().replaceAll(',', ', ')`. */
  function RolesCell(roles: Roles): string {
    ReplaceChar(RolesText(roles), ',', ", ")
  }

  /** For role names without commas the cell is the names joined by ", ". */
  lemma {:induction false} RolesCellJoins(names: seq<string>)
    requires forall i :: 0 <= i < |names| ==> ',' !in names[i]
    ensures RolesCell(RoleList(names)) == Join(names, ", ")
  {
    if |names| == 1 {
      ReplaceCharAbsent(names[0], ',', ", ");
    } else if |names| > 1 {
      RolesCellJoins(names[1..]);
      ReplaceCharAbsent(names[0], ',', ", ");
      ReplaceCharAppend(names[0] + ",", Join(names[1..], ","), ',', ", ");
      ReplaceCharAppend(names[0], ",", ',', ", ");
      assert ReplaceChar(",", ',', ", ") == ", ";
      assert Join(names, ",") == names[0] + "," + Join(names[1..], ",");
    }
  }

  /** `tableContent`: unlike the requests screen, every value of the
      dictionary becomes a row, undefined ones included. */
  function TableContent(state: Entities.EntityState<User>): (rows: seq<Option<User>>)
    ensures state.ids == [] ==> rows == []
    ensures state.ids != [] ==>
      |rows| == |state.entities| && forall i :: 0 <= i < |rows| ==> rows[i] == state.entities[i].value
  {
    if |state.ids| > 0 then Entities.ObjectValues(state.entities) else []
  }

  /** The edit button's route for a row. */
  function EditRoute(u: User): (route: string)
    ensures |route| == 7 + |u._id| && route[..7] == "/users/" && route[7..] == u._id
  {
    "/users/" + u._id
  }

  /** The 'Add Users' button's route. */
  const NewUserRoute := "/users/new"

  /** The 'Add Users' route has the shape of an edit route, and is one
      exactly for a user whose id is 'new'. */
  lemma NewUserRouteClash(u: User)
    ensures EditRoute(u) == NewUserRoute <==> u._id == "new"
  {
    if EditRoute(u) == NewUserRoute {
      assert u._id == EditRoute(u)[7..] == NewUserRoute[7..];
    }
  }
}

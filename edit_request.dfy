/** The edit-request screen: it looks the routed request up in the cached
    list and waits for both the request and the engineer list. */
module EditRequest {
  import opened Values
  import Entities
  import UseAuth
  import UsersApiSlice
  import NewRequest
  import RequestsList
  import opened RequestsApiSlice

  /** `data?.entities[requestId]`. */
  function RequestForRoute(data: Option<Entities.EntityState<Request>>, id: Id): (r: Option<Request>)
    ensures data.None? ==> r.None?
    ensures data.Some? ==> r == Entities.Lookup(data.value.entities, id)
  {
    if data.Some? then Entities.Lookup(data.value.entities, id) else None
  }

  /** What the screen renders. */
  datatype Screen = Spinner | Form(request: Request, users: seq<UsersApiSlice.User>)

  /** `request && users ? <EditRequestForm .../> : <CircularProgress />`. */
  method EditRequestScreen(
    requests: Option<Entities.EntityState<Request>>, id: Id,
    users: Option<Entities.EntityState<UsersApiSlice.User>>)
    returns (screen: Screen)
    ensures screen.Form? <==> RequestForRoute(requests, id).Some? && users.Some?
    ensures screen.Form? ==>
      && screen.request == RequestForRoute(requests, id).value
      && screen.users == NewRequest.Engineers(users.value.ids, users.value.entities)
  {
    var request := RequestForRoute(requests, id);
    var engineers := NewRequest.EngineerUsers(users);
    screen := if request.Some? && engineers.Some? then Form(request.value, engineers.value) else Spinner;
  }

  /** Following a row's edit button opens that same request: the route's
      last segment looks the row up again in the dictionary it came from. */
  lemma EditRouteOpensRow(state: Entities.EntityState<Request>, identity: UseAuth.Identity, r: Request)
    requires KeyedById(state)
    requires r in RequestsList.TableContent(state, identity)
    ensures RequestForRoute(Some(state), RequestsList.EditRoute(r)[10..]) == Some(r)
  {
    RequestsList.TableMembers(state, identity, r);
    var values := Entities.ObjectValues(state.entities);
    var i :| 0 <= i < |values| && values[i] == Some(r);
    Entities.LookupDistinct(state.entities, i);
  }
}

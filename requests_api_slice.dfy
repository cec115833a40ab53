/** The requests endpoints: the list query with its response transform and
    cache tags, and the three mutations. */
module RequestsApiSlice {
  import opened Values
  import ApiSlice
  import Entities

  /** A request (ticket) as the server sends it; `id` is filled in by the
      client from `_id`. */
  datatype Request = Request(
    _id: Id, id: Option<Id>,
    requester: string, requestername: string,
    owner: string, ownername: string,
    requestType: string, customer: string,
    title: string, text: string, completed: bool)

  /** The adapter's `sortComparer`: incomplete requests before completed ones. */
  function SortComparer(a: Request, b: Request): (r: int)
    ensures r == 0 <==> a.completed == b.completed
    ensures r == -1 <==> !a.completed && b.completed
    ensures r == 1 <==> a.completed && !b.completed
  {
    if a.completed == b.completed then 0 else if a.completed then 1 else -1
  }

  /** `validateStatus` of `getRequests`: `response.status === 200 &&
      !result.isError`. The status test comes first, so the body is read
      only for a 200; reading `isError` of a `null` or `undefined` body
      throws. */
  function ValidateStatus(responseStatus: int, result: Json): (v: ApiSlice.Validation)
    // any status other than 200 is refused, whatever the body
    ensures responseStatus != 200 ==> v == ApiSlice.Refused
    // an empty (null) or missing body on a 200 throws
    ensures responseStatus == 200 && (result == Null || result == Undefined) ==> v == ApiSlice.Thrown
    // a 200 carrying a list, the normal response, is accepted
    ensures responseStatus == 200 && result.Arr? ==> v == ApiSlice.Accepted
    // a 200 carrying an object is refused exactly when it flags an error
    ensures responseStatus == 200 && result.Obj? ==>
      (v == ApiSlice.Refused <==> "isError" in result.fields && Truthy(result.fields["isError"]))
    // a primitive body has no `isError` property
    ensures responseStatus == 200 && (result.Bool? || result.Num? || result.Str?) ==> v == ApiSlice.Accepted
    // only a 200 can throw or be accepted
    ensures v != ApiSlice.Refused ==> responseStatus == 200
  {
    if responseStatus != 200 then ApiSlice.Refused
    else if result == Null || result == Undefined then ApiSlice.Thrown
    else if Truthy(Get(result, "isError")) then ApiSlice.Refused
    else ApiSlice.Accepted
  }

  /** The loaded list: every request with `id` set to its `_id`. */
  function Loaded(rs: seq<Request>): (r: seq<Request>)
    ensures |r| == |rs|
    ensures forall i :: 0 <= i < |rs| ==> r[i].id == Some(rs[i]._id) && r[i].(id := rs[i].id) == rs[i]
  {
    seq(|rs|, i requires 0 <= i < |rs| => rs[i].(id := Some(rs[i]._id)))
  }

  /** `transformResponse`: `request.id = request._id` on every object of
      the response, in place, before the list goes to the adapter. */
  method TransformResponse(responseData: array<Request>) returns (loaded: seq<Request>)
    modifies responseData
    ensures responseData[..] == Loaded(old(responseData[..]))
    ensures loaded == responseData[..]
  {
    for i := 0 to responseData.Length
      invariant forall k :: 0 <= k < i ==> responseData[k] == old(responseData[k]).(id := Some(old(responseData[k])._id))
      invariant forall k :: i <= k < responseData.Length ==> responseData[k] == old(responseData[k])
    {
      responseData[i] := responseData[i].(id := Some(responseData[i]._id));
    }
    loaded := responseData[..];
  }

  const ListTag := ApiSlice.Tag(ApiSlice.RequestTag, Str("LIST"))

  /** `providesTags`: the LIST tag, then one tag per id in `ids` order. */
  function ProvidesTags(result: Option<Entities.EntityState<Request>>): (tags: seq<ApiSlice.Tag>)
    ensures result.None? ==> tags == [ListTag]
    ensures result.Some? ==>
      && |tags| == 1 + |result.value.ids|
      && tags[0] == ListTag
      && forall i :: 0 <= i < |result.value.ids| ==>
           tags[i + 1] == ApiSlice.Tag(ApiSlice.RequestTag, Str(result.value.ids[i]))
  {
    match result
    case None => [ListTag]
    case Some(state) =>
      [ListTag] + seq(|state.ids|, i requires 0 <= i < |state.ids| => ApiSlice.Tag(ApiSlice.RequestTag, Str(state.ids[i])))
  }

  /** `addNewRequest`: a POST of a copy of the new request; invalidates the list. */
  function AddNewRequestQuery(initialRequest: Json): ApiSlice.FetchArgs {
    ApiSlice.FetchArgs("/requests", "POST", Spread(initialRequest))
  }
  const AddNewRequestInvalidates: seq<ApiSlice.Tag> := [ListTag]

  /** `updateRequest`: a PATCH of a copy of the request. */
  function UpdateRequestQuery(initialRequest: Json): ApiSlice.FetchArgs {
    ApiSlice.FetchArgs("/requests", "PATCH", Spread(initialRequest))
  }

  /** Adding POSTs and updating PATCHes a copy of the argument's own
      properties to `/requests`. */
  lemma MutationShapes(arg: Json)
    ensures AddNewRequestQuery(arg).url == "/requests" && AddNewRequestQuery(arg).verb == "POST"
    ensures UpdateRequestQuery(arg).url == "/requests" && UpdateRequestQuery(arg).verb == "PATCH"
    ensures arg.Obj? ==> AddNewRequestQuery(arg).body == arg && UpdateRequestQuery(arg).body == arg
    ensures !arg.Obj? ==> AddNewRequestQuery(arg).body == Obj(map[]) && UpdateRequestQuery(arg).body == Obj(map[])
  {
  }

  /** `deleteRequest`: a DELETE whose body carries only the id. */
  function DeleteRequestQuery(arg: Json): (q: ApiSlice.FetchArgs)
    ensures q.url == "/requests" && q.verb == "DELETE"
    ensures q.body.Obj? && q.body.fields.Keys == {"id"} && q.body.fields["id"] == Get(arg, "id")
  {
    ApiSlice.FetchArgs("/requests", "DELETE", Obj(map["id" := Get(arg, "id")]))
  }

  /** `invalidatesTags` of `updateRequest` and of `deleteRequest`: the one
      tag of the request named by the argument. */
  function InvalidatesTags(arg: Json): (tags: seq<ApiSlice.Tag>)
    ensures |tags| == 1 && tags[0].kind == ApiSlice.RequestTag && tags[0].id == Get(arg, "id")
  {
    [ApiSlice.Tag(ApiSlice.RequestTag, Get(arg, "id"))]
  }

  /** Adding invalidates only the list; an update or delete of an entity
      whose id is not 'LIST' leaves the list tag alone. */
  lemma MutationTags(arg: Json)
    ensures AddNewRequestInvalidates == [ApiSlice.Tag(ApiSlice.RequestTag, Str("LIST"))]
    ensures Get(arg, "id") != Str("LIST") ==> ListTag !in InvalidatesTags(arg)
  {
  }

  /** The adapter keeps each entity under its `id`, which the transform
      set to `_id`: keys are distinct and every defined value sits under
      its own `_id`. */
  predicate KeyedById(state: Entities.EntityState<Request>) {
    && (forall i, j :: 0 <= i < j < |state.entities| ==> state.entities[i].key != state.entities[j].key)
    && (forall i :: 0 <= i < |state.entities| && state.entities[i].value.Some? ==>
          state.entities[i].value.value._id == state.entities[i].key)
  }
}

/** The authenticated request gateway: every API call goes through
    `customBaseQuery`, which attaches the bearer token and, on a 403,
    refreshes the token once and resends the original request once. */
module ApiSlice {
  import opened Values
  import AuthSlice

  /** A request with an explicit URL, method (`verb`) and body. */
  datatype FetchArgs = FetchArgs(url: string, verb: string, body: Json)

  /** The arguments of a base query: a bare URL (sent as a GET) or a full request. */
  datatype Args = Path(url: string) | Fetch(request: FetchArgs)

  /** `error.status`: an HTTP status code, or one of the transport's own
      string codes (a network failure, an unparsable body, ...). */
  datatype Status = Http(code: int) | Transport(kind: string)

  /** The `CustomError` shape: `{ status, data }`. */
  datatype ApiError = ApiError(status: Status, data: Json)

  /** What a base query resolves to: `{ data }` or `{ error }`. */
  datatype QueryResult = Data(data: Json) | Error(error: ApiError)

  type Headers = map<string, string>

  /** One request handed to the transport, with the headers it carried. */
  datatype Outgoing = Outgoing(args: Args, headers: Headers)

  /** The network: the response to the k-th request of one gateway call.
      Indexing by k lets a resent request be answered differently. */
  type Oracle = (nat, Outgoing) -> QueryResult

  /** The outcome of one gateway call: its result, the requests it sent in
      order, and the token stored afterwards. */
  datatype Exchange = Exchange(result: QueryResult, trace: seq<Outgoing>, token: Option<string>)

  /** `tagTypes: ['Request', 'User']`; a tag's id is 'LIST' or an entity id. */
  datatype TagType = RequestTag | UserTag
  datatype Tag = Tag(kind: TagType, id: Json)

  /** How a `validateStatus` callback ends: it accepts the response, refuses
      it (the query then fails with the response's status), or throws, which
      fails the query without an HTTP error. */
  datatype Validation = Accepted | Refused | Thrown

  const RefreshArgs: Args := Path("/auth/refresh")
  const ExpiredMessage: Json := Obj(map["message" := Str("Your login has expired")])

  /** `prepareHeaders`: an `authorization: Bearer <token>` header is set
      exactly when the stored token is truthy; nothing else changes. */
  function PrepareHeaders(headers: Headers, token: Option<string>): (r: Headers)
    ensures Present(token) ==> "authorization" in r && r["authorization"] == "Bearer " + token.value
    ensures !Present(token) ==> r == headers
    ensures forall k :: k in headers && k != "authorization" ==> k in r && r[k] == headers[k]
    ensures forall k :: k in r ==> k in headers || k == "authorization"
  {
    if Present(token) then headers["authorization" := "Bearer " + token.value] else headers
  }

  /** `result?.error?.status === 403`. */
  predicate Forbidden(r: QueryResult) {
    r.Error? && r.error.status == Http(403)
  }

  /** `refreshResult?.data` is truthy. */
  predicate HasData(r: QueryResult) {
    r.Data? && Truthy(r.data)
  }

  /** A forbidden refresh result with its error data overwritten. */
  function Expired(r: QueryResult): QueryResult
    requires r.Error?
  {
    Error(r.error.(data := ExpiredMessage))
  }

  /** The gateway as a function of the request, the stored token and the
      network. */
  function Execute(args: Args, token: Option<string>, respond: Oracle): (x: Exchange)
    ensures 1 <= |x.trace| <= 3
    ensures x.trace[0] == Outgoing(args, PrepareHeaders(map[], token))
    // a first result that is not a 403 is returned unchanged after one call
    ensures !Forbidden(respond(0, x.trace[0])) ==> x == Exchange(respond(0, x.trace[0]), [x.trace[0]], token)
    // a first 403 is always followed by the refresh request
    ensures Forbidden(respond(0, x.trace[0])) ==>
      |x.trace| >= 2 && x.trace[1] == Outgoing(RefreshArgs, PrepareHeaders(map[], token))
    // a refresh with data stores its token and resends the original once, whatever the second result
    ensures |x.trace| >= 2 && HasData(respond(1, x.trace[1])) ==>
      && |x.trace| == 3
      && x.token == AuthSlice.AccessTokenOf(Spread(respond(1, x.trace[1]).data))
      && x.trace[2] == Outgoing(args, PrepareHeaders(map[], x.token))
      && x.result == respond(2, x.trace[2])
    // a refresh without data is returned, rewritten only when it is a 403, and nothing is resent
    ensures |x.trace| >= 2 && !HasData(respond(1, x.trace[1])) ==>
      && |x.trace| == 2
      && x.token == token
      && x.result == (if Forbidden(respond(1, x.trace[1])) then Expired(respond(1, x.trace[1]))
                      else respond(1, x.trace[1]))
    // the token is written only on the refresh-success branch
    ensures x.token != token ==> |x.trace| == 3
  {
    var first := Outgoing(args, PrepareHeaders(map[], token));
    var result := respond(0, first);
    if !Forbidden(result) then Exchange(result, [first], token)
    else
      var refresh := Outgoing(RefreshArgs, PrepareHeaders(map[], token));
      var refreshResult := respond(1, refresh);
      if HasData(refreshResult) then
        var token' := AuthSlice.AccessTokenOf(Spread(refreshResult.data));
        var retry := Outgoing(args, PrepareHeaders(map[], token'));
        Exchange(respond(2, retry), [first, refresh, retry], token')
      else if Forbidden(refreshResult) then
        Exchange(Expired(refreshResult), [first, refresh], token)
      else
        Exchange(refreshResult, [first, refresh], token)
  }

  /** `customBaseQuery`: each request reads the token from the store when
      it is prepared, and a successful refresh writes the store. */
  method CustomBaseQuery(args: Args, auth: AuthSlice.AuthState, respond: Oracle)
    returns (result: QueryResult, trace: seq<Outgoing>)
    modifies auth
    ensures Exchange(result, trace, auth.token) == Execute(args, old(auth.token), respond)
  {
    var sent := Outgoing(args, PrepareHeaders(map[], auth.token));
    trace := [sent];
    result := respond(0, sent);
    if Forbidden(result) {
      var refresh := Outgoing(RefreshArgs, PrepareHeaders(map[], auth.token));
      trace := trace + [refresh];
      var refreshResult := respond(1, refresh);
      if HasData(refreshResult) {
        auth.SetCredentials(Spread(refreshResult.data));
        var retry := Outgoing(args, PrepareHeaders(map[], auth.token));
        trace := trace + [retry];
        result := respond(2, retry);
      } else {
        if Forbidden(refreshResult) {
          refreshResult := Error(refreshResult.error.(data := ExpiredMessage));
        }
        return refreshResult, trace;
      }
    }
  }

  /** A status as a displayable value. */
  function StatusValue(s: Status): Json {
    match s
    case Http(code) => Num(code)
    case Transport(kind) => Str(kind)
  }

  /** `error?.data?.message || error?.status`: the text the lists and forms
      show for a failed query. */
  function ErrorText(err: ApiError): (r: Json)
    ensures Truthy(Get(err.data, "message")) ==> r == Get(err.data, "message")
    ensures !Truthy(Get(err.data, "message")) ==> r == StatusValue(err.status)
  {
    var message := Get(err.data, "message");
    if Truthy(message) then message else StatusValue(err.status)
  }

  /** `error?.data?.message` of a mutation's error, absent when it has none. */
  function MessageOf(error: Option<ApiError>): Json {
    if error.Some? then Get(error.value.data, "message") else Undefined
  }

  /** `error?.status`. */
  function StatusOf(error: Option<ApiError>): Json {
    if error.Some? then StatusValue(error.value.status) else Undefined
  }

  /** The forms' error line, `(error?.data?.message ||
      delError?.data?.message || error?.status) ?? ''`: the save's message,
      else the delete's message, else the save's status, else nothing. A
      form without a delete mutation passes `None` for `delError`. */
  function FormErrorText(error: Option<ApiError>, delError: Option<ApiError>): (r: Json)
    ensures Truthy(MessageOf(error)) ==> r == MessageOf(error)
    ensures !Truthy(MessageOf(error)) && Truthy(MessageOf(delError)) ==> r == MessageOf(delError)
    ensures !Truthy(MessageOf(error)) && !Truthy(MessageOf(delError)) ==>
      r == (if error.Some? then StatusValue(error.value.status) else Str(""))
  {
    Coalesce(Or(Or(MessageOf(error), MessageOf(delError)), StatusOf(error)), Str(""))
  }

  /** When the refresh itself is refused, the caller is shown
      'Your login has expired', whatever data the refusal carried. */
  lemma ExpiredSessionText(args: Args, token: Option<string>, respond: Oracle)
    requires Forbidden(respond(0, Outgoing(args, PrepareHeaders(map[], token))))
    requires Forbidden(respond(1, Outgoing(RefreshArgs, PrepareHeaders(map[], token))))
    ensures var x := Execute(args, token, respond);
      x.result.Error? && x.result.error.status == Http(403)
      && ErrorText(x.result.error) == Str("Your login has expired")
      && |x.trace| == 2
  {
  }
}

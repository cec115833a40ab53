/** The credential store: the `auth` slice of the Redux store, which holds
    the current access token in memory only. */
module AuthSlice {
  import opened Values

  /** `const { accessToken } = action.payload`. A payload without a string
      `accessToken` leaves the store without a token. */
  function AccessTokenOf(payload: Json): (t: Option<string>)
    ensures t.Some? <==> Get(payload, "accessToken").Str?
    ensures t.Some? ==> Get(payload, "accessToken") == Str(t.value)
  {
    match Get(payload, "accessToken")
    case Str(s) => Some(s)
    case _ => None
  }

  /** The two reducers of the slice. */
  datatype Action = SetCredentials(payload: Json) | LogOut

  /** The token after the reducer for `action` has run on `token`. */
  function Reduce(token: Option<string>, action: Action): (t: Option<string>)
    ensures action.LogOut? ==> t == None
    ensures action.SetCredentials? ==> t == AccessTokenOf(action.payload)
  {
    match action
    case SetCredentials(payload) => AccessTokenOf(payload)
    case LogOut => None
  }

  /** The slice's state: one field, written by the two reducers. */
  class AuthState {
    var token: Option<string>

    /** `initialState: { token: null }`. */
    constructor ()
      ensures token == None
      ensures SelectCurrentToken() == None
    {
      token := None;
    }

    method SetCredentials(payload: Json)
      modifies this
      ensures token == Reduce(old(token), Action.SetCredentials(payload))
      ensures SelectCurrentToken() == AccessTokenOf(payload)
    {
      token := AccessTokenOf(payload);
    }

    method LogOut()
      modifies this
      ensures token == Reduce(old(token), Action.LogOut)
      ensures SelectCurrentToken() == None
    {
      token := None;
    }

    /** `selectCurrentToken`. */
    function SelectCurrentToken(): Option<string>
      reads this
    {
      token
    }
  }

  /** `setCredentials` overwrites whatever token was stored, so applying it
      twice with one payload is the same as applying it once. */
  lemma SetCredentialsIdempotent(token: Option<string>, payload: Json)
    ensures Reduce(Reduce(token, SetCredentials(payload)), SetCredentials(payload))
         == Reduce(token, SetCredentials(payload))
    ensures Reduce(token, SetCredentials(payload)) == Reduce(None, SetCredentials(payload))
  {
  }
}

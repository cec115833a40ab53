/** The login screen: the submit handler, its error classification, the
    error reset on every edit, and the "Trust This Device" toggle. */
module Login {
  import opened Values
  import AuthSlice
  import AuthApiSlice
  import ApiSlice

  /** The value thrown when `const { accessToken } = ...` meets a `null` or
      `undefined` body: a TypeError, which has no `status`. */
  const TypeError: Json := Obj(map["name" := Str("TypeError")])

  /** The message `handleSubmit` shows for the thrown value `err`. The 400
      and 401 cases look at `err.response?.status`, not at `err.status`. */
  function ErrorMessage(err: Json): (msg: Json)
    ensures !Truthy(Get(err, "status")) ==> msg == Str("No Server Response")
    ensures Truthy(Get(err, "status")) && Get(Get(err, "response"), "status") == Num(400) ==>
      msg == Str("Missing Username or Password")
    ensures Truthy(Get(err, "status")) && Get(Get(err, "response"), "status") == Num(401) ==>
      msg == Str("Unauthorized")
    ensures (Truthy(Get(err, "status")) && Get(Get(err, "response"), "status") != Num(400)
             && Get(Get(err, "response"), "status") != Num(401)) ==>
      msg == Get(Get(err, "data"), "message")
  {
    if !Truthy(Get(err, "status")) then Str("No Server Response")
    else if Get(Get(err, "response"), "status") == Num(400) then Str("Missing Username or Password")
    else if Get(Get(err, "response"), "status") == Num(401) then Str("Unauthorized")
    else Get(Get(err, "data"), "message")
  }

  /** A rejected login mutation throws the query's `{ status, data }` error,
      which has no `response` property: such an error is shown either as
      'No Server Response' or as its own `data.message`, never as one of
      the 400 or 401 texts, whatever its status. */
  lemma QueryErrorsSkipStatusTexts(status: Json, data: Json)
    ensures var msg := ErrorMessage(Obj(map["status" := status, "data" := data]));
      msg == (if Truthy(status) then Get(data, "message") else Str("No Server Response"))
  {
  }

  class LoginForm {
    var username: string
    var password: string
    /** Shown as `errMsg ?? ''`; `undefined` when the server sent no message. */
    var errMsg: Json
    /** The persistence preference, kept by `usePersist`. */
    var persist: bool

    constructor (persist: bool)
      ensures username == "" && password == "" && errMsg == Str("") && this.persist == persist
    {
      username := "";
      password := "";
      errMsg := Str("");
      this.persist := persist;
    }

    /** The username field's `onChange`, followed by the effect on
        `[username, password]`, which runs only when a value changed. */
    method SetUsername(value: string)
      modifies this
      ensures username == value && password == old(password) && persist == old(persist)
      ensures errMsg == if value != old(username) then Str("") else old(errMsg)
    {
      var changed := value != username;
      username := value;
      if changed {
        errMsg := Str("");
      }
    }

    /** The password field's `onChange`, followed by the same effect. */
    method SetPassword(value: string)
      modifies this
      ensures password == value && username == old(username) && persist == old(persist)
      ensures errMsg == if value != old(password) then Str("") else old(errMsg)
    {
      var changed := value != password;
      password := value;
      if changed {
        errMsg := Str("");
      }
    }

    /** `handlePersist` flips the preference. */
    method HandlePersist()
      modifies this
      ensures persist == !old(persist)
      ensures username == old(username) && password == old(password) && errMsg == old(errMsg)
    {
      persist := !persist;
    }

    /** `handleSubmit`, given how the login request settled. Returns the
        request sent and the route navigated to, if any. */
    method HandleSubmit(outcome: Settled, auth: AuthSlice.AuthState)
      returns (sent: ApiSlice.FetchArgs, navigateTo: Option<string>)
      modifies this, auth
      ensures sent == AuthApiSlice.LoginQuery(Obj(map["username" := Str(old(username)), "password" := Str(old(password))]))
      ensures persist == old(persist)
      // success: store the token, clear both fields, go home
      ensures outcome.Fulfilled? && outcome.data != Null && outcome.data != Undefined ==>
        && auth.token == AuthSlice.AccessTokenOf(outcome.data)
        && username == "" && password == ""
        && errMsg == (if old(username) != "" || old(password) != "" then Str("") else old(errMsg))
        && navigateTo == Some("/home")
      // failure: show the classified message, leave everything else alone
      ensures outcome.Rejected? ==>
        && errMsg == ErrorMessage(outcome.reason)
        && username == old(username) && password == old(password)
        && auth.token == old(auth.token) && navigateTo == None
      ensures outcome.Fulfilled? && (outcome.data == Null || outcome.data == Undefined) ==>
        && errMsg == Str("No Server Response")
        && username == old(username) && password == old(password)
        && auth.token == old(auth.token) && navigateTo == None
    {
      sent := AuthApiSlice.LoginQuery(Obj(map["username" := Str(username), "password" := Str(password)]));
      if outcome.Fulfilled? && outcome.data != Null && outcome.data != Undefined {
        auth.SetCredentials(Obj(map["accessToken" := Get(outcome.data, "accessToken")]));
        SetUsername("");
        SetPassword("");
        navigateTo := Some("/home");
      } else {
        var err := if outcome.Rejected? then outcome.reason else TypeError;
        errMsg := ErrorMessage(err);
        navigateTo := None;
      }
    }
  }
}

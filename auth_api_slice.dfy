/** The session endpoints (`login`, `sendLogout`, `refresh`) and the
    store updates their completion triggers. Time is modelled as the order
    of events: scheduled timers fire later, oldest first. */
module AuthApiSlice {
  import opened Values
  import AuthSlice
  import ApiSlice

  /** `login`: a POST of the credentials to `/auth`. */
  function LoginQuery(body: Json): ApiSlice.FetchArgs {
    ApiSlice.FetchArgs("/auth", "POST", body)
  }

  /** `sendLogout`: a POST to `/auth/logout`. */
  function SendLogoutQuery(): ApiSlice.FetchArgs {
    ApiSlice.FetchArgs("/auth/logout", "POST", Undefined)
  }

  /** `refresh`: a GET of `/auth/refresh`. */
  function RefreshQuery(): ApiSlice.FetchArgs {
    ApiSlice.FetchArgs("/auth/refresh", "GET", Undefined)
  }

  lemma EndpointShapes(body: Json)
    ensures LoginQuery(body).url == "/auth" && LoginQuery(body).verb == "POST" && LoginQuery(body).body == body
    ensures SendLogoutQuery().url == "/auth/logout" && SendLogoutQuery().verb == "POST"
    ensures RefreshQuery().url == "/auth/refresh" && RefreshQuery().verb == "GET"
    ensures RefreshQuery().url == ApiSlice.RefreshArgs.url
  {
  }

  /** The actions the session effects dispatch. */
  datatype StoreAction = Auth(action: AuthSlice.Action) | ResetApiState

  /** Every `resetApiState` in `log` comes after some `logOut`. */
  ghost predicate ResetsFollowLogOut(log: seq<StoreAction>) {
    forall i :: 0 <= i < |log| && log[i] == ResetApiState ==>
      exists j :: 0 <= j < i && log[j] == Auth(AuthSlice.LogOut)
  }

  /** Appending an action keeps the order: a reset may be appended only
      once a logout has been dispatched. */
  lemma {:induction false} AppendKeepsOrder(log: seq<StoreAction>, a: StoreAction)
    requires ResetsFollowLogOut(log)
    requires a == ResetApiState ==> Auth(AuthSlice.LogOut) in log
    ensures ResetsFollowLogOut(log + [a])
  {
    var log' := log + [a];
    forall i | 0 <= i < |log'| && log'[i] == ResetApiState
      ensures exists j :: 0 <= j < i && log'[j] == Auth(AuthSlice.LogOut)
    {
      if i < |log| {
        var j :| 0 <= j < i && log[j] == Auth(AuthSlice.LogOut);
        assert log'[j] == log[j];
      } else {
        var j :| 0 <= j < |log| && log[j] == Auth(AuthSlice.LogOut);
        assert log'[j] == log[j];
      }
    }
  }

  /** The store as the session effects see it: the auth slice, the actions
      dispatched so far, and the callbacks waiting on a timer (all with the
      same 1000 ms delay, so they fire in the order they were scheduled). */
  class Effects {
    const auth: AuthSlice.AuthState
    var dispatched: seq<StoreAction>
    var timers: seq<StoreAction>

    /** A reset is never dispatched before a logout, and none is pending
        without one. */
    ghost predicate Valid()
      reads this
    {
      && ResetsFollowLogOut(dispatched)
      && (ResetApiState in timers ==> Auth(AuthSlice.LogOut) in dispatched)
    }

    constructor (auth: AuthSlice.AuthState)
      ensures this.auth == auth && dispatched == [] && timers == [] && Valid()
    {
      this.auth := auth;
      dispatched := [];
      timers := [];
    }

    /** `sendLogout.onQueryStarted`, resumed once the logout request
        settled. On success the token is cleared at once and the cache reset
        is only scheduled; on failure nothing is dispatched. */
    method SendLogoutSettled(outcome: Settled)
      requires Valid()
      modifies this, auth
      ensures Valid()
      ensures outcome.Fulfilled? ==>
        && auth.token == None
        && dispatched == old(dispatched) + [Auth(AuthSlice.LogOut)]
        && timers == old(timers) + [ResetApiState]
      ensures outcome.Rejected? ==>
        auth.token == old(auth.token) && dispatched == old(dispatched) && timers == old(timers)
    {
      if outcome.Fulfilled? {
        AppendKeepsOrder(dispatched, Auth(AuthSlice.LogOut));
        auth.LogOut();
        dispatched := dispatched + [Auth(AuthSlice.LogOut)];
        timers := timers + [ResetApiState];
      }
    }

    /** `refresh.onQueryStarted`, resumed once the refresh request settled.
        Destructuring `accessToken` out of a `null` or `undefined` body
        throws, which the handler catches like a rejection. */
    method RefreshSettled(outcome: Settled)
      requires Valid()
      modifies this, auth
      ensures Valid() && timers == old(timers)
      ensures outcome.Fulfilled? && outcome.data != Null && outcome.data != Undefined ==>
        && auth.token == AuthSlice.AccessTokenOf(outcome.data)
        && dispatched == old(dispatched) +
             [Auth(AuthSlice.SetCredentials(Obj(map["accessToken" := Get(outcome.data, "accessToken")])))]
      ensures outcome.Rejected? || outcome.data == Null || outcome.data == Undefined ==>
        auth.token == old(auth.token) && dispatched == old(dispatched)
    {
      if outcome.Fulfilled? && outcome.data != Null && outcome.data != Undefined {
        var payload := Obj(map["accessToken" := Get(outcome.data, "accessToken")]);
        AppendKeepsOrder(dispatched, Auth(AuthSlice.SetCredentials(payload)));
        auth.SetCredentials(payload);
        dispatched := dispatched + [Auth(AuthSlice.SetCredentials(payload))];
      }
    }

    /** The oldest pending timer fires and dispatches its action. */
    method FireTimer() returns (fired: bool)
      requires Valid()
      modifies this
      ensures Valid()
      ensures fired <==> old(timers) != []
      ensures fired ==> dispatched == old(dispatched) + [old(timers)[0]] && timers == old(timers)[1..]
      ensures !fired ==> dispatched == old(dispatched) && timers == old(timers)
    {
      fired := timers != [];
      if fired {
        var action := timers[0];
        AppendKeepsOrder(dispatched, action);
        dispatched := dispatched + [action];
        timers := timers[1..];
        assert |old(timers)| >= 1 && old(timers) == [action] + timers;
      }
    }
  }
}

/**
 * The signed-in state of the frontend (`AuthContext.jsx`): the token kept in
 * the browser's storage and in the component's state, the current user and
 * the loading flag. The two HTTP calls are parameters: the user `/users/me`
 * returned (`None` when it failed) and the answer of `/token`.
 */
module AuthContext {
  import opened Wrappers
  import opened Models

  /** `isAdmin` as the context computes it: `user?.role === 'admin'`. */
  predicate IsAdminUser(user: Option<User>) { user.Some? && user.value.role == "admin" }

  /** What a failed login rethrows: the server's error body when there is one. */
  const LoginFailed: string := "Login failed"

  class AuthState {
    /** `localStorage['token']`. */
    var storedToken: Option<string>
    var token: Option<string>
    var user: Option<User>
    var loading: bool

    /** The token and the storage agree; a known user always came with a token. */
    predicate Valid()
      reads this
    {
      token == storedToken && (user.Some? ==> token.Some?)
    }

    predicate IsAdmin()
      reads this
    {
      IsAdminUser(user)
    }

    /** The provider mounts with the stored token, no user, and loading. */
    constructor (stored: Option<string>)
      ensures storedToken == stored && token == stored && user == None && loading
      ensures Valid()
    {
      storedToken := stored;
      token := stored;
      user := None;
      loading := true;
    }

    /** `logout`: the token leaves the storage and the state, and so does the user. */
    method Logout()
      modifies this
      ensures storedToken == None && token == None && user == None
      ensures loading == old(loading)
      ensures Valid()
    {
      storedToken := None;
      token := None;
      user := None;
    }

    /**
     * `fetchUser`: the user `/users/me` returned, or a logout when the call
     * failed; loading is over either way.
     */
    method FetchUser(fetched: Option<User>) returns (r: Option<User>)
      requires Valid() && token.Some?
      modifies this
      ensures r == fetched && user == fetched && !loading
      ensures fetched.Some? ==> token == old(token) && storedToken == old(storedToken)
      ensures fetched.None? ==> token == None && storedToken == None
      ensures Valid()
    {
      if fetched.Some? {
        user := fetched;
        r := fetched;
      } else {
        Logout();
        r := None;
      }
      loading := false;
    }

    /** The mount effect: a user fetch when there is a token, else loading simply ends. */
    method Start(fetched: Option<User>)
      requires Valid()
      modifies this
      ensures !loading && Valid()
      ensures !Truthy(old(token)) ==> user == old(user) && token == old(token) && storedToken == old(storedToken)
      ensures Truthy(old(token)) ==> user == fetched
      ensures Truthy(old(token)) && fetched.Some? ==> token == old(token) && storedToken == old(storedToken)
      ensures Truthy(old(token)) && fetched.None? ==> token == None && storedToken == None
    {
      if Truthy(token) {
        var _ := FetchUser(fetched);
      } else {
        loading := false;
      }
    }

    /**
     * `login`: `answer` is the access token `/token` issued, or the failure
     * with the server's error detail when it sent one. On success the token
     * is stored before the user is fetched; on failure nothing changes and
     * the detail, or "Login failed", is thrown.
     */
    method Login(answer: Result<string, Option<string>>, fetched: Option<User>) returns (r: Result<Option<User>, string>)
      requires Valid()
      modifies this
      ensures answer.Err? ==>
        && r == Err(answer.error.GetOr(LoginFailed))
        && token == old(token) && storedToken == old(storedToken) && user == old(user) && loading == old(loading)
      ensures answer.Ok? && fetched.Some? ==>
        r == Ok(fetched) && token == Some(answer.value) && storedToken == token && user == fetched && !loading
      ensures answer.Ok? && fetched.None? ==>
        r == Ok(None) && token == None && storedToken == None && user == None && !loading
      ensures Valid()
    {
      if answer.Err? {
        return Err(answer.error.GetOr(LoginFailed));
      }
      storedToken := Some(answer.value);
      token := Some(answer.value);
      var u := FetchUser(fetched);
      r := Ok(u);
    }
  }

  /**
   * A user signs in, the page is reloaded, and the stored token brings the
   * same user back (the server's tokens are never empty).
   */
  method ReloadKeepsSession(accessToken: string, me: User) returns (before: AuthState, after: AuthState)
    requires accessToken != ""
    ensures before.user == Some(me) && after.user == Some(me)
    ensures after.token == Some(accessToken) && !after.loading
  {
    before := new AuthState(None);
    var _ := before.Login(Ok(accessToken), Some(me));
    after := new AuthState(before.storedToken);
    after.Start(Some(me));
  }
}

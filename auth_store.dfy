// The SPA's authentication store: three fields changed in place by three
// mutations, and the actions that commit them. HTTP requests and browser
// storage are left to the caller; their outcomes are inputs.

module AuthStore {
  import opened JsText

  datatype User = User(id: string, name: string, email: string, provider: string,
                       tenantId: Option<string>, userId: Option<string>)

  /** The user `login` installs until the real profile is fetched. */
  const Placeholder := User("temp", "Loading...", "Loading...", "google", None, None)

  class AuthState {
    var token: Option<string>
    var user: Option<User>
    var isAuthenticated: bool

    /** Every mutation keeps `isAuthenticated` true exactly when a user is set. */
    ghost predicate Valid()
      reads this
    {
      isAuthenticated <==> user.Some?
    }

    /** The initial state: the token found in storage, but no user and not authenticated. */
    constructor (storedToken: Option<string>)
      ensures Valid()
      ensures token == storedToken && user == None && !isAuthenticated
    {
      token := storedToken;
      user := None;
      isAuthenticated := false;
    }

    /** `SET_TOKEN`: changes the token only. */
    method SetToken(t: string)
      requires Valid()
      modifies this
      ensures Valid()
      ensures token == Some(t) && user == old(user) && isAuthenticated == old(isAuthenticated)
    {
      token := Some(t);
    }

    /** `SET_USER`: sets the user and marks the state authenticated; the token is kept. */
    method SetUser(u: User)
      requires Valid()
      modifies this
      ensures Valid()
      ensures user == Some(u) && isAuthenticated && token == old(token)
    {
      user := Some(u);
      isAuthenticated := true;
    }

    /** `CLEAR_AUTH`: no token, no user, not authenticated. */
    method ClearAuth()
      requires Valid()
      modifies this
      ensures Valid()
      ensures token == None && user == None && !isAuthenticated
    {
      token := None;
      user := None;
      isAuthenticated := false;
    }

    /** `login`: stores the token, installs the placeholder user and returns it. */
    method Login(t: string) returns (u: Option<User>)
      requires Valid()
      modifies this
      ensures Valid()
      ensures token == Some(t) && isAuthenticated && user == Some(Placeholder)
      ensures u == user
    {
      SetToken(t);
      SetUser(Placeholder);
      u := user;
    }

    /**
     * `checkAuth`. Without a (non-empty) token it returns null and changes
     * nothing. Otherwise `profile` is the answer of `/auth/me`, `None` when
     * the request fails: a profile becomes the user, a failure clears the state.
     */
    method CheckAuth(profile: Option<User>) returns (r: Option<User>)
      requires Valid()
      modifies this
      ensures Valid()
      ensures !Truthy(old(token)) ==> r == None && unchanged(this)
      ensures Truthy(old(token)) && profile.Some? ==>
        r == profile && user == profile && isAuthenticated && token == old(token)
      ensures Truthy(old(token)) && profile.None? ==>
        r == None && token == None && user == None && !isAuthenticated
    {
      if !Truthy(token) {
        return None;
      }
      if profile.Some? {
        SetUser(profile.value);
        return profile;
      }
      ClearAuth();
      return None;
    }

    /**
     * `logout`: the state ends cleared whether or not the request fails.
     * `requestFails` is the outcome of the logout request; it is never read,
     * because the outcome does not depend on it.
     */
    method Logout(requestFails: bool)
      requires Valid()
      modifies this
      ensures Valid()
      ensures token == None && user == None && !isAuthenticated
    {
      ClearAuth();
    }
  }
}

/**
 * The front end's session store: the token, the signed-in user and the
 * `isAuthenticated` flag, kept in step with the `authToken` entry of the
 * browser's local storage. During server-side rendering there is no window,
 * so the storage is neither read nor written.
 */
module AuthStore {
  import opened Common

  datatype User = User(username: string, fullName: Option<string>, role: string, isActive: bool)

  /** Everything the store and the storage entry hold. */
  datatype Session = Session(token: Option<string>, user: Option<User>, isAuthenticated: bool,
                             stored: Option<string>)

  /** JavaScript truthiness of `string | null`: the empty string counts as no token. */
  predicate Present(t: Option<string>) {
    t.Some? && t.value != ""
  }

  /** `getToken()`: the storage entry, or `null` without a window. */
  function GetToken(hasWindow: bool, stored: Option<string>): Option<string> {
    if hasWindow then stored else None
  }

  /** The state after `login(token, user)`. */
  function AfterLogin(s: Session, hasWindow: bool, token: string, user: User): Session {
    Session(Some(token), Some(user), true, if hasWindow then Some(token) else s.stored)
  }

  /** The state after `logout()`. */
  function AfterLogout(s: Session, hasWindow: bool): Session {
    Session(None, None, false, if hasWindow then None else s.stored)
  }

  /** The state after `initialize()`, where `profile` is what `getMe()` resolves to (`None` when it rejects). */
  function AfterInitialize(s: Session, hasWindow: bool, profile: Option<User>): Session {
    if Present(GetToken(hasWindow, s.stored)) then
      if profile.Some? then s.(user := profile, isAuthenticated := true)
      else AfterLogout(s, hasWindow)
    else s.(token := None, user := None, isAuthenticated := false)
  }

  predicate LoggedOut(s: Session) {
    s.token.None? && s.user.None? && !s.isAuthenticated
  }

  /** Logging out twice is logging out once, and it always leaves the store logged out. */
  lemma LogoutIdempotent(s: Session, hasWindow: bool)
    ensures AfterLogout(AfterLogout(s, hasWindow), hasWindow) == AfterLogout(s, hasWindow)
    ensures LoggedOut(AfterLogout(s, hasWindow))
    ensures hasWindow ==> AfterLogout(s, hasWindow).stored.None?
  {
  }

  /**
   * `initialize` without a stored token leaves the store logged out; with one it keeps the token
   * field untouched and either records the profile or, when the profile cannot be fetched, logs out.
   */
  lemma InitializeSpec(s: Session, hasWindow: bool, profile: Option<User>)
    ensures !Present(GetToken(hasWindow, s.stored)) ==>
      LoggedOut(AfterInitialize(s, hasWindow, profile)) && AfterInitialize(s, hasWindow, profile).stored == s.stored
    ensures Present(GetToken(hasWindow, s.stored)) && profile.Some? ==>
      AfterInitialize(s, hasWindow, profile) == Session(s.token, profile, true, s.stored)
    ensures Present(GetToken(hasWindow, s.stored)) && profile.None? ==>
      AfterInitialize(s, hasWindow, profile) == AfterLogout(s, hasWindow)
  {
  }

  /** Running `initialize` again with the same answer from the server changes nothing more. */
  lemma InitializeIdempotent(s: Session, hasWindow: bool, profile: Option<User>)
    ensures var once := AfterInitialize(s, hasWindow, profile);
      AfterInitialize(once, hasWindow, profile) == once
  {
    var once := AfterInitialize(s, hasWindow, profile);
    if Present(GetToken(hasWindow, s.stored)) && profile.None? {
      assert !Present(GetToken(hasWindow, once.stored)) || !hasWindow;
    }
  }

  /**
   * In the browser, a session begun with `login` survives a reload: `initialize` with a profile keeps
   * the token and signs in the new profile, and a rejected profile clears both the store and the storage.
   */
  lemma LoginThenInitialize(s: Session, token: string, user: User, profile: Option<User>)
    requires token != ""
    ensures var after := AfterInitialize(AfterLogin(s, true, token, user), true, profile);
      && (profile.Some? ==> after == Session(Some(token), profile, true, Some(token)))
      && (profile.None? ==> after == Session(None, None, false, None))
  {
  }

  /** After logging out in the browser, `initialize` cannot sign anybody in. */
  lemma LogoutThenInitialize(s: Session, profile: Option<User>)
    ensures LoggedOut(AfterInitialize(AfterLogout(s, true), true, profile))
  {
  }

  /** The store object; `stored` is the `authToken` entry of local storage. */
  class Store {
    var token: Option<string>
    var user: Option<User>
    var isAuthenticated: bool
    var stored: Option<string>
    const hasWindow: bool

    function State(): Session
      reads this
    {
      Session(token, user, isAuthenticated, stored)
    }

    /** The initial state: the token read from storage, no user, authenticated iff that token is non-empty. */
    constructor(hasWindow: bool, stored: Option<string>)
      ensures this.hasWindow == hasWindow
      ensures State() == Session(GetToken(hasWindow, stored), None, Present(GetToken(hasWindow, stored)), stored)
    {
      this.hasWindow := hasWindow;
      this.stored := stored;
      token := if hasWindow then stored else None;
      user := None;
      isAuthenticated := hasWindow && stored.Some? && stored.value != "";
    }

    method Login(t: string, u: User)
      modifies this
      ensures State() == AfterLogin(old(State()), hasWindow, t, u)
    {
      if hasWindow {
        stored := Some(t);
      }
      token, user, isAuthenticated := Some(t), Some(u), true;
    }

    method Logout()
      modifies this
      ensures State() == AfterLogout(old(State()), hasWindow)
    {
      if hasWindow {
        stored := None;
      }
      token, user, isAuthenticated := None, None, false;
    }

    /** `initialize`; the awaited `getMe()` is the `profile` parameter. */
    method Initialize(profile: Option<User>)
      modifies this
      ensures State() == AfterInitialize(old(State()), hasWindow, profile)
    {
      var t := if hasWindow then stored else None;
      if t.Some? && t.value != "" {
        if profile.Some? {
          user, isAuthenticated := profile, true;
        } else {
          Logout();
        }
      } else {
        token, user, isAuthenticated := None, None, false;
      }
    }
  }
}

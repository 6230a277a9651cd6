/** The page that gates the console: it shows the login form until a session
    token is known and the dashboard afterwards. The browser's localStorage is
    the map `store`; the login handler of the form is the method HandleLogin. */
module IndexPage {

  import opened AdminAuth
  import opened Toasts

  datatype Option<T> = None | Some(value: T)

  /** The one storage key the console uses. */
  const TokenKey: string := "admin_token"

  datatype Screen = LoginForm | DashboardScreen

  /** localStorage.getItem: the stored string, or null when the key is absent. */
  function GetItem(store: map<string, string>, key: string): (v: Option<string>)
    ensures v.Some? <==> key in store
    ensures v.Some? ==> v.value == store[key]
  {
    if key in store then Some(store[key]) else None
  }

  /** JavaScript truthiness of a `string | null`: null and "" are falsy. */
  predicate Truthy(v: Option<string>) {
    v.Some? && v.value != ""
  }

  /** The session a page load restores from `store`: the saved token when it
      is present and non-empty, and none otherwise. Presence is all that is
      checked; the token is never validated. */
  function StoredSession(store: map<string, string>): (session: Option<string>)
    ensures session.Some? <==> TokenKey in store && store[TokenKey] != ""
    ensures session.Some? ==> session.value == store[TokenKey]
  {
    var saved := GetItem(store, TokenKey);
    if Truthy(saved) then saved else None
  }

  /** A store written by a successful login restores that login's token. */
  lemma LoginThenRestore(store: map<string, string>, now: nat)
    requires now <= MaxTimeValue
    ensures StoredSession(store[TokenKey := MintToken(now)]) == Some(MintToken(now))
  {
  }

  /** A store cleared by logout restores no session. */
  lemma LogoutThenRestore(store: map<string, string>)
    ensures StoredSession(store - {TokenKey}) == None
  {
  }

  class Gate {
    var isAuthenticated: bool
    var authToken: Option<string>
    /** The browser's localStorage. */
    var store: map<string, string>
    /** The login form's busy flag. */
    var isLoading: bool
    /** Toasts raised so far. */
    var notices: seq<Notice>

    /** The page is authenticated exactly when it holds a token. */
    ghost predicate Valid()
      reads this
    {
      isAuthenticated <==> authToken.Some?
    }

    /** The token in memory is the one a reload would restore from storage. */
    ghost predicate InSync()
      reads this
    {
      authToken == StoredSession(store)
    }

    /** Mounting the page: both state hooks start at their initial values;
        the browser's storage is whatever earlier visits left in it. */
    constructor (store: map<string, string>)
      ensures Valid()
      ensures !isAuthenticated && authToken == None
      ensures this.store == store && !isLoading && notices == []
    {
      isAuthenticated := false;
      authToken := None;
      this.store := store;
      isLoading := false;
      notices := [];
    }

    /** The startup effect: a non-empty saved token authenticates the page. */
    method Restore()
      requires Valid()
      modifies this`isAuthenticated, this`authToken
      ensures Valid()
      ensures StoredSession(store).Some? ==> isAuthenticated && authToken == StoredSession(store)
      ensures StoredSession(store).None? ==>
                isAuthenticated == old(isAuthenticated) && authToken == old(authToken)
      ensures !old(isAuthenticated) ==> InSync()
    {
      var savedToken := GetItem(store, TokenKey);
      if Truthy(savedToken) {
        authToken := savedToken;
        isAuthenticated := true;
      }
    }

    /** The form's onAuth callback: adopt `token` as the session. */
    method HandleAuth(token: string)
      modifies this`isAuthenticated, this`authToken
      ensures Valid()
      ensures isAuthenticated && authToken == Some(token)
    {
      authToken := Some(token);
      isAuthenticated := true;
    }

    /** The dashboard's logout button: forget the token, in storage and in
        memory. No other storage entry is touched. */
    method HandleLogout()
      modifies this`store, this`isAuthenticated, this`authToken
      ensures Valid() && InSync()
      ensures !isAuthenticated && authToken == None
      ensures store == old(store) - {TokenKey}
      ensures TokenKey !in store
      ensures forall k :: k != TokenKey ==>
                (k in store <==> k in old(store)) && (k in store ==> store[k] == old(store)[k])
    {
      store := store - {TokenKey};
      authToken := None;
      isAuthenticated := false;
    }

    /** Submitting the login form at time `now` with the form's current
        `email` and `password`. On a match a token is minted, saved and handed
        to onAuth; otherwise the same failure notice is raised whichever field
        was wrong and nothing else changes. Either way the form is no longer
        busy afterwards. */
    method HandleLogin(email: string, password: string, now: nat)
      requires Valid()
      requires now <= MaxTimeValue
      modifies this
      ensures Valid() && !isLoading
      ensures CredentialsMatch(email, password) ==>
                && store == old(store)[TokenKey := MintToken(now)]
                && isAuthenticated && authToken == Some(MintToken(now))
                && notices == old(notices) + [LoginSucceeded]
                && InSync()
      ensures !CredentialsMatch(email, password) ==>
                && store == old(store)
                && isAuthenticated == old(isAuthenticated) && authToken == old(authToken)
                && notices == old(notices) + [LoginFailed]
                && (old(InSync()) ==> InSync())
    {
      isLoading := true;
      if CredentialsMatch(email, password) {
        var mockToken := MintToken(now);
        store := store[TokenKey := mockToken];
        HandleAuth(mockToken);
        notices := notices + [LoginSucceeded];
      } else {
        notices := notices + [LoginFailed];
      }
      isLoading := false;
    }

    /** What the page renders: the login form while unauthenticated, the
        dashboard otherwise. */
    function View(): (screen: Screen)
      reads this
      requires Valid()
      ensures screen == LoginForm <==> !isAuthenticated
      ensures screen == LoginForm <==> authToken == None
    {
      if !isAuthenticated then LoginForm else DashboardScreen
    }
  }

  /** A visit: wrong password, right credentials, a reload, then logout. */
  method VisitScenario(now: nat)
    requires now <= MaxTimeValue
  {
    var page := new Gate(map[]);
    page.Restore();
    assert page.View() == LoginForm;

    page.HandleLogin("_superuser", "wrong", now);
    assert page.View() == LoginForm && TokenKey !in page.store;
    assert page.notices == [LoginFailed];

    page.HandleLogin("_superuser", "admin123", now);
    assert page.View() == DashboardScreen;
    assert TokenKey in page.store && page.store[TokenKey] == MintToken(now);

    var reloaded := new Gate(page.store);
    reloaded.Restore();
    assert reloaded.View() == DashboardScreen && reloaded.authToken == page.authToken;

    reloaded.HandleLogout();
    assert reloaded.View() == LoginForm && TokenKey !in reloaded.store;
  }
}

/**
 * Client code that uses only the contracts of `AuthService`, the way the
 * pages of the front end drive it.
 */
module Scenarios {
  import opened Wrappers
  import opened Types
  import opened Auth

  /**
   * Sign in, reload the page, then sign out while the API is unreachable,
   * and sign out once more.
   */
  method SignInReloadSignOut(alice: User, password: string, token: string)
    requires alice.role == Client && token != ""
  {
    var svc := new AuthService(map[], None);
    var result, sent := svc.Login(alice.email, password, Success(AuthResponse(alice, token)));
    assert sent.authorization == None;
    assert svc.IsAuthenticated() && !svc.IsVendor();
    assert svc.GetCurrentUser() == Some(alice);
    assert svc.authHeader == Some(Bearer(token));

    ReloadAfterSave(map[], alice, token, None);
    var reloaded := NewAuthService(svc.storage, None);
    var again := reloaded.value;
    assert again.currentUser == Some(alice) && again.authHeader == Some(Bearer(token));
    assert again.IsAuthenticated();

    var logout := again.Logout(Fail("Network Error"));
    assert logout.Some? && logout.value.authorization == Some(Bearer(token));
    assert !again.IsAuthenticated();
    assert UserKey !in again.storage && TokenKey !in again.storage;

    var second := again.Logout(Pass);
    assert second == None;
  }

  /** A failed login and a profile update without a session change nothing. */
  method FailuresChangeNothing(store: map<string, string>)
    requires UserKey !in store && TokenKey !in store
  {
    var started := NewAuthService(store, None);
    var svc := started.value;
    var result, sent := svc.Login("bob", "wrong", Failure("Identifiants invalides"));
    assert result == Failure("Identifiants invalides");
    assert svc.currentUser == None && svc.token == None && svc.storage == store;

    var updated, call := svc.UpdateProfile(UserPatch(None, None, Some("Bob"), None, None, None, None), Success(
      User("u2", "bob@x.com", "Bob", Vendeur, "2024-01-01", None, None)));
    assert updated == Failure(NotSignedIn) && call == None;
    assert !svc.IsVendor();
  }

  /**
   * The API answers with an empty token: `isAuthenticated` reports a session,
   * no token is stored, and `logout` does nothing.
   */
  method EmptyToken(store: map<string, string>)
    requires UserKey !in store && TokenKey !in store
  {
    var started := NewAuthService(store, None);
    var svc := started.value;
    var vera := User("u3", "vera@x.com", "Vera", Vendeur, "2024-01-01", Some("+221"), None);
    var result, sent := svc.Login("vera", "pw", Success(AuthResponse(vera, "")));
    assert svc.IsAuthenticated() && svc.IsVendor();
    assert TokenKey !in svc.storage;
    var call := svc.Logout(Pass);
    assert call == None && svc.IsAuthenticated();
  }

  /**
   * Storage holds a token and no user: the loaded service is not
   * authenticated, yet `logout` sends its request and clears the session.
   */
  method TokenOnly(store: map<string, string>, t: string)
    requires UserKey !in store && TokenKey in store && store[TokenKey] == t && t != ""
  {
    ReloadTokenWithoutUser(store, t, None);
    var started := NewAuthService(store, None);
    var svc := started.value;
    assert !svc.IsAuthenticated();
    var call := svc.Logout(Pass);
    assert call == Some(Call(LogoutRequest, Some(Bearer(t))));
    assert !svc.IsAuthenticated() && svc.authHeader == None;
    assert UserKey !in svc.storage && TokenKey !in svc.storage;
  }

  /**
   * Storage still holds an older token; a sign-in answered with an empty
   * token does not overwrite it, and a reload pairs the new user with it.
   */
  method EmptyTokenOverOldToken(store: map<string, string>, older: string, u: User)
    requires UserKey !in store && TokenKey in store && store[TokenKey] == older && older != ""
  {
    ReloadTokenWithoutUser(store, older, None);
    var started := NewAuthService(store, None);
    var svc := started.value;
    var result, sent := svc.Login(u.email, "pw", Success(AuthResponse(u, "")));
    assert svc.token == Some("") && svc.storage[TokenKey] == older;

    ReloadAfterEmptyToken(store, u, older, None);
    var reloaded := NewAuthService(svc.storage, None);
    var again := reloaded.value;
    assert again.currentUser == Some(u) && again.token == Some(older);
    assert again.IsAuthenticated();
  }
}

/**
 * The session client of the marketplace front end: who is signed in, with
 * which bearer token, mirrored into the browser's key-value storage and into
 * the default `Authorization` header of every outgoing request.
 *
 * Remote calls are not made here. Each operation that talks to the API takes
 * the API's reply as a parameter and returns the request it sent (or `None`
 * when it sends nothing), so contracts range over every reply.
 */
module Auth {
  import opened Wrappers
  import opened Types
  import opened Json

  const UserKey := "marketplace_user"
  const TokenKey := "marketplace_token"

  /** The message of the error `updateProfile` throws when nobody is signed in. */
  const NotSignedIn := "Utilisateur non connecté"

  /** JavaScript truthiness of a `string | null`: null and `""` are falsy. */
  predicate Truthy(v: Option<string>)
  {
    v.Some? && v.value != ""
  }

  function Bearer(token: string): string
  {
    "Bearer " + token
  }

  /** A request sent to the API. */
  datatype Request =
    | RegisterRequest(name: string, email: string, password: string,
                      passwordConfirmation: string, role: Role, phone: Option<string>)
    | LoginRequest(login: string, password: string)
    | LogoutRequest
    | UpdateUserRequest(id: string, updates: UserPatch)

  /** A request together with the default `Authorization` header it carried. */
  datatype Call = Call(request: Request, authorization: Option<string>)

  /** The in-memory part of the session: user, token and default header. */
  datatype Snapshot = Snapshot(user: Option<User>, token: Option<string>, header: Option<string>)

  /**
   * The states of the session: signed out, signed in, or the mixed state that
   * only start-up loading can produce, from a storage where just one of the
   * two keys holds a non-empty value.
   */
  datatype Phase = SignedOut | SignedIn(user: User, token: string) | Mixed

  function PhaseOf(m: Snapshot): Phase
  {
    match (m.user, m.token)
    case (None, None) => SignedOut
    case (Some(u), Some(t)) => SignedIn(u, t)
    case _ => Mixed
  }

  /**
   * The storage after `saveToStorage` with the given fields: a key is written
   * exactly when its field is present (the token only when truthy), and no key
   * is ever removed.
   */
  function Saved(store: map<string, string>, user: Option<User>, token: Option<string>): (r: map<string, string>)
    ensures r.Keys == store.Keys + (if user.Some? then {UserKey} else {}) + (if Truthy(token) then {TokenKey} else {})
    ensures forall k :: k in store && k != UserKey && k != TokenKey ==> r[k] == store[k]
    ensures UserKey in r <==> UserKey in store || user.Some?
    ensures TokenKey in r <==> TokenKey in store || Truthy(token)
    ensures user.Some? ==> r[UserKey] == SerializeUser(user.value)
    ensures user.None? && UserKey in store ==> r[UserKey] == store[UserKey]
    ensures Truthy(token) ==> r[TokenKey] == token.value
    ensures !Truthy(token) && TokenKey in store ==> r[TokenKey] == store[TokenKey]
  {
    var withUser := if user.Some? then store[UserKey := SerializeUser(user.value)] else store;
    if Truthy(token) then withUser[TokenKey := token.value] else withUser
  }

  /** The storage after `logout`: both keys gone, every other key kept. */
  function Cleared(store: map<string, string>): (r: map<string, string>)
    ensures UserKey !in r && TokenKey !in r
    ensures r.Keys == store.Keys - {UserKey, TokenKey}
    ensures forall k :: k in r ==> r[k] == store[k]
  {
    store - {UserKey, TokenKey}
  }

  /**
   * `loadFromStorage` on the snapshot `before`: each field is set only when its
   * key holds a non-empty string, the header together with the token. An
   * unreadable user record makes `JSON.parse` throw before anything is set;
   * the failure carries that record.
   */
  function Restore(store: map<string, string>, before: Snapshot): (r: Result<Snapshot, string>)
    ensures r.Failure? <==> Truthy(Get(store, UserKey)) && ParseUser(store[UserKey]).None?
    ensures r.Failure? ==> r.error == store[UserKey]
    ensures r.Success? && Truthy(Get(store, UserKey)) ==>
              r.value.user.Some? && SerializeUser(r.value.user.value) == store[UserKey]
    ensures r.Success? && !Truthy(Get(store, UserKey)) ==> r.value.user == before.user
    ensures r.Success? && Truthy(Get(store, TokenKey)) ==>
              r.value.token == Some(store[TokenKey]) && r.value.header == Some(Bearer(store[TokenKey]))
    ensures r.Success? && !Truthy(Get(store, TokenKey)) ==>
              r.value.token == before.token && r.value.header == before.header
  {
    var userData := Get(store, UserKey);
    var tokenData := Get(store, TokenKey);
    SerializeParse(if userData.Some? then userData.value else "");
    if Truthy(userData) && ParseUser(userData.value).None? then Failure(userData.value)
    else
      var user := if Truthy(userData) then ParseUser(userData.value) else before.user;
      if Truthy(tokenData) then Success(Snapshot(user, tokenData, Some(Bearer(tokenData.value))))
      else Success(Snapshot(user, before.token, before.header))
  }

  /**
   * A page reload after a sign-in (or a profile update) with a non-empty token
   * restores the same user and token, and the same default header.
   */
  lemma ReloadAfterSave(store: map<string, string>, u: User, t: string, header: Option<string>)
    requires t != ""
    ensures Restore(Saved(store, Some(u), Some(t)), Snapshot(None, None, header))
            == Success(Snapshot(Some(u), Some(t), Some(Bearer(t))))
    ensures PhaseOf(Restore(Saved(store, Some(u), Some(t)), Snapshot(None, None, header)).value) == SignedIn(u, t)
  {
    ParseSerialize(u);
  }

  /**
   * An empty token is not written, so a reload after saving one over a store
   * that held an older token pairs the new user with the older token.
   */
  lemma ReloadAfterEmptyToken(store: map<string, string>, u: User, older: string, header: Option<string>)
    requires TokenKey in store && store[TokenKey] == older && older != ""
    ensures Restore(Saved(store, Some(u), Some("")), Snapshot(None, None, header))
            == Success(Snapshot(Some(u), Some(older), Some(Bearer(older))))
  {
    ParseSerialize(u);
  }

  /** A page reload after a logout starts signed out, with the header untouched. */
  lemma ReloadAfterClear(store: map<string, string>, header: Option<string>)
    ensures Restore(Cleared(store), Snapshot(None, None, header)) == Success(Snapshot(None, None, header))
  {
  }

  /**
   * A storage holding a readable user record and no token restores a user
   * without a token: a vendor is then reported by `isVendor` while
   * `isAuthenticated` is false.
   */
  lemma ReloadUserWithoutToken(store: map<string, string>, u: User, header: Option<string>)
    requires UserKey in store && store[UserKey] == SerializeUser(u)
    requires !Truthy(Get(store, TokenKey))
    ensures Restore(store, Snapshot(None, None, header)) == Success(Snapshot(Some(u), None, header))
    ensures PhaseOf(Restore(store, Snapshot(None, None, header)).value) == Mixed
  {
    ParseSerialize(u);
  }

  /**
   * A storage holding a non-empty token and no user record restores a token
   * without a user: `isAuthenticated` is then false, while `logout`, which
   * tests the token alone, still sends its request and clears everything.
   */
  lemma ReloadTokenWithoutUser(store: map<string, string>, t: string, header: Option<string>)
    requires UserKey !in store
    requires TokenKey in store && store[TokenKey] == t && t != ""
    ensures Restore(store, Snapshot(None, None, header)) == Success(Snapshot(None, Some(t), Some(Bearer(t))))
    ensures PhaseOf(Restore(store, Snapshot(None, None, header)).value) == Mixed
    ensures Truthy(Restore(store, Snapshot(None, None, header)).value.token)
  {
  }

  class AuthService {
    var currentUser: Option<User>
    var token: Option<string>
    /** The browser's `localStorage`. */
    var storage: map<string, string>
    /** `axios.defaults.headers.common['Authorization']`; `None` when deleted. */
    var authHeader: Option<string>

    function Memory(): Snapshot
      reads this
    {
      Snapshot(currentUser, token, authHeader)
    }

    /** The field initialisers, over the page's storage and default header. */
    constructor(store: map<string, string>, header: Option<string>)
      ensures currentUser == None && token == None
      ensures storage == store && authHeader == header
    {
      currentUser := None;
      token := None;
      storage := store;
      authHeader := header;
    }

    method LoadFromStorage() returns (outcome: Outcome<string>)
      modifies this
      ensures storage == old(storage)
      ensures Restore(old(storage), old(Memory())).Success? ==>
                outcome == Pass && Memory() == Restore(old(storage), old(Memory())).value
      ensures Restore(old(storage), old(Memory())).Failure? ==>
                outcome == Fail(Restore(old(storage), old(Memory())).error) && Memory() == old(Memory())
    {
      ghost var expected := Restore(storage, Memory());
      var userData := Get(storage, UserKey);
      var tokenData := Get(storage, TokenKey);
      if Truthy(userData) {
        match ParseUser(userData.value)
        case None =>
          assert expected == Failure(userData.value);
          return Fail(userData.value);
        case Some(u) =>
          currentUser := Some(u);
      }
      assert expected.Success? && expected.value.user == currentUser;
      if Truthy(tokenData) {
        token := tokenData;
        authHeader := Some(Bearer(tokenData.value));
      }
      assert expected.value == Memory();
      outcome := Pass;
    }

    method SaveToStorage()
      modifies this`storage
      ensures storage == Saved(old(storage), currentUser, token)
    {
      if currentUser.Some? {
        storage := storage[UserKey := SerializeUser(currentUser.value)];
      }
      if Truthy(token) {
        storage := storage[TokenKey := token.value];
      }
    }

    /** The session `r` is active and persisted over `before`. */
    predicate SignedInWith(r: AuthResponse, before: map<string, string>)
      reads this
    {
      && currentUser == Some(r.user)
      && token == Some(r.token)
      && authHeader == Some(Bearer(r.token))
      && storage == Saved(before, Some(r.user), Some(r.token))
    }

    /** Applies a sign-in reply: nothing changes unless the call succeeded. */
    method Authenticate(reply: Result<AuthResponse, string>) returns (result: Result<User, string>)
      modifies this
      ensures reply.Success? ==> result == Success(reply.value.user) && SignedInWith(reply.value, old(storage))
      ensures reply.Failure? ==> result == Failure(reply.error)
      ensures reply.Failure? ==> Memory() == old(Memory()) && storage == old(storage)
    {
      match reply
      case Failure(message) =>
        return Failure(message);
      case Success(response) =>
        currentUser := Some(response.user);
        token := Some(response.token);
        authHeader := Some(Bearer(response.token));
        SaveToStorage();
        result := Success(response.user);
    }

    method Register(name: string, email: string, password: string, passwordConfirmation: string,
                    role: Role, phone: Option<string>, reply: Result<AuthResponse, string>)
      returns (result: Result<User, string>, call: Call)
      modifies this
      ensures call == Call(RegisterRequest(name, email, password, passwordConfirmation, role, phone), old(authHeader))
      ensures reply.Success? ==> result == Success(reply.value.user) && SignedInWith(reply.value, old(storage))
      ensures reply.Success? ==> IsAuthenticated() && PhaseOf(Memory()) == SignedIn(reply.value.user, reply.value.token)
      ensures reply.Failure? ==> result == Failure(reply.error)
      ensures reply.Failure? ==> Memory() == old(Memory()) && storage == old(storage)
    {
      call := Call(RegisterRequest(name, email, password, passwordConfirmation, role, phone), authHeader);
      result := Authenticate(reply);
    }

    method Login(login: string, password: string, reply: Result<AuthResponse, string>)
      returns (result: Result<User, string>, call: Call)
      modifies this
      ensures call == Call(LoginRequest(login, password), old(authHeader))
      ensures reply.Success? ==> result == Success(reply.value.user) && SignedInWith(reply.value, old(storage))
      ensures reply.Success? ==> IsAuthenticated() && PhaseOf(Memory()) == SignedIn(reply.value.user, reply.value.token)
      ensures reply.Failure? ==> result == Failure(reply.error)
      ensures reply.Failure? ==> Memory() == old(Memory()) && storage == old(storage)
    {
      call := Call(LoginRequest(login, password), authHeader);
      result := Authenticate(reply);
    }

    /**
     * Signs out locally whatever the API answers; a failed reply is only
     * logged. Without a truthy token it does nothing at all.
     */
    method Logout(reply: Outcome<string>) returns (call: Option<Call>)
      modifies this
      ensures !Truthy(old(token)) ==> call == None && Memory() == old(Memory()) && storage == old(storage)
      ensures Truthy(old(token)) ==> call == Some(Call(LogoutRequest, old(authHeader)))
      ensures Truthy(old(token)) ==> currentUser == None && token == None && authHeader == None
      ensures Truthy(old(token)) ==> storage == Cleared(old(storage))
      ensures Truthy(old(token)) ==> PhaseOf(Memory()) == SignedOut && !IsAuthenticated() && !IsVendor()
    {
      if !Truthy(token) {
        return None;
      }
      call := Some(Call(LogoutRequest, authHeader));
      match reply {
        case Fail(_) =>
          // a failed reply is only logged (console.error); the session is cleared below either way
        case Pass =>
      }
      currentUser := None;
      token := None;
      storage := storage - {UserKey};
      storage := storage - {TokenKey};
      authHeader := None;
    }

    function GetCurrentUser(): (r: Option<User>)
      reads this
      ensures IsAuthenticated() ==> r.Some?
      ensures IsVendor() <==> r.Some? && r.value.role == Vendeur
    {
      currentUser
    }

    /** Both fields non-null: an empty token still counts. */
    function IsAuthenticated(): (b: bool)
      reads this
      ensures b <==> PhaseOf(Memory()).SignedIn?
    {
      currentUser != None && token != None
    }

    /** `currentUser?.type === 'vendeur'`: no user means not a vendor. */
    function IsVendor(): (b: bool)
      reads this
      ensures PhaseOf(Memory()).SignedOut? ==> !b
      ensures PhaseOf(Memory()).SignedIn? ==> (b <==> PhaseOf(Memory()).user.role == Vendeur)
    {
      currentUser.Some? && currentUser.value.role == Vendeur
    }

    /**
     * Sends `updates` for the current user and replaces the user wholesale with
     * the API's answer; the token and the header are left alone.
     */
    method UpdateProfile(updates: UserPatch, reply: Result<User, string>)
      returns (result: Result<User, string>, call: Option<Call>)
      modifies this
      ensures old(currentUser).None? ==> result == Failure(NotSignedIn) && call == None
      ensures old(currentUser).Some? ==> call == Some(Call(UpdateUserRequest(old(currentUser).value.id, updates), old(authHeader)))
      ensures (old(currentUser).None? || reply.Failure?) ==> Memory() == old(Memory()) && storage == old(storage)
      ensures old(currentUser).Some? && reply.Failure? ==> result == Failure(reply.error)
      ensures old(currentUser).Some? && reply.Success? ==>
                && result == Success(reply.value)
                && currentUser == Some(reply.value)
                && token == old(token) && authHeader == old(authHeader)
                && storage == Saved(old(storage), Some(reply.value), old(token))
      ensures old(PhaseOf(Memory())).SignedIn? && reply.Success? ==>
                PhaseOf(Memory()) == SignedIn(reply.value, old(PhaseOf(Memory())).token)
    {
      if currentUser.None? {
        return Failure(NotSignedIn), None;
      }
      call := Some(Call(UpdateUserRequest(currentUser.value.id, updates), authHeader));
      match reply
      case Failure(message) =>
        result := Failure(message);
      case Success(user) =>
        currentUser := Some(user);
        SaveToStorage();
        result := Success(user);
    }
  }

  /**
   * `new AuthService()`: the field initialisers, then `loadFromStorage`. A
   * stored user record `JSON.parse` cannot read makes the construction throw,
   * and no service exists.
   */
  method NewAuthService(store: map<string, string>, header: Option<string>)
    returns (r: Result<AuthService, string>)
    ensures Restore(store, Snapshot(None, None, header)).Failure? ==>
              r == Failure(Restore(store, Snapshot(None, None, header)).error)
    ensures Restore(store, Snapshot(None, None, header)).Success? ==>
              && r.Success? && fresh(r.value)
              && r.value.Memory() == Restore(store, Snapshot(None, None, header)).value
              && r.value.storage == store
  {
    var service := new AuthService(store, header);
    var outcome := service.LoadFromStorage();
    match outcome
    case Fail(record) =>
      r := Failure(record);
    case Pass =>
      r := Success(service);
  }
}

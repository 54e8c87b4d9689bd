# Marketplace session client, modelled in Dafny

This project models `AuthService`, the session client of the marketplace front end. The client tracks three things:

- the signed-in user (`currentUser`);
- its bearer token (`token`);
- their persisted copies under the browser storage keys `marketplace_user` and `marketplace_token`.

It also keeps the default `Authorization: Bearer <token>` header of outgoing requests in step with the token. The operations are:

- start-up loading from storage;
- saving to storage;
- `register` and `login`;
- `logout`;
- `updateProfile`;
- the queries `getCurrentUser`, `isAuthenticated` and `isVendor`.

Files:

- `wrappers.dfy` holds `Option`, `Result` and `Outcome`.
- `types.dfy` holds the records the client exchanges with the API: `User`, its role `vendeur`/`client`, the sign-in reply and the partial user sent by a profile update.
- `json.dfy` holds the stored text form of a user. `SerializeUser` stands for `JSON.stringify` and `ParseUser` for `JSON.parse`. `ParseSerialize` proves that reading back what was written gives the same user, and `SerializeParse` proves that any text `ParseUser` accepts is exactly the stored form of the user it returns.
- `auth.dfy` holds the `AuthService` class. Its fields are `currentUser`, `token`, `storage` (a `map<string, string>`) and `authHeader`. Every method states the whole new state. The module also holds the functions that specify storage writes (`Saved`, `Cleared`) and start-up loading (`Restore`), the session phases (`SignedOut`, `SignedIn`, `Mixed`) and the reload lemmas.
- `scenarios.dfy` holds client code that drives the service through sign-in, reload and sign-out, failed calls, and an empty token. It uses only the contracts.

Remote calls are not made. Each operation that talks to the API takes the API's reply as a parameter: a `Result` for `register`, `login` and `updateProfile`, and an `Outcome` for `logout`. It also returns the request it sent, with the header that request carried, or `None` when it sends nothing. A contract therefore covers both a successful and a failed reply, and can say when no request is sent.

JavaScript truthiness is modelled by `Truthy`: `null` and the empty string are falsy. It governs loading, saving and `logout`. `isAuthenticated` compares with `null` only, so an empty token still counts as a session there.

## Model

| member | source | states |
|---|---|---|
| `Json.RoleOf` | src/types/index.ts:7 | the role text is read back only as `vendeur` or `client`, and each role's text reads back as that role |
| `Json.ReadCharsEscaped` | src/services/auth.ts:28 | a quoted, escaped string is read back as the same string, and the text after its closing quote is left over |
| `Json.SerializeUser` | src/services/auth.ts:38 | `JSON.stringify` of a user: the text is a JSON object (it opens with `{`). `ParseSerialize` proves that `ParseUser` reads it back as the same user. Members are written in one fixed order with only `"` and `\` escaped (see "Left out") |
| `Json.ParseUser` | src/services/auth.ts:28 | `JSON.parse` of a stored record: `None` stands for the exception. Any text it accepts opens with `{`, and `SerializeParse` proves it is exactly `SerializeUser` of the user returned. Other JSON spellings of a user count as unreadable (see "Left out") |
| `Json.ParseSerialize` | src/services/auth.ts:28 | parsing the stored record of a user gives back that user (`JSON.parse(JSON.stringify(u))`) |
| `Json.SerializeParse` | src/services/auth.ts:28 | the other direction: a text that parses to a user is exactly the stored form of that user |
| `Auth.Restore` | src/services/auth.ts:21-34 | `loadFromStorage` on a snapshot. It fails exactly when the user key holds a non-empty record that cannot be read, and the failure carries that record. The loaded user is the one whose stored form is the record. With a falsy user key the user is kept. The token and its `Bearer` header are set from a non-empty token key, and otherwise both are kept. The reload lemmas below establish that a save with a non-empty token reloads the same signed-in session, that a cleared store reloads signed out, and that a store with one key loads the mixed phase |
| `Auth.Saved` | src/services/auth.ts:36-43 | the keys after saving are exactly the old keys, plus the user key when a user is present and the token key when the token is truthy; every other key keeps its value; the written values are the serialised user and the token |
| `Auth.Cleared` | src/services/auth.ts:95-96 | after logout both keys are absent and every other key keeps its value |
| `Auth.ReloadAfterSave` | src/services/auth.ts:21-43 | after a save with a non-empty token, a fresh start-up restores the same user, the same token and the `Bearer` header, in the signed-in phase |
| `Auth.ReloadAfterEmptyToken` | src/services/auth.ts:36-43 | after a save with an empty token over a store holding an older non-empty token, a reload restores the new user paired with the older token and its `Bearer` header |
| `Auth.ReloadAfterClear` | src/services/auth.ts:21-34 | after logout, a fresh start-up is signed out and leaves the header as it found it |
| `Auth.ReloadUserWithoutToken` | src/services/auth.ts:27-33 | a storage that holds a user record and no token key, or an empty one, restores a user without a token (the mixed phase) |
| `Auth.ReloadTokenWithoutUser` | src/services/auth.ts:27-33 | a storage that holds a non-empty token but no user record restores the token and its header without a user (the mixed phase), with a token that `logout` treats as present |
| `Auth.AuthService.constructor` | src/services/auth.ts:10-13 | a new service has no user and no token, over the given storage and header |
| `Auth.AuthService.LoadFromStorage` | src/services/auth.ts:21-34 | sets each field only when its key holds a non-empty string, and sets the header together with the token; an unreadable user record fails before any field is set; storage is never written |
| `Auth.AuthService.SaveToStorage` | src/services/auth.ts:36-43 | storage becomes `Saved` of the current user and token; nothing else changes |
| `Auth.AuthService.Authenticate` | src/services/auth.ts:63-67 | on success, the user and token are those of the reply, the header is `Bearer` plus the token, and both are saved as `Saved` writes them (an empty token is not written); on failure the error is returned and nothing changes |
| `Auth.AuthService.Register` | src/services/auth.ts:45-70 | sends the registration fields with the current header; on success the reply's session is active and persisted and the phase is signed in; on failure nothing changes and the error is returned |
| `Auth.AuthService.Login` | src/services/auth.ts:72-83 | sends the login request with the current header; on success the reply's session is active and persisted and the phase is signed in; on failure nothing changes and the error is returned |
| `Auth.AuthService.Logout` | src/services/auth.ts:85-99 | with a null or empty token: no request and no change. Otherwise it sends the request with the old header, then clears both fields, both keys and the header whatever the reply, ending signed out |
| `Auth.AuthService.GetCurrentUser` | src/services/auth.ts:102-104 | the user is present whenever the service is authenticated; `isVendor` holds exactly when the user is a vendor |
| `Auth.AuthService.IsAuthenticated` | src/services/auth.ts:107-109 | true exactly in the signed-in phase: user and token both present, even an empty token |
| `Auth.AuthService.IsVendor` | src/services/auth.ts:112-114 | false when signed out; when signed in, true exactly for the `vendeur` role |
| `Auth.AuthService.UpdateProfile` | src/services/auth.ts:116-127 | with no user: fails with `Utilisateur non connecté`, sends nothing, changes nothing. Otherwise it sends the patch for the user's id. On success the user is replaced wholesale by the reply (not merged with the patch), storage is re-saved, and token and header are untouched. On failure nothing changes |
| `Auth.NewAuthService` | src/services/auth.ts:15-18 | construction is the field initialisers followed by loading. An unreadable stored user makes it fail with that record. Otherwise it yields a fresh service holding the loaded state over the unchanged storage |

## Behaviour at the edges

The model keeps each of these behaviours of the code.

- An empty token is never stored (auth.ts:40). A sign-in with an empty token therefore keeps whatever token key was stored before. If the store already held an older token, a reload pairs the new user with that older token and reports a session (`Scenarios.EmptyTokenOverOldToken`). Without an older token, the reload restores the user without a token.
- `logout` tests the token for truthiness (auth.ts:87), but `isAuthenticated` only compares with `null` (auth.ts:108). After a sign-in with an empty token, the service reports a session that `logout` does not end (`Scenarios.EmptyToken`).
- A stored user record that `JSON.parse` cannot read makes construction throw (auth.ts:17, 28). `NewAuthService` returns that failure.
- Start-up loading sets the user and the token independently (auth.ts:27-33), so the mixed phase arises whenever just one of the two keys holds a non-empty value. A storage holding only the user record (or the user record and an empty token) gives a user without a token (`ReloadUserWithoutToken`). A storage holding only a non-empty token gives a token without a user (`ReloadTokenWithoutUser`): `isAuthenticated()` is then false, yet `logout` still sends its request and clears both fields, both keys and the header (`Scenarios.TokenOnly`).
- Every other operation keeps or re-establishes the pairing of user and token.

## Left out

- The HTTP transport (axios) and the fixed API origin: each request is returned as a `Call` value, and the reply is a parameter.
- `console.error` in `logout`: it is output only, and a failed reply is otherwise ignored.
- Concurrency between overlapping asynchronous calls: each operation is one atomic step.
- Full JSON: `SerializeUser` writes members in one fixed order and escapes only `"` and `\`. `ParseUser` reads exactly that form. Other JSON text (other key orders, whitespace, other escapes, or values that are not users) counts as unreadable here, where `JSON.parse` would yield some other object.
- `createdAt` is kept as text. The conversion of a `Date` to an ISO string and back through JSON is not modelled.
- The React pages, the route table, the DOM start-up and the types the session client does not use (`Product`, `Subscription`, `Stats` and the rest).
- Auth.AuthService.SaveToStorage: a `localStorage.setItem` that throws (auth.ts:38, 41), for example when the storage quota is exceeded, is not modelled; every write succeeds.
- Auth.AuthService.Authenticate: because writes cannot fail, it does not capture a sign-in that rejects after the user, token and header were already assigned (auth.ts:64-67, 77-80). Its all-or-nothing contract rests on that assumption.
- Auth.AuthService.Register: does not model a rejection from a throwing storage write after the session was assigned (auth.ts:64-67).
- Auth.AuthService.Login: does not model a rejection from a throwing storage write after the session was assigned (auth.ts:77-80).
- Auth.AuthService.UpdateProfile: does not model a rejection from a throwing storage write after the user was replaced (auth.ts:123-124).

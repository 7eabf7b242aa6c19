# Admin core of the OAuth proxy worker, modelled in Dafny

The worker is a single `fetch` handler (`src/index.js`) in front of a
key-value store. This model covers the part of it that holds state and makes
decisions:

- **Token generator** (`HexToken`). `generateSecureToken` turns 32 random bytes
  into 64 lower-case hexadecimal characters, two zero-padded digits per byte.
  The model follows the source expression: `toString(16)`, then
  `padStart(2, '0')`, then `join('')`. A decoder is its proved inverse.
- **Cookie extraction** (`Cookie`). The unanchored regular expression
  `session=([^;]+)` is applied to the Cookie header. The model returns the
  leftmost match and the greedy run of non-`;` characters after it.
- **Store** (`Kv`). The store holds three key families:
  - `session:{token}`: a username that lives for 900 seconds.
  - `app:{name}`: a record `{name, clientId, authPath, apiPath}`.
  - the two provisioned credential keys `username` and `password`.

  The model keeps these as typed collections. The session and application maps
  are keyed by the full store key. `Kv.Store` is a class with one method for
  each store call the handler makes: `GetUsername` and `GetPassword` (the
  credential reads), `CreateSession`, `GetSession`, `DeleteSession`, `GetApp`,
  `PutApp` and `DeleteApp`. `Worker.CheckSession` is `validateSession` on top
  of `GetSession`.
- **Request dispatch** (`Worker`). It covers `/get`, the login on
  `POST /admin`, the session gate on `/admin/apps`, the actions `logout`,
  `create`, `delete` and `edit`, the fall-through redirect, the
  application listing loop and the 404 for unknown paths.
  - `Dispatch` is a pure function. It states the new store and the response
    for one request.
  - `Fetch` does the same work step by step on a `Kv.Store` and is proved
    equal to `Dispatch`.
  - `ListApps` is the listing loop, proved against `ListedApps`.
- **Properties** (`WorkerProperties`). These are lemmas about `Dispatch`: the
  outcome of each branch, session lifetime and revocation, no resurrection of
  a dead token, the frame property that each request writes at most one key,
  idempotence, and the listing.

Modelling choices that follow the code:
- JavaScript `null` is `Option.None`. The code compares possibly-absent values
  with `===`. So when no credentials are provisioned, a login that submits
  neither field matches.
- A template literal renders `null` as `"null"`. So `create` without a `name`
  field writes key `app:null` (`Kv.AppKey`).
- `validateSession` returns `false` or the stored username, and the gate tests
  `!username`. So an absent or empty stored username lets nobody past the gate
  (`WorkerProperties.GateNeedsProvisionedUsername`).
- Application records hold only `{name, clientId, authPath, apiPath}`.
- The handler has no `authorize` or `regenerate_token` action, no OAuth
  callback and no proxy forwarding.
- Credentials are compared as possibly-null values, not as strings only.

## Model

| member | source | states |
|---|---|---|
| `HexToken.HexDigit` | src/index.js:5 | the digit `toString(16)` writes for a value below 16 is a lower-case hex digit |
| `HexToken.DigitValue` | src/index.js:5 | reading a lower-case hex digit gives a value below 16 whose digit is that character (inverse of HexDigit) |
| `HexToken.ToHexString` | src/index.js:5 | `toString(16)` is non-empty lower-case hex, and a single digit exactly for values below 16 |
| `HexToken.ToHexStringValue` | src/index.js:5 | the numeral `toString(16)` writes denotes the number it was given |
| `HexToken.ByteToHex` | src/index.js:5 | `toString(16).padStart(2, '0')` of a byte is its high digit then its low digit, zero-padded |
| `HexToken.HexEncode` | src/index.js:5 | the joined encoding has exactly two characters per byte, all lower-case hex |
| `HexToken.HexEncodeAt` | src/index.js:5 | characters 2i and 2i+1 of the encoding are the two digits of byte i |
| `HexToken.HexDecode` | src/index.js:5 | a successful decoding has half as many bytes as the string has characters |
| `HexToken.HexDecodeDefined` | src/index.js:5 | decoding succeeds iff the string has even length and only lower-case hex digits |
| `HexToken.DecodeEncode` | src/index.js:5 | decoding an encoding gives back the bytes |
| `HexToken.EncodeDecode` | src/index.js:5 | encoding what a string decodes to gives back the string |
| `HexToken.HexEncodeInjective` | src/index.js:5 | different byte sequences never give the same token |
| `HexToken.GenerateSecureToken` | src/index.js:2-6 | a token from 32 bytes has 64 lower-case hex characters and decodes to those bytes |
| `Cookie.TokenRun` | src/index.js:158 | the `[^;]+` capture is a slice of the header starting at the given position, has no `;`, and stops only at `;` or the end |
| `Cookie.FirstMatch` | src/index.js:158 | the match position found is a match, no earlier position matches, and None means no position matches |
| `Cookie.ExtractSessionToken` | src/index.js:158 | a token is found iff a Cookie header exists and `session=` followed by a non-`;` occurs in it; the token is the run after the leftmost such occurrence, non-empty and free of `;` |
| `Cookie.CookieRoundTrip` | src/index.js:158 | the header `session=<t>`, for a non-empty t without `;`, yields t |
| `Kv.SessionKey` | src/index.js:12 | a session key is `session:` followed by the token |
| `Kv.AppKey` | src/index.js:211 | an application key is `app:` followed by the name as a template literal renders it |
| `Kv.KeyFamiliesDisjoint` | src/index.js:12 | no session key equals an application key |
| `Kv.SessionKeyInjective` | src/index.js:20 | different tokens look up different session keys |
| `Kv.AppKeyCollision` | src/index.js:201 | two names share an application key iff they render alike; an absent name and "null" share one |
| `Kv.ListedApps` | src/index.js:250-257 | the listing has at most one record per scanned key |
| `Kv.Store.constructor` | src/index.js:47-48 | a fresh store holds no sessions or applications, only the provisioned credentials |
| `Kv.Store.CreateSession` | src/index.js:8-17 | the returned token is the encoding of the random bytes; only `session:{token}` changes, set to the username with expiry now + 900 |
| `Kv.Store.DeleteSession` | src/index.js:185 | only the given session key is removed |
| `Kv.Store.GetUsername` | src/index.js:47 | the credential read returns the provisioned username, or null |
| `Kv.Store.GetPassword` | src/index.js:48 | the credential read returns the provisioned password, or null |
| `Kv.Store.GetSession` | src/index.js:20 | the lookup finds an entry iff the session key is stored and not expired, and it is the stored one |
| `Worker.CheckSession` | src/index.js:19-25 | `validateSession` yields a username iff the session key is stored and live; the result is the validation of the store's sessions |
| `Kv.Store.GetApp` | src/index.js:201 | the lookup finds a record iff the key is stored, and it is the stored one |
| `Kv.Store.PutApp` | src/index.js:210-213 | only the given application key changes, to the given record |
| `Kv.Store.DeleteApp` | src/index.js:217 | only the given application key is removed |
| `Worker.ListApps` | src/index.js:250-257 | the loop collects, in scan order, the record of every scanned key whose lookup succeeds |
| `Worker.Fetch` | src/index.js:28-457 | the new store and the response are exactly those `Dispatch` gives for the old store |
| `WorkerProperties.ValidateSessionIff` | src/index.js:19-25 | validation gives a username iff `session:{token}` is stored, not expired and holds that username; otherwise it gives false |
| `WorkerProperties.LoginOutcome` | src/index.js:41-67 | a login gets 302 iff both submitted values equal the stored ones (absent matches absent). On success only `session:{token}` is added, with the username and a 900 s lifetime, and the reply carries Location `/admin/apps` and the secure cookie. On failure: 401, store unchanged |
| `WorkerProperties.LoginThenValidate` | src/index.js:8-25 | the new session validates to the stored username for exactly 900 seconds and not after |
| `WorkerProperties.LoginCookieGrantsAccess` | src/index.js:58 | sending back the cookie from a login passes the gate until expiry, when the stored username is non-empty |
| `WorkerProperties.GateRejects` | src/index.js:156-176 | with no extractable session, or one that does not validate to a truthy username, `/admin/apps` redirects to `/admin` and writes nothing |
| `WorkerProperties.SessionsOwnedPreserved` | src/index.js:50-52 | every request keeps this invariant: every stored session holds the stored username |
| `WorkerProperties.GateNeedsProvisionedUsername` | src/index.js:168-169 | under that invariant, passing the gate implies a non-empty stored username |
| `WorkerProperties.GatedPostIsAction` | src/index.js:178-181 | a POST that passes the gate is handled by the `action` dispatch, using the cookie's token |
| `WorkerProperties.LogoutOutcome` | src/index.js:183-192 | the logout action removes exactly its own session key and redirects to `/admin`; that token never validates again |
| `WorkerProperties.LogoutIdempotent` | src/index.js:183-192 | repeating a logout leaves the store and the response as the first one did |
| `WorkerProperties.NoResurrection` | src/index.js:8-25 | a token that does not validate now still fails later after any request, unless a login generates that very token |
| `WorkerProperties.CreateOutcome` | src/index.js:194-213 | create answers 400 and writes nothing iff `app:{name}` exists; otherwise it sets only that key to the form's record and redirects to `/admin/apps` |
| `WorkerProperties.EditOutcome` | src/index.js:219-238 | edit answers 404 and writes nothing iff the record is absent; otherwise it replaces only authPath and apiPath of that record, keeps name and clientId, and changes no other key |
| `WorkerProperties.DeleteOutcome` | src/index.js:215-218 | delete removes exactly `app:{name}`, present or not, and redirects to `/admin/apps` |
| `WorkerProperties.DeleteIdempotent` | src/index.js:215-218 | repeating a delete leaves the store and the response as the first one did |
| `WorkerProperties.UnknownActionIsNoop` | src/index.js:241-246 | an unrecognised action writes nothing and redirects to `/admin/apps` |
| `WorkerProperties.ListingIsReadOnly` | src/index.js:249-257 | an authenticated request other than POST gets the listing and writes nothing |
| `WorkerProperties.OneKeyTouched` | src/index.js:11-15 | every request leaves every store key except the one it names unchanged, and never changes the credentials |
| `WorkerProperties.WritesNeedLoginOrSession` | src/index.js:156-179 | only a login, or a POST to `/admin/apps` that passes the session gate, changes the store |
| `WorkerProperties.ListedAppsSound` | src/index.js:252-256 | every listed record is the stored record of a scanned key |
| `WorkerProperties.ListedAppsComplete` | src/index.js:252-256 | every scanned key whose lookup succeeds has its record listed |
| `WorkerProperties.ListedAppsInOrder` | src/index.js:252-256 | when every scanned key is present, the listing holds their records in scan order, one each |
| `WorkerProperties.ListedAppsSingle` | src/index.js:253-256 | one scanned key contributes its record if the lookup succeeds and nothing otherwise |
| `WorkerProperties.ListedAppsAppend` | src/index.js:252-256 | the listing of a concatenated scan is the listing of the first part followed by that of the second |
| `WorkerProperties.ListedAppsSkipping` | src/index.js:252-256 | at any scanned key, the listing is what comes before, then that key's record or nothing when its lookup misses, then what comes after |
| `WorkerProperties.CreatedAppIsListed` | src/index.js:194-257 | after a successful create, a listing whose scan includes the new key shows the new record |

## Left out

- HTML rendering of the login form, the application page and its script (src/index.js:71-152, 259-449): presentation only. The bodies are reduced to tags (`LoginPage`, `AppsPage(apps)`).
- The random source `crypto.getRandomValues`: the 32 bytes are a parameter of `GenerateSecureToken`, `CreateSession`, `Dispatch` and `Fetch`.
- Store I/O, `await`, and the store's own expiry mechanics. Each session stores its expiry time, and the caller passes a logical clock `now`. An expired entry stays in the map but never validates, because the store no longer returns it.
- The store's prefix listing (`list({ prefix: 'app:' })`): its result is a parameter `scan`. Its order, its eventual consistency and its page limit of 1000 keys (the source reads no cursor) belong to the store.
- `request.formData()` parsing: form fields are a map from name to first value. A file upload in a form field is not modelled.
- A request body that is not form-encoded: `request.formData()` rejects it, so the source throws at src/index.js:42 or src/index.js:180 (a 500 with nothing written), while the model proceeds with whatever form map it is given. For example, with no credentials provisioned, a non-form `POST /admin` creates a session in the model, whereas the source throws.
- `new URL(path, request.url)`: Location headers carry only the path, not the request's origin.
- `Content-Type` headers of the responses are not modelled.
- JSON serialisation: records are stored as typed values. In the source a corrupt stored record would make `JSON.parse` throw. Neither that nor records with extra fields written by other code is modelled.
- The read-then-write race in `create` between concurrent requests: the model is sequential.
- The OAuth authorization flow, the proxy forwarder, proxy-token regeneration and `scope`: `src/index.js` does not implement them, so they are not part of this model. `/get` is modelled as the constant `OK` response it is.

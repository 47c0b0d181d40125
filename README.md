# useAuth session-token lifecycle, in Dafny

This project models the `useAuth` composable of a browser client
(`src/composables/useAuth.ts`). The composable keeps one bearer token in the
tab's session storage under a configurable key. It writes, reads and removes
that token, builds the `Authorization` header from it, obtains it from the
`/auth/login` endpoint, and drops it on logout.

Files:

- `wrappers.dfy`: `Option` (for JavaScript `null`/`undefined`) and `Result` (a value or a thrown error).
- `decimal.dfy`: how a template literal renders a status code in decimal, and the inverse reading.
- `session_storage.dfy`: session storage as a `map<string, string>`, with `getItem`, `setItem` and `removeItem` and their laws.
- `use_auth.dfy`: the storage-key default, the header construction, the decision `login` takes on a reply, the error messages, and the class `AuthSession`. Its `storage` field is the tab's session storage. Its methods `SetToken`, `ClearToken`, `Logout` and `Login` update that field in place.

Environment values (`VITE_API_BASE`, `VITE_TOKEN_KEY`) and the tab's storage
are parameters of the `AuthSession` constructor. The network exchange of
`login` is a parameter `server: LoginRequest -> Reply`. A `Reply` holds the
status, the text `res.text()` would resolve to, and what `res.json()` would
resolve to: unparsable, `null`, or a value.

Behaviour of the code worth noting:

- `authHeader` takes no base headers. It returns only the `Authorization` entry, or nothing. Callers merge it into their own headers.
- A reply body that is not JSON makes `login` fail with the rejection of `res.json()` (`InvalidJson`), not with "No access_token in response".
- A JSON `null` body makes the read of `access_token` throw (`NullResponse`).
- The session storage is not assumed empty at load: it survives reloads within a tab, so the constructor takes whatever the tab already holds.
- An unset `VITE_API_BASE` is interpolated as the text `undefined` in the login URL, as a template literal does.

## Model

| member | source | states |
|---|---|---|
| UseAuth.TokenKeyFrom | src/composables/useAuth.ts:3 | The key is `VITE_TOKEN_KEY` when it is set and non-empty. Otherwise it is "app_token", so an empty value also falls back. The key is never empty. |
| UseAuth.AuthSession.constructor | src/composables/useAuth.ts:2-3 | The key and the API base are fixed at load from the environment. The storage is whatever the tab holds. |
| SessionStorage.GetItem | src/composables/useAuth.ts:17-19 | A read returns the stored value when the key is present and `None` (null) when it is absent. It never fails. |
| UseAuth.AuthSession.GetToken | src/composables/useAuth.ts:17-19 | `getToken` is `None` exactly when no entry is stored under the token key; otherwise it is that entry. |
| SessionStorage.SetItem | src/composables/useAuth.ts:14 | `setItem` leaves the key holding exactly the given value. The key set gains that key, and every other entry is unchanged. |
| SessionStorage.RemoveItem | src/composables/useAuth.ts:22 | `removeItem` leaves the key absent. The key set loses only that key, and every other entry is unchanged. |
| SessionStorage.GetAfterSet | src/composables/useAuth.ts:13-19 | Round trip: after storing `t`, reading the key gives `t`. |
| SessionStorage.SetTwice | src/composables/useAuth.ts:13-15 | A second store replaces the first, so the last write wins. |
| SessionStorage.GetAfterRemove | src/composables/useAuth.ts:17-23 | After a removal the token reads as absent, whatever the prior state. |
| SessionStorage.RemoveTwice | src/composables/useAuth.ts:21-23 | Clearing twice equals clearing once. |
| SessionStorage.OtherKeysUnchanged | src/composables/useAuth.ts:13-23 | Storing or removing the token key leaves every other key's value as it was. |
| UseAuth.AuthSession.SetToken | src/composables/useAuth.ts:13-15 | `setToken` writes the token under the key. The token then reads back as written, and every other entry is unchanged. |
| UseAuth.AuthSession.ClearToken | src/composables/useAuth.ts:21-23 | `clearToken` removes the key. The token then reads as absent, and every other entry is unchanged. |
| UseAuth.AuthHeaderFor | src/composables/useAuth.ts:26-29 | For a non-empty token the header map has exactly one entry, `Authorization: Bearer <token>`. For an absent or empty token it is empty. |
| UseAuth.AuthSession.AuthHeader | src/composables/useAuth.ts:26-29 | `authHeader` changes nothing. It has an `Authorization` entry exactly when a non-empty token is stored under the key, with value "Bearer " followed by that token. |
| UseAuth.AuthSession.Logout | src/composables/useAuth.ts:52-54 | `logout` removes the token. Afterwards the session is unauthenticated and `authHeader` is empty. |
| UseAuth.LoginRequestFor | src/composables/useAuth.ts:33-37 | The login request goes to the interpolated API base followed by "/auth/login". It is a POST with a JSON content type, and its body carries exactly the given username and password. |
| UseAuth.LoginOutcomeCases | src/composables/useAuth.ts:39-48 | States the contract of `LoginOutcome`, the decision `login` takes on a reply, with `IsOk` as `res.ok` (status 200 to 299). A non-ok status fails with the status and the body text. An ok reply whose `access_token` is missing or empty fails with the missing-token error. Success happens exactly when the status is ok and a non-empty `access_token` is present, and the parsed response is returned unchanged. |
| UseAuth.AuthSession.Login | src/composables/useAuth.ts:32-49 | `login` sends one POST to the API base + "/auth/login" with a JSON content type and the username and password. Its outcome is the decision on the reply. Every failure leaves the storage untouched, so an existing token survives a failed re-login. On success exactly `access_token` is stored under the key, and `authHeader` becomes "Bearer " followed by that token. |
| Decimal.NatToString | src/composables/useAuth.ts:41 | The status is rendered as digits only, with no leading zero unless the status is 0. |
| Decimal.ValueOfNatToString | src/composables/useAuth.ts:41 | Reading the rendered digits back gives the status code. |
| UseAuth.FailedMessageRoundTrip | src/composables/useAuth.ts:39-42 | States the contract of `Message` for a failed status. The "Login failed (status): text" message carries the status code and the full body text, and both can be recovered from it. |
| UseAuth.FailedMessageInjective | src/composables/useAuth.ts:41 | Two failed logins with different status or body text have different messages. |
| UseAuth.NoAccessTokenMessageDistinct | src/composables/useAuth.ts:41-45 | States the contract of `Message` for a missing token. The missing-token message "No access_token in response" is never the message of a failed status. |

## Left out

- Network I/O: `fetch`, `res.text()`, `res.json()` and the JSON encoding of the request body. They are replaced by the `server` parameter and the `Reply` value. The body is read once, by `res.text()` on a non-ok status or by `res.json()` on an ok one, and the model keeps those reads exclusive. A rejection of `fetch` or of `res.text()` itself is not modelled.
- UseAuth.AuthSession.Login: `async`/`await` is not modelled, so `Login` runs without interruption. In the code, `login` suspends between `fetch` and `setToken`. A `logout` that runs during that wait is overwritten by the later token write. The contract's "failure leaves storage untouched" and its success write hold only for an uninterrupted run.
- Browser APIs: `import.meta.env` and `sessionStorage` are constructor parameters and a plain map. A storage quota error on `setItem` is not modelled.
- A truthy `access_token` that is not a string (a number, say) would be stored as its string form. The model reads `access_token` as an optional string, so this case is not represented.
- `expires_in` and `token_type` are carried in `LoginResponse` and never checked. No expiry, refresh or automatic logout exists in the code, and none is modelled.
- UseAuth.Message: only the two messages `login` throws itself are modelled. The messages of the `res.json()` rejection and of the `null` property read come from the platform.
- src/api/presence.ts is not part of this model. Its fire-and-forget POST swallows errors. It spreads `authHeader()` into a literal header map.
- src/services/dataset.ts and src/libs/http.ts are not part of this model; they are thin wrappers over an HTTP library.
- src/router/index.ts and vite.config.ts are not part of this model; they are route and build configuration.

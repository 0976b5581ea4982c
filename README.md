# Session, theme, guards and HTTP client of a SvelteKit front end

This project is a Dafny model of the client-side logic of a SvelteKit web application. It covers six parts:

- **Session store** (module `Auth`). It holds the user, the token and the authenticated flag. It persists them to durable storage (`localStorage`) or session-scoped storage (`sessionStorage`) under the keys `authToken` and `user`. The class `Auth.AuthStore` changes two shared `Storage.WebStorage` objects in place. Each of its methods is proved against a function of the old state (`LoginStep`, `LogoutStep`, `InitializeStep`). Lemmas about those functions state the store's properties:
  - every reachable state is consistent;
  - the store never touches keys other than its own two;
  - `logout` is idempotent;
  - a login is restored after a restart;
  - the other scope keeps stale entries after a login.
- **Theme store** (module `Theme`). The class `Theme.ThemeStore` has `toggle` and `init`. The document root is a small object with the `dark` class flag, `data-theme` and `data-font-size`. The decision logic of `init` is a function: the API branch, the fallback branch and the defaults.
- **HTTP client** (module `Client`). `apiRequest` builds its headers step by step. It then settles the response into a value or one of the rejections the source can produce. The helpers `get`, `post`, `put` and `delete` fix the verb and the body.
- **Server route guard** (module `LayoutGuard`). This is a public-route prefix check followed by a cookie-presence check.
- **Client route guard** of the user registration page (module `SignupGuard`). It checks for a token in either storage scope, and only in the browser.
- **Login and logout form actions** (module `LoginActions`). They validate the form, choose the cookie lifetime, change a cookie jar and redirect.

The module `Wiring` connects the parts. Its lemmas cover:

- the key mismatch between the two stores: the theme store reads `auth`, which the session store never writes;
- the registration guard after a login or a logout of the session store;
- the layout guard after the cookie written or deleted by the form actions.

Modelling choices:

- A JavaScript `string | null` is `Option<string>`. Truthiness is "present and not empty" (`Js.Truthy`). `||` on such values is `Js.Or`.
- `JSON.stringify` and `JSON.parse` for a stored user are an abstract `Auth.Codec`, a pair of functions. The lemmas that need the two functions to agree take that as a precondition (`Auth.RoundTrips`). The lemmas that need "no stored user parses to `null`" take two preconditions: no user serialises to a string that parses to `null` (`Auth.StringifyNeverNull`), and the starting storages hold no `user` entry that does (`Auth.StoredUsersNotNull`). `JSON.parse("null")` is `null`, so the second is a condition on the stored data, not on the parser.
- `browser` is a constant of each store and a parameter of the registration guard.
- The network is a parameter: `fetch` for the preferences call and `network` for the client. The platform's dark-mode signal is the boolean `prefersDark`.
- The theme value is a `string`, not a two-valued type. The source casts whatever the API or the storage holds to its theme type, so any string can become the theme.

The model follows the code, including where a reader might expect otherwise:

- `login` does not clear the other storage scope. `Auth.StaleDurableTokenWins` shows the effect: a stale durable token still wins at the next start.
- `initialize` leaves the state exactly as it was when the stored user does not parse. It does not return to the unauthenticated state.
- A stored user string that parses to `null` gives an authenticated state with no user. "Authenticated iff user and token are present" holds only while no stored `user` entry parses to `null` (`Auth.ReachableUserIffAuthenticated`).
- The theme store reads the key `auth`, which nothing in the session store writes.

## Model

| member | source | states |
|---|---|---|
| `Auth.IsAdmin` | src/lib/stores/auth.ts:34-36 | true exactly when the user is present and has the admin role; false for no user |
| `Auth.InitialState` | src/lib/stores/auth.ts:45-49 | never authenticated and no user; the token is the durable token when truthy, otherwise the session-scoped value as it is; no token outside the browser |
| `Auth.LoginStep` | src/lib/stores/auth.ts:55-66 | authenticated with the given user and token; in the browser the chosen scope gets `authToken` and the serialised user, every other key and the other scope are unchanged; outside the browser neither storage changes |
| `Auth.LogoutStep` | src/lib/stores/auth.ts:67-75 | signed out whatever the prior state; in the browser none of the four keys is present afterwards and every other key is kept; outside the browser storage is unchanged |
| `Auth.InitializeStep` | src/lib/stores/auth.ts:76-91 | never changes storage; authenticates with the durable-first token and durable-first user exactly when both are truthy and the user string parses; otherwise the state is left as it was |
| `Auth.RunKeepsConsistent` | src/lib/stores/auth.ts:44-91 | over any sequence of login, logout and initialize, "authenticated implies a token" and "a user implies authenticated" are preserved |
| `Auth.ReachableIsConsistent` | src/lib/stores/auth.ts:44-91 | every state reachable from a freshly created store is consistent |
| `Auth.RunKeepsUserIffAuthenticated` | src/lib/stores/auth.ts:65-85 | when no user serialises to a string that parses to null and neither scope starts with a `user` entry that does, every sequence of operations preserves both that condition on the storages and "user present iff authenticated" |
| `Auth.ReachableUserIffAuthenticated` | src/lib/stores/auth.ts:44-91 | when no user serialises to null and the starting storages hold no `user` entry that parses to null, every reachable state has a user exactly when it is authenticated |
| `Auth.RunKeepsOtherKeys` | src/lib/stores/auth.ts:55-91 | no sequence of operations changes any key other than `authToken` and `user` in either scope |
| `Auth.LogoutIdempotent` | src/lib/stores/auth.ts:67-75 | logging out twice is the same as logging out once |
| `Auth.RememberedLoginRestores` | src/lib/stores/auth.ts:57-59 | after a remembered login with a non-empty token, a fresh store starts with that token and initialize restores exactly that user and token |
| `Auth.SessionLoginRestores` | src/lib/stores/auth.ts:60-63 | a session-scoped login is restored the same way, provided the durable scope holds no truthy token or user |
| `Auth.StaleDurableTokenWins` | src/lib/stores/auth.ts:60-63 | a session-scoped login leaves a stale durable token in place, and that token is what the next start and initialize pick |
| `Auth.InitializeMixesScopes` | src/lib/stores/auth.ts:78-81 | a durable token and a session-scoped user combine into one restored session |
| `Auth.AuthStore.constructor` | src/lib/stores/auth.ts:44-51 | the new store's state is the initial state computed from the two storages |
| `Auth.AuthStore.Login` | src/lib/stores/auth.ts:55-66 | the state and both storages become `LoginStep` of the old ones; the consistency invariant is kept |
| `Auth.AuthStore.Logout` | src/lib/stores/auth.ts:67-75 | the state and both storages become `LogoutStep` of the old ones |
| `Auth.AuthStore.Initialize` | src/lib/stores/auth.ts:76-91 | the state becomes `InitializeStep` of the old one; storage is not in its frame, so it is not written |
| `Theme.Toggled` | src/lib/stores/theme.ts:14 | the result is light or dark, and dark exactly when the current value is light |
| `Theme.ToggleTwice` | src/lib/stores/theme.ts:14 | toggling twice restores light or dark; any other value becomes light, then dark |
| `Theme.SystemTheme` | src/lib/stores/theme.ts:41-42 | dark exactly when the platform prefers dark, light otherwise |
| `Theme.ResolveMode` | src/lib/stores/theme.ts:37-45 | a missing or empty mode counts as system; system follows the platform; any other mode is applied as given |
| `Theme.ApplyPreferences` | src/lib/stores/theme.ts:36-58 | the API branch applies the resolved theme, sets the dark class to match it, sets `data-theme` only for a truthy colour other than blue and otherwise leaves it untouched, and always sets `data-font-size` (default medium) |
| `Theme.ApiPreferences` | src/lib/stores/theme.ts:25-35 | the API branch is asked for exactly when the `auth` entry is truthy and parses to an object with a truthy token, and then the result is what the API answers for that token; otherwise there are no preferences |
| `Theme.FallbackAppearance` | src/lib/stores/theme.ts:67-82 | the stored theme when truthy, else the platform default; a dark class matching it; a stored colour other than blue or the untouched `data-theme`; the stored font size or medium |
| `Theme.InitAppearance` | src/lib/stores/theme.ts:22-83 | outside the browser nothing changes; the API branch when it completes; the fallback otherwise |
| `Theme.ApiBranchIgnoresFallbackKeys` | src/lib/stores/theme.ts:60-67 | once the API branch completes, the stored theme, colour and font size have no influence on the result |
| `Theme.NoAuthEntryFallsBack` | src/lib/stores/theme.ts:27-28 | without a truthy `auth` entry, init always takes the fallback branch, whatever the API would answer |
| `Theme.ThemeStore.constructor` | src/lib/stores/theme.ts:8 | the store starts at light |
| `Theme.ThemeStore.Toggle` | src/lib/stores/theme.ts:12-21 | the value becomes its toggle; in the browser `theme` is stored as the new value and the dark class matches it, nothing else changes; outside the browser only the value changes |
| `Theme.ThemeStore.Init` | src/lib/stores/theme.ts:22-83 | the value and the document root become `InitAppearance` of the old ones; storage is not written |
| `Theme.ThemeStore.ApplyApiPreferences` | src/lib/stores/theme.ts:36-60 | the effects of the API branch are exactly `ApplyPreferences` |
| `Theme.ThemeStore.ApplyStoredPreferences` | src/lib/stores/theme.ts:67-82 | the effects of the fallback branch are exactly `FallbackAppearance` |
| `Client.Decimal` | src/lib/api/client.ts:29 | the status is rendered as a non-empty string of decimal digits with no leading zero |
| `Client.DecimalRoundTrip` | src/lib/api/client.ts:29 | reading the rendered digits back gives the status |
| `Client.StatusMessage` | src/lib/api/client.ts:29 | the error message is never empty: the body's `message` when truthy, otherwise `API error: ` followed by the status |
| `Client.Settle` | src/lib/api/client.ts:27-32 | an OK response resolves to its parsed body and never rejects with the HTTP error; a failed one always rejects: with the generic message when the body does not parse, with a TypeError when the body is null, otherwise with `StatusMessage` |
| `Client.ApiRequest` | src/lib/api/client.ts:7-33 | the request goes to the base URL plus the endpoint with the caller's verb and body; `Content-Type: application/json` unless the caller overrides it; `Authorization: Bearer <token>` exactly when the token is truthy; the caller's other headers are kept; a `fetch` that rejects rejects the call with a TypeError, otherwise the result is the settled response |
| `Client.ApiGet` | src/lib/api/client.ts:37-38 | GET with no body; JSON content type, and a bearer header exactly when the token is truthy; no other headers |
| `Client.ApiPost` | src/lib/api/client.ts:40-45 | POST with the serialised data as body; the same headers |
| `Client.ApiPut` | src/lib/api/client.ts:47-52 | PUT with the serialised data as body; the same headers |
| `Client.ApiDelete` | src/lib/api/client.ts:54-55 | DELETE with no body; the same headers |
| `LayoutGuard.AnyStartsWith` | src/routes/+layout.server.ts:9 | true exactly when some route of the list is a prefix of the path |
| `LayoutGuard.IsPublicRoute` | src/routes/+layout.server.ts:6-9 | a path is public exactly when it starts with `/login` |
| `LayoutGuard.Load` | src/routes/+layout.server.ts:4-21 | the guard either passes (`{}`) or redirects 302 to `/login`, and it redirects exactly when the path is not public and the `authToken` cookie is missing or empty |
| `LayoutGuard.LoginPrefixNeverRedirects` | src/routes/+layout.server.ts:6-11 | every path that extends `/login`, such as `/loginxyz`, passes whatever the cookies |
| `LayoutGuard.DecidedByPathAndCookie` | src/routes/+layout.server.ts:4-21 | two requests with the same pathname and the same `authToken` cookie get the same decision |
| `SignupGuard.Load` | src/routes/usuarios/cadastro/+page.ts:5-16 | outside the browser it always passes; in the browser it redirects 302 to `/login` exactly when neither scope holds a truthy `authToken` |
| `LoginActions.RememberMe` | src/routes/login/+page.server.ts:8 | true exactly when the `rememberMe` field is the string `true` |
| `LoginActions.MaxAge` | src/routes/login/+page.server.ts:20 | 2592000 seconds when remembered, 86400 otherwise; the remembered lifetime is the longer one |
| `LoginActions.Login` | src/routes/login/+page.server.ts:5-24 | a missing or empty token fails with 400 and `Token não fornecido`, leaving the jar unchanged; otherwise the jar gains `authToken` with the token, path `/` and the chosen lifetime, and the action redirects 302 to `/` |
| `LoginActions.Logout` | src/routes/login/+page.server.ts:26-29 | `authToken` is gone whatever was there, nothing else changes, and the action redirects 302 to `/login` |
| `Wiring.SessionStoreNeverEnablesThemeApi` | src/lib/stores/theme.ts:27-28 | whatever the session store does, the theme store's API branch stays out of reach unless a truthy `auth` entry was already there |
| `Wiring.LoginOpensSignupPage` | src/routes/usuarios/cadastro/+page.ts:8-12 | after a login in the browser with a non-empty token, the registration page passes |
| `Wiring.LogoutClosesSignupPage` | src/routes/usuarios/cadastro/+page.ts:8-12 | after a logout in the browser, the registration page redirects to `/login` |
| `Wiring.LoginCookieOpensLayout` | src/routes/+layout.server.ts:13-17 | the cookie the login action sets opens every route |
| `Wiring.LogoutCookieClosesLayout` | src/routes/login/+page.server.ts:26-29 | after the logout action, exactly the public routes stay open |

## Left out

- The resource clients `src/lib/api/auth.ts`, `src/lib/api/users.ts` and `src/lib/api/preferences.ts` are not modelled. Each function maps to one fixed `api.*` call and holds no logic. One defect is noted and not modelled: `preferencesApi.updateTheme` calls `api.patch`, which the client does not define.
- Network I/O, the `API_URL` configuration and async sequencing are not modelled. The base URL is a parameter. The preferences call and `fetch` are parameters that return a response, or None for a call that rejects; a rejecting `fetch` rejects `apiRequest` with the same TypeError.
- JSON serialisation and parsing are not modelled. A stored user parses to `null` or to a user. A parsed response body is `null`, a scalar or an object whose fields are read as strings. The `auth` entry parses to `null` or to an object with an optional token. Non-string field values are not modelled.
- The `User` profile fields other than `id` and `role` are left out, because no behaviour depends on them.
- The DOM and `window.matchMedia` are not modelled. The document root is three attributes and the dark-mode signal is a boolean input. The root's other classes and attributes are not represented.
- The Svelte `writable` subscribe and notify machinery is left out. Each store's value is a single mutable field.
- `console.error` logging is left out.
- The cookie flags `httpOnly`, `secure` and `sameSite` are left out, and so is the cookie path on deletion. The internals of SvelteKit's `fail` and `redirect` are kept only as status and target.
- A form field that holds a file rather than a string is not modelled.
- Clearing the other scope on login is not modelled; the code does not do it.

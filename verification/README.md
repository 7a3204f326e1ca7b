# photostorage server: colour form and login flow

A Dafny model of the request-handling core of `server.js`, a small Fastify
site. It covers two parts of that file:

- **The colour form** (`POST /`), module `ColorForm` in `color_form.dfy`.
  The submitted `color` field is lower-cased. Every character that the
  JavaScript `\s` class matches is removed. The result is looked up in the
  colour table (the parsed `src/colors.json`, an input of type
  `map<string, Json>`). The parameters handed to the template then take one
  of three shapes:
  - `{seo}` when nothing was submitted;
  - `{color, colorError: null, seo}` when the key is a truthy entry of the table;
  - `{colorError: <raw input>, seo}` otherwise.
- **The login flow** (`initialize`, `GET /`, `/login`, `/oauth`, `/logout`),
  module `LoginFlow` in `login_flow.dfy`. The session is a `Session` object
  holding a `StateObject` (the `state` value, whose properties the handlers
  overwrite in place) and the `loggedIn` flag. Each route is a method on the
  session. Each method is proved equal to a pure step function on the
  session's value (`SessionData`). The lemmas about those functions cover
  single transitions and whole request sequences (`Run`).

The OAuth provider is never modelled. What it answers is an input:
- `/login` gets the outcome of the request-token call, plus the function
  that builds the authorisation URL from a token.
- `/oauth` gets `verify`, a function from its three arguments (token,
  verifier, secret) to an answer or a refusal. This lets the contracts state
  which stored values the call receives.

`Values` (`values.dfy`) holds the shared types:
- `Option`;
- `Field`, a property of a JavaScript object literal that is unset, `null`
  or set;
- `Json`, the value type of the parsed data files;
- `Truthy`, JavaScript's truthiness test on those values.

Facts about server.js that the lemmas make precise:

- When no colour is submitted, or the field is empty, the handler renders
  only `{seo}` (server.js:229-235). It does not echo the missing input as an
  error.
- `/login` on a logged-in session overwrites `oauth_token` and
  `oauth_token_secret` with a new temporary token and leaves `loggedIn` true
  (`LoginWhileSignedIn`). What holds on every reachable session is that when
  `loggedIn` is true, the token, its secret and the identity claims are all
  present (`SignedInHasIdentityAlways`). They need not be the values of the
  last verification.
- A refused verification leaves the temporary token in the session, and
  the verifier too. The session therefore stays pending (`CallbackPhases`).
- `/oauth` on a session without a `state` object fails before the provider
  is asked. Writing to `undefined` throws at server.js:197, so the visitor is
  redirected to `/error` without any verify call.

## Model

| member | source | states |
|---|---|---|
| ColorForm.LowerChar | server.js:242 | lowering one character never yields an upper-case letter, keeps white space as white space, and changes exactly the upper-case letters; a capital becomes the small letter whose upper-case form (`UpperChar`) is that capital |
| ColorForm.ToLower | server.js:242 | `toLowerCase` keeps the length and lowers every character in place |
| ColorForm.StripSpaces | server.js:242 | `replace(/\s/g, "")` leaves no white space, keeps every other character that occurs, and never lengthens the string |
| ColorForm.StripSpacesAppend | server.js:242 | stripping works position by position: stripping a concatenation is the concatenation of the stripped parts, so the kept characters stay in order |
| ColorForm.StripSpacesCounts | server.js:242 | every white-space character disappears, and every other character keeps its number of occurrences |
| ColorForm.StripSpacesKeepsClean | server.js:242 | a string without white space comes back whole |
| ColorForm.Normalize | server.js:242 | the lookup key has no white space and no upper-case letter and is no longer than the input |
| ColorForm.NormalizeAppend | server.js:242 | forming the key works character by character: the key of a concatenation is the concatenation of the keys |
| ColorForm.NormalIsFixed | server.js:242 | a string that is already lower case and free of white space is its own key |
| ColorForm.NormalizeIdempotent | server.js:242 | normalising a key again changes nothing |
| ColorForm.NormalizeCommutes | server.js:242 | lowering then stripping gives the same key as stripping then lowering |
| ColorForm.SpaceInsensitive | server.js:242 | inserting a white-space character anywhere in the input leaves the key unchanged |
| ColorForm.CaseInsensitive | server.js:242 | changing the case of any one character leaves the key unchanged |
| ColorForm.HandleColor | server.js:226-265 | `seo` is always passed; a colour is set exactly when a non-empty input's key is a truthy table entry, and it is that entry with `colorError` null; an error is set exactly when a non-empty input's key is not found, and it echoes the raw input with no colour; without input neither is set |
| ColorForm.EmptyInputIgnoresTable | server.js:229-235 | with the field absent or empty, the table is not consulted: any two tables give `{seo}` alone |
| ColorForm.ThreeShapes | server.js:229-259 | the parameters always have exactly one of the three shapes: neither field, colour with null error, or error without colour |
| ColorForm.SpellingFormsKey | server.js:242 | any string that spells a key forms that key: its characters are white space or, once lowered, the key's characters in order |
| ColorForm.AnySpellingFindsRecord | server.js:242-252 | any non-empty spelling of a stored colour's key, in any case and with white space anywhere, yields exactly that record and a null error |
| ColorForm.SameKeySameColor | server.js:242-259 | two non-empty inputs with the same key get the same colour, and when not found each echoes its own raw text |
| ColorForm.BlankSubmissionEchoes | server.js:235-259 | an input made only of white space is truthy, its key is empty, and unless the empty key is a colour the raw white space is echoed as the error |
| ColorForm.InheritedKeyPassesGuard | server.js:245 | as written, the input "constructor" passes the truthiness test on a table that has no such colour, while the model reports it as not found and echoes it |
| ColorForm.FoundColorIsTableRecord | server.js:245-252 | a rendered colour is always a truthy record stored under the key of the submitted name |
| LoginFlow.Put | server.js:197 | writing a property sets that property (unset for `undefined`) and leaves every other property as it was |
| LoginFlow.InitializeStep | server.js:68-91 | after `initialize` the session always has `state`; one without `state` gets an empty record and `loggedIn = false`; one with `state` is left unchanged |
| LoginFlow.HomeView | server.js:99-126 | `loggedOut` is false exactly when the session already had `state` and `loggedIn` is true; `seo` is passed through |
| LoginFlow.LoginStep | server.js:150-169 | `loggedIn` never changes; a redirect happens exactly when the token request succeeded and `state` exists; it goes to the authorisation URL built from that token; the token and secret are stored and every other property is kept; otherwise nothing changes and nothing is sent |
| LoginFlow.WithIdentity | server.js:205-209 | the five properties from the verify answer are all present with the answer's values, and every other property is kept |
| LoginFlow.CallbackStep | server.js:192-219 | the reply is `/` or `/error`; it is `/` exactly when `state` exists and the provider accepts the stored token, the received verifier and the stored secret; then `loggedIn` is true, the verifier and the answer's five values are stored, and every other property is kept; on `/error`, `loggedIn` is unchanged, and the only change is the verifier written into an existing `state` |
| LoginFlow.LogoutStep | server.js:176-185 | logout empties the session and redirects to `/` |
| LoginFlow.Initialize | server.js:68-91 | the session afterwards is `InitializeStep` of the one before; the `state` object is the old one or a fresh one |
| LoginFlow.Home | server.js:99-126 | the session is initialised as by `InitializeStep`, and the parameters are `HomeView` of the session before the request |
| LoginFlow.Login | server.js:150-169 | the session and the reply are those of `LoginStep`; the stored `state` object itself is kept, and its properties are written in place |
| LoginFlow.OAuthCallback | server.js:192-219 | the session and the reply are those of `CallbackStep`, with the `state` object written in place |
| LoginFlow.Logout | server.js:176-185 | the session and the reply are those of `LogoutStep` |
| LoginFlow.StepKeepsIdentity | server.js:153-211 | no route breaks "logged in implies token, secret and identity claims are stored" |
| LoginFlow.SignedInHasIdentityAlways | server.js:68-219 | on every session reached by any sequence of requests and provider answers, `loggedIn` true implies that all five identity properties are stored |
| LoginFlow.VisitKeepsPhase | server.js:72-77 | on a reachable session, `GET /` does not change the phase (anonymous, pending, authenticated) |
| LoginFlow.LoginMakesPending | server.js:153-160 | a granted token request on an anonymous, initialised session makes it pending |
| LoginFlow.CallbackPhases | server.js:197-217 | a verified callback authenticates; a refused one leaves the phase as it was, so a pending token is not cleared |
| LoginFlow.LogoutPhases | server.js:179-184 | logout ends anonymous from any session, and a second logout gives the same outcome |
| LoginFlow.LoginWhileSignedIn | server.js:153-160 | `/login` on a logged-in session keeps `loggedIn` true while replacing the stored access token with the new temporary token |
| LoginFlow.NoTokenWithoutLogin | server.js:68-219 | with no `/login` among the requests, and callbacks that meet a provider refusing a missing token, no token is ever stored and `loggedIn` never becomes true |
| LoginFlow.CallbackWithoutLoginFails | server.js:192-218 | `/oauth` on a session that never went through `/login` redirects to `/error` whenever the provider refuses a missing token |

## Left out

- Fastify setup, plugin registration, static files, form-body parsing and `listen` (server.js:7-45, 268-279): framework I/O.
- Handlebars rendering: the model stops at the parameters passed to `reply.view`.
- Cookie signing and encryption (server.js:12-22): the session is modelled as its in-memory contents during one request. Whether a change reaches the cookie is the session library's business. This includes the verifier written before a refused verification.
- The Flickr SDK calls `oauth.request`, `oauth.authorizeUrl` and `oauth.verify` are inputs. The callback address passed to `oauth.request` (server.js:61) therefore plays no part.
- `flickrPump` and the `flickr` client handle (server.js:59, 80-85, 117-119, 128-143): they only log and share a handle across requests. `loggedOut` is set before the pump runs, so its failure cannot change the page.
- `LoginFlow.HomeView`: the default `loggedOut = true` of the catch path (server.js:104, 121-123) is never observable in the model. `initialize` catches its own errors and reading the session does not throw, so nothing before line 115 can raise.
- ColorForm.ToLower: only ASCII and Latin-1 capitals are lowered. Other scripts, and mappings to several characters (such as U+0130), are left unchanged, whereas `toLowerCase` applies the full Unicode case mapping.
- ColorForm.LowerChar: lowering is modelled one character at a time. `toLowerCase` also has a context-sensitive mapping: a capital sigma at the end of a word becomes the final sigma ("ΑΣ" gives "ας", while "Σ" alone gives "σ"). So the real key formation is not character by character. `NormalizeAppend` and `CaseInsensitive` hold for the model's lowering, not for the full Unicode one.
- The form field is modelled as an optional string. A repeated field (parsed as an array) or a missing body makes the handler throw, and that is not modelled.
- `seo.json`, `colors.json` and the environment variables are inputs: `seo` is a `Json` value, and the table is a map.
- What Fastify does with a handler that returns without replying (`/login` failures) is not modelled. The model records `NoReply`.
- Races between concurrent requests on one session are not modelled: each request runs alone.
- `POST /` neither reads nor writes the session, so it is not a step of `Run`.

## Findings

| source | as written | input that shows it | evidently intended | confidence | as-written member | corrected member |
|---|---|---|---|---|---|---|
| server.js:245 | `if (colors[color])` indexes the parsed table as a plain object, so a key that is absent from the file still reads an inherited property; "constructor" and "__proto__" are inherited, already lower case and truthy | submitting `constructor` with a table that has no "constructor" entry renders `Object` as the colour with a null error | only the colours stored in the table are found; any other name is echoed as an error | not executed; high (standard JavaScript property lookup) | ColorForm.InheritedKeyPassesGuard | ColorForm.FoundColorIsTableRecord |

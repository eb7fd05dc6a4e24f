# Skill-exchange front end: identity store and skill search, modelled in Dafny

This project models two pieces of logic in a React front end for a skill-exchange site.

- **The identity store** (`AuthProvider`). It holds the signed-in user, a `loading` flag
  and an `error` message. It persists the user as one record under the `ss_user` key of
  the browser's local storage. It offers four operations:
  - hydration from that record when it mounts;
  - a simulated provider sign-in, which creates a guest with 1 token;
  - a password sign-in against one fixed demo account, which yields a user with 42 tokens;
  - sign-out.
- **The mentor search page** (`Match`). It turns a free-text query into a list of skills:
  split on `,`, trim each piece, drop the empty ones. A search sends that list to the
  backend and then updates the results and the busy flag.

Files:

- `wrappers.dfy` — `Option`, which stands for JavaScript's `null`/`undefined` beside a present value.
- `auth_provider.dfy` — module `Auth`. It holds:
  - the `Identity` record and the fixed values of both sign-in paths;
  - the credential test;
  - the store's transitions as functions on an `AuthState` value, with lemmas about them;
  - the class `AuthProvider`, whose methods are proved to perform those transitions;
  - two reload scenarios built from the class.
- `match_page.dfy` — module `Match`. It holds the tokeniser (`Split`, `Trim`, `DropEmpty`,
  `Skills`) with its lemmas, and the class `MatchPage` for the page state.

Local storage is a field `storage: map<string, string>`. So the model can say that the
store touches `ss_user` and no other key; `ss_jwt`, for one, is read elsewhere by the
admin page. `JSON.stringify` and `JSON.parse` are a pair of functions (`Auth.Json`) that
the store is built with. Where a property needs JSON to read back what it wrote, it
assumes that explicitly through `RoundTrips`. The random `crypto.randomUUID()` and
`Math.floor(Math.random() * 9999)` values are parameters of `LoginWithGoogle`.

Each operation is one atomic step, except the search. The search is two steps:
- `StartSearch` runs up to the `await`. It raises the busy flag and yields the request's `skills_wanted`.
- `SettleSearch` runs once the request has ended.

This split keeps the state the page renders while the request is in flight (`loading` true).

## Model

| member | source | states |
|---|---|---|
| `Match.Split` | src/pages/Match.jsx:10 | `q.split(',')` gives at least one piece, and no piece contains a comma |
| `Match.JoinSplit` | src/pages/Match.jsx:10 | joining the pieces with `,` gives back the query, so splitting loses and reorders nothing |
| `Match.SplitJoin` | src/pages/Match.jsx:10 | splitting the join of comma-free pieces gives back those pieces (Split and Join are inverse) |
| `Match.SplitWithoutComma` | src/pages/Match.jsx:10 | a comma-free string is a single piece |
| `Match.SplitAtComma` | src/pages/Match.jsx:10 | the pieces of `a,b` are the pieces of `a` followed by those of `b` |
| `Match.Trim` | src/pages/Match.jsx:10 | `s.trim()` is the slice of `s` outside which every code point is JavaScript whitespace, and that slice neither starts nor ends with whitespace |
| `Match.TrimUnique` | src/pages/Match.jsx:10 | those facts determine the trimmed string, so Trim is the only function meeting them |
| `Match.TrimTrimmed` | src/pages/Match.jsx:10 | a string without surrounding whitespace is its own trim, so trimming is idempotent |
| `Match.TrimKeepsCommasOut` | src/pages/Match.jsx:10 | trimming a comma-free piece yields a comma-free token |
| `Match.TrimEach` | src/pages/Match.jsx:10 | `.map(s => s.trim())` gives, at each position, the trim of the piece there, so it keeps the length and every element is without whitespace at either end |
| `Match.DropEmpty` | src/pages/Match.jsx:10 | `.filter(Boolean)` keeps exactly the non-empty strings, each as many times as it occurs, and never lengthens the list |
| `Match.DropEmptyAppend` | src/pages/Match.jsx:10 | filtering a concatenation is the concatenation of the filtered parts, so the kept strings stay in order |
| `Match.DropEmptySingle` | src/pages/Match.jsx:10 | a single string is kept exactly when it is non-empty; with `DropEmptyAppend` this fixes `.filter(Boolean)` on every list |
| `Match.Skills` | src/pages/Match.jsx:10 | the tokens of a query are never more than its comma pieces, and none is empty |
| `Match.TokensWellFormed` | src/pages/Match.jsx:10 | every skill token is non-empty, has no leading or trailing whitespace and contains no comma |
| `Match.SkillsAtComma` | src/pages/Match.jsx:10 | the tokens of `a,b` are the tokens of `a` followed by the tokens of `b`, so order is preserved |
| `Match.SkillsOfPiece` | src/pages/Match.jsx:10 | a comma-free piece gives its trimmed text as the one token, or no token when that is empty |
| `Match.DefaultQuerySkills` | src/pages/Match.jsx:6-10 | the initial query `React, Python` gives exactly `["React", "Python"]` |
| `Match.BlankPiecesDropped` | src/pages/Match.jsx:10 | `" , ,Node.js,"` gives exactly `["Node.js"]`: blank and empty pieces vanish |
| `Match.ResultsAfter` | src/pages/Match.jsx:20-24 | after a failure the old results stay; after a response only mentors it returned are shown |
| `Match.ResponseReplacesResults` | src/pages/Match.jsx:20-21 | a response replaces the results with `data.results`, or with `[]` when that field is missing |
| `Match.FailureKeepsResults` | src/pages/Match.jsx:22-24 | a thrown request or decoding error leaves the results as they were |
| `Match.MatchPage.constructor` | src/pages/Match.jsx:6-8 | the page starts with the query `React, Python`, no results and not loading |
| `Match.MatchPage.EditQuery` | src/pages/Match.jsx:35 | typing replaces the query text and nothing else |
| `Match.MatchPage.StartSearch` | src/pages/Match.jsx:12-19 | starting a search sets `loading` and sends the query's tokens, each well formed, as `skills_wanted`; the results are untouched |
| `Match.MatchPage.SettleSearch` | src/pages/Match.jsx:20-26 | when the request ends, the results become what `ResultsAfter` says for that outcome, and `loading` is false after every outcome |
| `Auth.Decimal` | src/components/AuthProvider.jsx:29 | the random draw is printed as a non-empty run of decimal digits with no leading zero |
| `Auth.DecimalValue` | src/components/AuthProvider.jsx:29 | the printed digits read back as the drawn number, so the guest email records it exactly |
| `Auth.GuestEmail` | src/components/AuthProvider.jsx:29 | the guest email is `guest`, decimal digits, then `@skillswap.dev`, and those digits read back as the draw |
| `Auth.GuestIdentity` | src/components/AuthProvider.jsx:26-32 | the simulated sign-in's user has the given uid and 1 token, and is never the demo user |
| `Auth.LowerChar` | src/components/AuthProvider.jsx:49 | lower-casing a code point leaves no ASCII capital, and a changed code point is a case variant of its result |
| `Auth.ToLower` | src/components/AuthProvider.jsx:49 | the modelled lower-casing keeps the length and leaves no ASCII capital |
| `Auth.CredentialsMatch` | src/components/AuthProvider.jsx:47-49 | acceptance needs an email as long as `demo@skillswap.dev` and the password `demo123` |
| `Auth.ToLowerIff` | src/components/AuthProvider.jsx:49 | lower-casing a string gives a given lower-case ASCII text exactly when the string spells that text letter by letter in either case |
| `Auth.CredentialsMatchIff` | src/components/AuthProvider.jsx:47-49 | the credentials match exactly when an email is present and spells `demo@skillswap.dev` in any case, and the password is `demo123` as written |
| `Auth.UpperCaseEmailAccepted` | src/components/AuthProvider.jsx:49 | `DEMO@SKILLSWAP.DEV` with `demo123` is accepted |
| `Auth.KelvinSignAccepted` | src/components/AuthProvider.jsx:49 | the email with U+212A KELVIN SIGN in place of its `k` is accepted, because `toLowerCase` maps that sign to `k` |
| `Auth.PasswordIsCaseSensitive` | src/components/AuthProvider.jsx:48-49 | `Demo123` is rejected whatever the email |
| `Auth.Hydrated` | src/components/AuthProvider.jsx:14-19 | a user is restored only from a non-empty `ss_user` record that parses to that user |
| `Auth.Mounted` | src/components/AuthProvider.jsx:9-19 | a freshly mounted store's user is what hydration reads from the `ss_user` record (so a user only when the record exists); it is idle, has no error and keeps the storage as found |
| `Auth.HydrateCases` | src/components/AuthProvider.jsx:14-19 | with no `ss_user` record, or an empty one, there is no user; a record that parses gives the parsed user; a record that fails to parse gives no user and raises nothing |
| `Auth.AuthProvider.Mount` | src/components/AuthProvider.jsx:9-19 | mounting starts signed out, not loading and without error, then takes the user from the persisted record as `Hydrated` describes |
| `Auth.SignedIn` | src/components/AuthProvider.jsx:33-36 | a finished sign-in as `u` has `u` as user, is idle with no error, and adds or replaces only the `ss_user` record, holding `u` stringified |
| `Auth.AfterGoogleLogin` | src/components/AuthProvider.jsx:21-38 | the simulated sign-in always signs in a one-token guest with the given uid and writes only `ss_user`, keeping every other key and its value |
| `Auth.GoogleLoginOutcome` | src/components/AuthProvider.jsx:21-38 | a simulated sign-in always ends with the given uid, name `Guest Learner`, email `guest<n>@skillswap.dev`, avatar `https://i.pravatar.cc/100` and 1 token; the same user is persisted, the error is cleared, `loading` is false and no other storage key changes |
| `Auth.AuthProvider.LoginWithGoogle` | src/components/AuthProvider.jsx:21-38 | the store's new state is the simulated sign-in transition of its old state |
| `Auth.AfterPasswordLogin` | src/components/AuthProvider.jsx:40-67 | the password sign-in succeeds exactly when the credentials match; success signs in the demo user; failure keeps the user and the storage; it always ends idle |
| `Auth.PasswordLoginOkIff` | src/components/AuthProvider.jsx:47-49 | the password sign-in reports `ok` exactly for the demo email in any case with password `demo123` |
| `Auth.PasswordLoginSuccess` | src/components/AuthProvider.jsx:50-59 | on success the user is the demo identity (`demo-user-1`, `demo@skillswap.dev` whatever case was typed, 42 tokens), it is persisted, the error is cleared, `loading` is false and the result is `{ok: true}` |
| `Auth.PasswordLoginFailure` | src/components/AuthProvider.jsx:60-66 | on failure the user and the storage are unchanged, the error is the fixed hint, `loading` is false and the result is `{ok: false, error: 'Invalid credentials'}` |
| `Auth.MissingEmailFails` | src/components/AuthProvider.jsx:49 | a missing email always fails |
| `Auth.AuthProvider.LoginWithPassword` | src/components/AuthProvider.jsx:40-67 | the store's new state and the returned result are those of the password sign-in transition |
| `Auth.AfterLogout` | src/components/AuthProvider.jsx:69-72 | sign-out leaves nobody signed in and removes the `ss_user` record and only that key |
| `Auth.LogoutOutcome` | src/components/AuthProvider.jsx:69-72 | sign-out clears the user and deletes the record, leaves `loading` and `error` alone, and a second sign-out changes nothing |
| `Auth.AuthProvider.Logout` | src/components/AuthProvider.jsx:69-72 | the store's new state is the sign-out transition of its old state |
| `Auth.HydrateAfterLogout` | src/components/AuthProvider.jsx:69-72 | after sign-out, hydration finds no user whatever the parser |
| `Auth.HydrateAfterSignIn` | src/components/AuthProvider.jsx:57-58 | after a sign-in as `u`, hydration with a round-tripping JSON gives `u` back |
| `Auth.OtherKeysUntouched` | src/components/AuthProvider.jsx:69-72 | sign-in and sign-out change the `ss_user` record and no other storage key |
| `Auth.SignOutSurvivesReload` | src/components/AuthProvider.jsx:69-72 | demo sign-in, sign-out, then a fresh mount over the same storage: nobody is signed in |
| `Auth.SignInSurvivesReload` | src/components/AuthProvider.jsx:50-59 | demo sign-in, then a fresh mount over the same storage: the demo user is signed in again |

## Behaviour worth knowing

- When a search throws, `search` keeps the previous results and shows no notice; it
  only logs the error (`FailureKeepsResults`).
- `search` never checks `res.ok`: any response whose body decodes is used as it is,
  whatever its HTTP status (`SearchOutcome.Responded` covers every status).
- The email test uses `toLowerCase`, which also maps U+212A KELVIN SIGN to `k`, so that
  sign is accepted in place of the `k` of the demo email (`KelvinSignAccepted`).

## Left out

- The route guard imported by src/App.jsx: `src/components/ProtectedRoute` is not part of this model.
- The pages `Landing`, `AppShell`, `Chat`, `Dashboard`, `Sessions` and `Admin`, and the router: they only render, open a WebSocket or wrap a single `fetch`.
- The 500 ms pause in `loginWithPassword` and React's asynchronous, batched `setState`. Each sign-in is one atomic step. So the model has no state in which a password sign-in is half done (`loading` true, error cleared), and no sign-out that runs during the pause.
- Concurrent searches. Each `SettleSearch` applies one outcome in the order outcomes arrive; the model does not track which request an outcome belongs to.
- The internals of `JSON.stringify` and `JSON.parse`. They are the functions of `Auth.Json`. A persisted text that parses to something other than an identity record or `null` (a number, an array) is not represented.
- `crypto.randomUUID()` and `Math.random()`. Their values are parameters.
- Auth.LowerChar: lower-cases only `A`–`Z` and U+212A KELVIN SIGN. Every other code point is kept, so this is not JavaScript's full Unicode case mapping. It also maps every code point to one code point, while `toLowerCase` turns U+0130 LATIN CAPITAL LETTER I WITH DOT ABOVE into the two code points `i` U+0307; that difference changes no comparison with ASCII text, since U+0307 is not ASCII. It gives the same answer as `toLowerCase` in the one comparison the store makes, against an ASCII email.
- An email argument that is neither a string nor missing. `toLowerCase` would throw a `TypeError`; the model's email is an optional string.
- JavaScript strings holding unpaired UTF-16 surrogates, which a Dafny `string` cannot hold.
- Failures of `localStorage.setItem` (a full or disabled storage).
- A throwing `localStorage.getItem` during hydration (src/components/AuthProvider.jsx:15, outside the `try`): with disabled storage the mount effect throws, while `Mounted` always hydrates.
- A missing `crypto.randomUUID` (src/components/AuthProvider.jsx:27, absent outside secure contexts): `loginWithGoogle` would then throw with `user` unchanged and `loading` reset, while `LoginWithGoogle` always signs in.
- The search on mount (src/pages/Match.jsx:29): the page's effect calls `search()` as soon as it mounts, so the constructor's idle state is followed at once by `StartSearch`. The model leaves that call to the caller.
- The `console.error` logging in `search`.
- A `data.results` that is truthy but not a list of mentor records.

# auth-front: the Login and Sign Up submit handlers in Dafny

The application has three pages: Home, Login and Sign Up. The logic worth
stating is the submit handler of the two form pages. Each handler does five
things in this order:

1. It clears the previous messages.
2. It runs every field check, without stopping at the first failure.
3. It stops if any check failed.
4. Otherwise it turns the loading flag on, sends the request, and turns the
   outcome into page state. The outcome is either a server error, or a success
   message plus a token write (Login only) plus a scheduled redirect.
5. It turns the loading flag off again.

Each page is a class whose fields are the React state of the component
(`LoginPage` and `SignUpPage`). The handler is split at its `await`:

- `Begin` covers the reset, the checks, loading on, and the request leaving.
- `Complete` covers reconciling the outcome and the `finally` block.
- `HandleSubmit` runs `Begin` and then `Complete` for one given outcome.

Setter calls take effect in program order. A ghost `events` field records,
in that order, every state write and side effect of the submit handler
(the input fields' change handlers add nothing to it). This is how the contracts
state ordering: the token is stored before the success message is shown, and
the message is shown before the redirect is scheduled.

Modules:

- `Wrappers`: `Option`, for JSON fields that may be absent.
- `Forms`: the request `Outcome` (thrown, or a reply with `ok` and the
  optional `error`, `message` and `token` fields), the `Redirect` record (the
  route and the delay in ms), the `Event` trace, and `OrElse`. `OrElse` is
  JavaScript's `x || fallback`: an absent or empty string falls back.
- `EmailFormat`: the Login check `^[^\s@]+@[^\s@]+\.[^\s@]+$`. There are two
  definitions. One follows the expression's shape (`MatchesLoginPattern`).
  The other splits the address at its `@` (`IsLoginEmail`, which the page
  runs). A lemma proves they agree. The module also holds the SignUp check,
  `includes("@")`. JavaScript's `\s` is written out as the ECMAScript
  WhiteSpace and LineTerminator code points. The general lemmas depend on
  that list only in that `.` is not whitespace; the example methods also
  use the fact that the letters of their sample addresses are not
  whitespace.
- `TokenJson`: `JSON.stringify` of the token and a decoder that inverts it.
- `Storage`: `localStorage` as a class holding a `map`. It is passed to both
  pages.
- `Login` and `SignUp`: the page classes, plus short example methods. The
  examples replay concrete cases: a token "abc" reads back as "abc",
  "Email taken" is shown verbatim, and one submit reports both errors.

The code has no check on the name (src/Pages/SignUp.jsx:28-40). An empty
name is sent unchanged (`SignUp.EmptyNameExample`).

## Model

| member | source | states |
|---|---|---|
| `Forms.OrElse` | src/Pages/Login.jsx:57 | `x \|\| fallback` on an optional string: a present, non-empty value is kept; an absent or empty one gives the fallback; a non-empty fallback never gives an empty message |
| `EmailFormat.LoginEmailMatchesPattern` | src/Pages/Login.jsx:30-31 | the split check accepts exactly the strings the regular expression matches: one `@`, a non-empty local part with no whitespace, and a whitespace-free domain with a `.` that is neither its first nor its last character |
| `EmailFormat.LoginEmailIsSignUpEmail` | src/Pages/SignUp.jsx:29 | every address the Login pattern accepts contains `@`, so it also passes the SignUp check |
| `EmailFormat.FirstIndex` | src/Pages/Login.jsx:30 | the index found holds the first `@` of the address; the local part before it has no `@` |
| `TokenJson.UnescapeEscape` | src/Pages/Login.jsx:60 | decoding the body of a JSON string literal undoes `JSON.stringify`'s escaping, for every string |
| `TokenJson.ParseStringify` | src/Pages/Login.jsx:60 | the stored text of `JSON.stringify(data.token)` reads back as the same token. An absent token, stored as "undefined", reads back as absent under this decoder. So different tokens are never stored as the same text |
| `TokenJson.HexDigit` | src/Pages/Login.jsx:60 | the hex digit written in a `\u00XX` escape reads back as the value it encodes |
| `Storage.LocalStorage.SetItem` | src/Pages/Login.jsx:60 | `setItem` overwrites the one key: afterwards `getItem` of that key gives the new value, and every other key reads as it did before |
| `Login.LoginPage.constructor` | src/Pages/Login.jsx:12-18 | a mounted page has empty fields and messages, no loading, no redirects |
| `Login.LoginPage.SetEmail` | src/Pages/Login.jsx:81 | the email input's change writes `email` only |
| `Login.LoginPage.SetPassword` | src/Pages/Login.jsx:93 | the password input's change writes `password` only |
| `Login.LoginPage.Begin` | src/Pages/Login.jsx:20-44 | the reset clears the email, password and server errors but not the success message. The email error is set exactly when the regular expression fails to match, and the password error exactly when the length is under 8. Both checks always run. The request `{email, password}` is sent, and loading turned on, exactly when both pass. Otherwise loading, the redirects and the success message are unchanged. The trace records the writes in program order |
| `Login.LoginPage.Complete` | src/Pages/Login.jsx:46-68 | a throw shows the generic error. A non-OK reply shows `data.error` or "Failed to login. Please try again." and writes nothing. An OK reply stores `JSON.stringify(data.token)` under "token" (which reads back as the token), then shows `data.message` or "Login successful!", then schedules `/` after 1500 ms. Loading ends off in every case. The field errors are unchanged |
| `Login.LoginPage.HandleSubmit` | src/Pages/Login.jsx:20-69 | one whole submit. Invalid input sends nothing and leaves the store, redirects, success message and loading as they were. A valid submit ends with loading off and the outcome reconciled as in `Complete` |
| `Login.SuccessfulLoginExample` | src/Pages/Login.jsx:56-62 | an OK reply `{token: "abc", message: "ok"}` leaves "abc" readable from the store, shows "ok" and schedules one redirect to `/` at 1500 ms |
| `Login.BothErrorsExample` | src/Pages/Login.jsx:29-42 | "bademail" with "short" shows both field errors from one submit and sends nothing |
| `SignUp.SignUpPage.constructor` | src/Pages/SignUp.jsx:9-16 | a mounted page has empty fields and messages, no loading, no redirects |
| `SignUp.SignUpPage.SetName` | src/Pages/SignUp.jsx:83 | the name input's change writes `name` only |
| `SignUp.SignUpPage.SetEmail` | src/Pages/SignUp.jsx:95 | the email input's change writes `email` only |
| `SignUp.SignUpPage.SetPassword` | src/Pages/SignUp.jsx:108 | the password input's change writes `password` only |
| `SignUp.SignUpPage.Begin` | src/Pages/SignUp.jsx:18-41 | the reset clears all four messages. The email error is set exactly when the address has no `@`, and the password error exactly when the length is under 8. Both checks always run. The name is never checked. The request is exactly `{name, email, password}`, and is sent with loading on exactly when both checks pass. Otherwise loading and the redirects are unchanged |
| `SignUp.SignUpPage.Complete` | src/Pages/SignUp.jsx:42-70 | a throw shows the generic error. A non-OK reply shows `data.error` or "Failed to sign up. Please try again." and schedules nothing. An OK reply shows `data.message` or "Signup successful!" and then schedules `/Login` after 2000 ms. The token store is never changed. Loading ends off in every case |
| `SignUp.SignUpPage.HandleSubmit` | src/Pages/SignUp.jsx:18-71 | one whole submit. Invalid input sends nothing and leaves loading and the redirects as they were. A valid submit ends with loading off and the outcome reconciled as in `Complete`. The token store is unchanged either way |
| `SignUp.BothErrorsExample` | src/Pages/SignUp.jsx:28-40 | an empty name, "bademail" and "short" show the email and password errors together from one submit, and nothing is sent |
| `SignUp.EmailTakenExample` | src/Pages/SignUp.jsx:53-57 | a non-OK reply `{error: "Email taken"}` shows exactly "Email taken" and schedules no navigation |
| `SignUp.EmptyNameExample` | src/Pages/SignUp.jsx:48 | an empty name with a valid email and password is sent as the body `{"", email, password}` |

## Left out

- src/App.jsx: only the route table; it makes no decisions.
- src/Pages/Home.jsx: not part of this model. Its fetch on mount, its
  `JSON.parse` of the stored token and its `Bearer` header are I/O.
- TokenJson.Parse: reads a stored token back only to state the round trip.
  It decodes JSON string literals only (no surrogate-pair escapes, no other
  JSON values), so it is not a model of Home's `JSON.parse`.
- TokenJson.Stringify: a Dafny `string` holds Unicode scalar values, so a
  token holding a lone surrogate cannot be expressed. `JSON.stringify`
  would write such a code unit as a `\udXXX` escape; that case is not
  modelled.
- An OK login reply without `token` stores the text "undefined". Home's
  `JSON.parse(localStorage.getItem("token"))` (src/Pages/Home.jsx:9)
  throws a SyntaxError on that text, and the call is outside its `try`.
  `TokenJson.Parse` returns `None` for it instead. Home's reaction is not
  modelled.
- The network: `fetch` and `response.json()` become the `Outcome`
  parameter of `Complete` and `HandleSubmit`. A throw in either becomes
  `Thrown`.
- The response fields: `data.error`, `data.message` and `data.token` are
  modelled as optional strings. A JSON number, object or `null` in those
  fields is not modelled.
- A `setItem` that throws (a full store): not modelled. `Thrown` stands
  only for a throw before any effect.
- `console.log` and `console.error`: diagnostics only.
- Timers: `setTimeout` is recorded as a `Redirect` (the route and the
  delay). Whether and when it fires is not modelled.
- Components that unmount early: their timers are not cancelled, and this
  is not modelled.
- Rendering: JSX, the react-bootstrap components, and the disabled
  button. So a second submit while one is loading is not modelled.
- React's batching of state updates: the model applies each setter at
  once, in program order.
- Login.LoginPage.Begin: on invalid input the contract says `isLoading` is
  unchanged, not that it is false. It is false whenever no request is in
  flight, and the disabled button keeps a submit from starting during one;
  that guard is rendering and is not modelled.
- SignUp.SignUpPage.Begin: the same as for Login: on invalid input
  `isLoading` is stated unchanged, not false.
- `password.length` counts UTF-16 code units. The model counts
  characters (`|password|`), so the two differ for characters outside the
  Basic Multilingual Plane.

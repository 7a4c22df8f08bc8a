/**
  What the Login and SignUp pages share: the outcome of one request, the
  navigation a successful submit schedules, the trace of state writes a
  submit performs, JavaScript's `||` on an optional string, and the
  password-length rule.
 */
module Forms {
  import opened Wrappers

  /** What the awaited `fetch` and `response.json()` produced: either one
      of them threw, or a response arrived with its `ok` flag and the
      string fields of its JSON body (absent fields are `None`). */
  datatype Outcome =
    | Thrown
    | Reply(ok: bool, error: Option<string>, message: Option<string>, token: Option<string>)

  /** A `setTimeout(() => navigate(route), delayMs)` call. */
  datatype Redirect = Redirect(route: string, delayMs: nat)

  /** One observable step of a submit handler, in program order: a React
      state setter call, the request leaving, a `localStorage` write or a
      scheduled navigation. `B` is the page's request body. */
  datatype Event<B> =
    | EmailErrorSet(text: string)
    | PasswordErrorSet(text: string)
    | ServerErrorSet(text: string)
    | SuccessMessageSet(text: string)
    | LoadingSet(on: bool)
    | RequestSent(body: B)
    | ItemStored(key: string, value: string)
    | NavigationScheduled(redirect: Redirect)

  /** JavaScript `x || fallback` where `x` is an optional string: an
      absent field and the empty string are falsy, so both give the
      fallback. */
  function OrElse(x: Option<string>, fallback: string): (r: string)
    ensures x.Some? && x.value != "" ==> r == x.value
    ensures x.None? || x.value == "" ==> r == fallback
    ensures fallback != "" ==> r != ""
  {
    match x
    case Some(v) => if v != "" then v else fallback
    case None => fallback
  }

  const MinPasswordLength: nat := 8

  /** `password.length < 8` fails; the length counts characters. */
  predicate IsLongEnough(password: string) {
    |password| >= MinPasswordLength
  }
}

/**
  The Login page's form state and its submit handler.

  The handler is split at its `await`: `Begin` is everything up to the
  moment the request leaves (reset, both checks, loading on), `Complete`
  is everything after the response is known (the server error, or the
  token write, the success message and the scheduled redirect, and the
  `finally` that turns loading off). `HandleSubmit` runs the two in
  sequence for one request outcome.
 */
module Login {
  import opened Wrappers
  import opened Forms
  import EmailFormat
  import TokenJson
  import Storage

  const InvalidEmailText := "Please enter a valid email address."
  const ShortPasswordText := "Password must be at least 8 characters long."
  const LoginFailedText := "Failed to login. Please try again."
  const LoginSucceededText := "Login successful!"
  const UnexpectedErrorText := "Something went wrong. Please try again later."
  const TokenKey := "token"
  const HomeRoute := "/"
  const RedirectDelayMs: nat := 1500

  /** The JSON body of the login request: `{ email, password }`. */
  datatype LoginBody = LoginBody(email: string, password: string)

  class LoginPage {
    /** The process-wide token store the page writes to. */
    const store: Storage.LocalStorage

    var email: string
    var password: string
    var emailError: string
    var passwordError: string
    var serverError: string
    var successMessage: string
    var isLoading: bool
    /** Every navigation the page has scheduled, oldest first. */
    var redirects: seq<Redirect>
    /** Every state write and side effect of the page, in program order. */
    ghost var events: seq<Event<LoginBody>>

    /** Mounting the page: every field starts empty and nothing is loading. */
    constructor (store: Storage.LocalStorage)
      ensures this.store == store
      ensures email == "" && password == ""
      ensures emailError == "" && passwordError == "" && serverError == "" && successMessage == ""
      ensures !isLoading && redirects == [] && events == []
    {
      this.store := store;
      email, password := "", "";
      emailError, passwordError, serverError, successMessage := "", "", "", "";
      isLoading := false;
      redirects := [];
      events := [];
    }

    /** The email input's `onChange`. */
    method SetEmail(value: string)
      modifies this`email
      ensures email == value
    {
      email := value;
    }

    /** The password input's `onChange`. */
    method SetPassword(value: string)
      modifies this`password
      ensures password == value
    {
      password := value;
    }

    /** The handler up to the request: clear the three messages, run both
        checks, and on valid input turn loading on and send the body. The
        success message is not cleared. */
    method Begin() returns (request: Option<LoginBody>)
      modifies this
      ensures email == old(email) && password == old(password)
      ensures serverError == ""
      ensures emailError == if EmailFormat.MatchesLoginPattern(email) then "" else InvalidEmailText
      ensures passwordError == if IsLongEnough(password) then "" else ShortPasswordText
      ensures request.Some? <==> EmailFormat.MatchesLoginPattern(email) && IsLongEnough(password)
      ensures request.Some? ==> request.value == LoginBody(email, password) && isLoading
      ensures request.None? ==> isLoading == old(isLoading)
      ensures successMessage == old(successMessage) && redirects == old(redirects)
      ensures events == old(events)
        + [EmailErrorSet(""), PasswordErrorSet(""), ServerErrorSet("")]
        + (if EmailFormat.MatchesLoginPattern(email) then [] else [EmailErrorSet(InvalidEmailText)])
        + (if IsLongEnough(password) then [] else [PasswordErrorSet(ShortPasswordText)])
        + (if request.Some? then [LoadingSet(true), RequestSent(request.value)] else [])
    {
      var valid := true;
      emailError := "";
      passwordError := "";
      serverError := "";
      events := events + [EmailErrorSet(""), PasswordErrorSet(""), ServerErrorSet("")];

      EmailFormat.LoginEmailMatchesPattern(email);
      if !EmailFormat.IsLoginEmail(email) {
        emailError := InvalidEmailText;
        events := events + [EmailErrorSet(InvalidEmailText)];
        valid := false;
      }

      if !IsLongEnough(password) {
        passwordError := ShortPasswordText;
        events := events + [PasswordErrorSet(ShortPasswordText)];
        valid := false;
      }

      if !valid {
        return None;
      }

      isLoading := true;
      request := Some(LoginBody(email, password));
      events := events + [LoadingSet(true), RequestSent(request.value)];
    }

    /** The handler after the request: reconcile the outcome, then turn
        loading off whatever happened. The token is stored before the
        success message is shown, and that before the redirect is
        scheduled. */
    method Complete(outcome: Outcome)
      modifies this, store
      ensures email == old(email) && password == old(password)
      ensures emailError == old(emailError) && passwordError == old(passwordError)
      ensures !isLoading
      ensures outcome.Thrown? ==>
        serverError == UnexpectedErrorText && successMessage == old(successMessage)
        && store.items == old(store.items) && redirects == old(redirects)
        && events == old(events) + [ServerErrorSet(UnexpectedErrorText), LoadingSet(false)]
      ensures outcome.Reply? && !outcome.ok ==>
        serverError == OrElse(outcome.error, LoginFailedText) && successMessage == old(successMessage)
        && store.items == old(store.items) && redirects == old(redirects)
        && events == old(events) + [ServerErrorSet(serverError), LoadingSet(false)]
      ensures outcome.Reply? && outcome.ok ==>
        serverError == old(serverError)
        && store.items == old(store.items)[TokenKey := TokenJson.Stringify(outcome.token)]
        && successMessage == OrElse(outcome.message, LoginSucceededText)
        && redirects == old(redirects) + [Redirect(HomeRoute, RedirectDelayMs)]
        && events == old(events) + [ItemStored(TokenKey, TokenJson.Stringify(outcome.token)),
                                    SuccessMessageSet(successMessage),
                                    NavigationScheduled(Redirect(HomeRoute, RedirectDelayMs)),
                                    LoadingSet(false)]
      ensures outcome.Reply? && outcome.ok ==>
        TokenKey in store.items && TokenJson.Parse(store.items[TokenKey]) == outcome.token
    {
      match outcome {
        case Thrown =>
          serverError := UnexpectedErrorText;
          events := events + [ServerErrorSet(UnexpectedErrorText)];
        case Reply(ok, error, message, token) =>
          if !ok {
            serverError := OrElse(error, LoginFailedText);
            events := events + [ServerErrorSet(serverError)];
          } else {
            var stored := TokenJson.Stringify(token);
            store.SetItem(TokenKey, stored);
            TokenJson.ParseStringify(token);
            successMessage := OrElse(message, LoginSucceededText);
            redirects := redirects + [Redirect(HomeRoute, RedirectDelayMs)];
            events := events + [ItemStored(TokenKey, stored), SuccessMessageSet(successMessage),
                                NavigationScheduled(Redirect(HomeRoute, RedirectDelayMs))];
          }
      }
      isLoading := false;
      events := events + [LoadingSet(false)];
    }

    /** One submit whose request, if sent, ends in `outcome`. */
    method HandleSubmit(outcome: Outcome) returns (request: Option<LoginBody>)
      modifies this, store
      ensures email == old(email) && password == old(password)
      ensures emailError == if EmailFormat.MatchesLoginPattern(email) then "" else InvalidEmailText
      ensures passwordError == if IsLongEnough(password) then "" else ShortPasswordText
      ensures request.Some? <==> EmailFormat.MatchesLoginPattern(email) && IsLongEnough(password)
      ensures request.Some? ==> request.value == LoginBody(email, password) && !isLoading
      ensures request.None? ==>
        serverError == "" && successMessage == old(successMessage) && isLoading == old(isLoading)
        && store.items == old(store.items) && redirects == old(redirects)
      ensures request.Some? && outcome.Thrown? ==>
        serverError == UnexpectedErrorText && successMessage == old(successMessage)
        && store.items == old(store.items) && redirects == old(redirects)
      ensures request.Some? && outcome.Reply? && !outcome.ok ==>
        serverError == OrElse(outcome.error, LoginFailedText) && successMessage == old(successMessage)
        && store.items == old(store.items) && redirects == old(redirects)
      ensures request.Some? && outcome.Reply? && outcome.ok ==>
        serverError == ""
        && store.items == old(store.items)[TokenKey := TokenJson.Stringify(outcome.token)]
        && TokenJson.Parse(store.items[TokenKey]) == outcome.token
        && successMessage == OrElse(outcome.message, LoginSucceededText)
        && redirects == old(redirects) + [Redirect(HomeRoute, RedirectDelayMs)]
    {
      request := Begin();
      if request.Some? {
        Complete(outcome);
      }
    }
  }

  /** Logging in with `{token: "abc", message: "ok"}` and an OK status:
      the store then reads back "abc", the page shows "ok", and one
      redirect to `/` after 1500 ms is scheduled. */
  method SuccessfulLoginExample() returns (token: Option<string>, shown: string, scheduled: seq<Redirect>)
    ensures token == Some("abc") && shown == "ok" && scheduled == [Redirect("/", 1500)]
  {
    var store := new Storage.LocalStorage(map[]);
    var page := new LoginPage(store);
    page.SetEmail("a@b.co");
    page.SetPassword("password");
    assert EmailFormat.MatchesLoginPattern(page.email) by {
      var s := page.email;
      assert s[1] == '@' && s[3] == '.';
      assert s[..1] == "a" && s[2..3] == "b" && s[4..] == "co";
    }
    var request := page.HandleSubmit(Reply(true, None, Some("ok"), Some("abc")));
    token := match store.GetItem(TokenKey) case Some(text) => TokenJson.Parse(text) case None => None;
    shown := page.successMessage;
    scheduled := page.redirects;
  }

  /** A bad email and a short password are both reported by one submit,
      and no request is sent. */
  method BothErrorsExample() returns (request: Option<LoginBody>, emailError: string, passwordError: string)
    ensures request.None? && emailError == InvalidEmailText && passwordError == ShortPasswordText
  {
    var store := new Storage.LocalStorage(map[]);
    var page := new LoginPage(store);
    page.SetEmail("bademail");
    page.SetPassword("short");
    EmailFormat.LoginEmailIsSignUpEmail(page.email);
    request := page.Begin();
    emailError, passwordError := page.emailError, page.passwordError;
  }
}

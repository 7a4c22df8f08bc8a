/**
  The Sign Up page's form state and its submit handler, split at the
  `await` like the Login page's. Unlike Login, the reset also clears the
  success message, the email check only looks for an `@`, the name is
  never checked, nothing is written to the token store, and a success
  redirects to `/Login` after 2000 ms.
 */
module SignUp {
  import opened Wrappers
  import opened Forms
  import EmailFormat
  import Storage

  const InvalidEmailText := "Please enter a valid email address."
  const ShortPasswordText := "Password must be at least 8 characters long."
  const SignUpFailedText := "Failed to sign up. Please try again."
  const SignUpSucceededText := "Signup successful!"
  const UnexpectedErrorText := "Something went wrong. Please try again later."
  const LoginRoute := "/Login"
  const RedirectDelayMs: nat := 2000

  /** The JSON body of the sign-up request: `{ name, email, password }`. */
  datatype SignUpBody = SignUpBody(name: string, email: string, password: string)

  class SignUpPage {
    /** The process-wide token store, which this page never writes. */
    const store: Storage.LocalStorage

    var name: string
    var email: string
    var password: string
    var emailError: string
    var passwordError: string
    var serverError: string
    var successMessage: string
    var isLoading: bool
    /** Every navigation the page has scheduled, oldest first. */
    var redirects: seq<Redirect>
    /** Every state write and side effect of the page, in program order. */
    ghost var events: seq<Event<SignUpBody>>

    /** Mounting the page: every field starts empty and nothing is loading. */
    constructor (store: Storage.LocalStorage)
      ensures this.store == store
      ensures name == "" && email == "" && password == ""
      ensures emailError == "" && passwordError == "" && serverError == "" && successMessage == ""
      ensures !isLoading && redirects == [] && events == []
    {
      this.store := store;
      name, email, password := "", "", "";
      emailError, passwordError, serverError, successMessage := "", "", "", "";
      isLoading := false;
      redirects := [];
      events := [];
    }

    /** The name input's `onChange`. */
    method SetName(value: string)
      modifies this`name
      ensures name == value
    {
      name := value;
    }

    /** The email input's `onChange`. */
    method SetEmail(value: string)
      modifies this`email
      ensures email == value
    {
      email := value;
    }

    /** The password input's `onChange`. */
    method SetPassword(value: string)
      modifies this`password
      ensures password == value
    {
      password := value;
    }

    /** The handler up to the request: clear all four messages, run both
        checks, and on valid input turn loading on and send the body. The
        name takes no part in the decision. */
    method Begin() returns (request: Option<SignUpBody>)
      modifies this
      ensures name == old(name) && email == old(email) && password == old(password)
      ensures serverError == "" && successMessage == ""
      ensures emailError == if EmailFormat.IsSignUpEmail(email) then "" else InvalidEmailText
      ensures passwordError == if IsLongEnough(password) then "" else ShortPasswordText
      ensures request.Some? <==> EmailFormat.IsSignUpEmail(email) && IsLongEnough(password)
      ensures request.Some? ==> request.value == SignUpBody(name, email, password) && isLoading
      ensures request.None? ==> isLoading == old(isLoading)
      ensures redirects == old(redirects)
      ensures events == old(events)
        + [EmailErrorSet(""), PasswordErrorSet(""), ServerErrorSet(""), SuccessMessageSet("")]
        + (if EmailFormat.IsSignUpEmail(email) then [] else [EmailErrorSet(InvalidEmailText)])
        + (if IsLongEnough(password) then [] else [PasswordErrorSet(ShortPasswordText)])
        + (if request.Some? then [LoadingSet(true), RequestSent(request.value)] else [])
    {
      var valid := true;
      emailError := "";
      passwordError := "";
      serverError := "";
      successMessage := "";
      events := events + [EmailErrorSet(""), PasswordErrorSet(""), ServerErrorSet(""), SuccessMessageSet("")];

      if !EmailFormat.IsSignUpEmail(email) {
        emailError := InvalidEmailText;
        events := events + [EmailErrorSet(InvalidEmailText)];
        valid := false;
      }

      if !IsLongEnough(password) {
        passwordError := ShortPasswordText;
        events := events + [PasswordErrorSet(ShortPasswordText)];
        valid := false;
      }

      if !valid {
        return None;
      }

      isLoading := true;
      request := Some(SignUpBody(name, email, password));
      events := events + [LoadingSet(true), RequestSent(request.value)];
    }

    /** The handler after the request: reconcile the outcome, then turn
        loading off whatever happened. The token store is never touched. */
    method Complete(outcome: Outcome)
      modifies this
      ensures name == old(name) && email == old(email) && password == old(password)
      ensures emailError == old(emailError) && passwordError == old(passwordError)
      ensures !isLoading
      ensures store.items == old(store.items)
      ensures outcome.Thrown? ==>
        serverError == UnexpectedErrorText && successMessage == old(successMessage)
        && redirects == old(redirects)
        && events == old(events) + [ServerErrorSet(UnexpectedErrorText), LoadingSet(false)]
      ensures outcome.Reply? && !outcome.ok ==>
        serverError == OrElse(outcome.error, SignUpFailedText) && successMessage == old(successMessage)
        && redirects == old(redirects)
        && events == old(events) + [ServerErrorSet(serverError), LoadingSet(false)]
      ensures outcome.Reply? && outcome.ok ==>
        serverError == old(serverError)
        && successMessage == OrElse(outcome.message, SignUpSucceededText)
        && redirects == old(redirects) + [Redirect(LoginRoute, RedirectDelayMs)]
        && events == old(events) + [SuccessMessageSet(successMessage),
                                    NavigationScheduled(Redirect(LoginRoute, RedirectDelayMs)),
                                    LoadingSet(false)]
    {
      match outcome {
        case Thrown =>
          serverError := UnexpectedErrorText;
          events := events + [ServerErrorSet(UnexpectedErrorText)];
        case Reply(ok, error, message, _) =>
          if !ok {
            serverError := OrElse(error, SignUpFailedText);
            events := events + [ServerErrorSet(serverError)];
          } else {
            successMessage := OrElse(message, SignUpSucceededText);
            redirects := redirects + [Redirect(LoginRoute, RedirectDelayMs)];
            events := events + [SuccessMessageSet(successMessage),
                                NavigationScheduled(Redirect(LoginRoute, RedirectDelayMs))];
          }
      }
      isLoading := false;
      events := events + [LoadingSet(false)];
    }

    /** One submit whose request, if sent, ends in `outcome`. */
    method HandleSubmit(outcome: Outcome) returns (request: Option<SignUpBody>)
      modifies this
      ensures name == old(name) && email == old(email) && password == old(password)
      ensures emailError == if EmailFormat.IsSignUpEmail(email) then "" else InvalidEmailText
      ensures passwordError == if IsLongEnough(password) then "" else ShortPasswordText
      ensures request.Some? <==> EmailFormat.IsSignUpEmail(email) && IsLongEnough(password)
      ensures request.Some? ==> request.value == SignUpBody(name, email, password) && !isLoading
      ensures store.items == old(store.items)
      ensures request.None? ==>
        serverError == "" && successMessage == "" && isLoading == old(isLoading)
        && redirects == old(redirects)
      ensures request.Some? && outcome.Thrown? ==>
        serverError == UnexpectedErrorText && successMessage == "" && redirects == old(redirects)
      ensures request.Some? && outcome.Reply? && !outcome.ok ==>
        serverError == OrElse(outcome.error, SignUpFailedText) && successMessage == ""
        && redirects == old(redirects)
      ensures request.Some? && outcome.Reply? && outcome.ok ==>
        serverError == "" && successMessage == OrElse(outcome.message, SignUpSucceededText)
        && redirects == old(redirects) + [Redirect(LoginRoute, RedirectDelayMs)]
    {
      request := Begin();
      if request.Some? {
        Complete(outcome);
      }
    }
  }

  /** An empty name, the email "bademail" and the password "short": one
      submit reports the email and the password error together and sends
      nothing. */
  method BothErrorsExample() returns (request: Option<SignUpBody>, emailError: string, passwordError: string)
    ensures request.None? && emailError == InvalidEmailText && passwordError == ShortPasswordText
  {
    var store := new Storage.LocalStorage(map[]);
    var page := new SignUpPage(store);
    page.SetEmail("bademail");
    page.SetPassword("short");
    request := page.Begin();
    emailError, passwordError := page.emailError, page.passwordError;
  }

  /** A 400 reply with `{error: "Email taken"}`: the page shows exactly
      "Email taken" and schedules no navigation. */
  method EmailTakenExample() returns (shown: string, scheduled: seq<Redirect>)
    ensures shown == "Email taken" && scheduled == []
  {
    var store := new Storage.LocalStorage(map[]);
    var page := new SignUpPage(store);
    page.SetName("Ada");
    page.SetEmail("ada@example.com");
    page.SetPassword("longenough");
    assert EmailFormat.IsSignUpEmail(page.email) by { assert page.email[3] == '@'; }
    var request := page.HandleSubmit(Reply(false, Some("Email taken"), None, None));
    shown, scheduled := page.serverError, page.redirects;
  }

  /** The name is not checked: an empty name with a valid email and
      password is sent as it is. */
  method EmptyNameExample() returns (request: Option<SignUpBody>)
    ensures request == Some(SignUpBody("", "a@b", "12345678"))
  {
    var store := new Storage.LocalStorage(map[]);
    var page := new SignUpPage(store);
    page.SetEmail("a@b");
    page.SetPassword("12345678");
    assert EmailFormat.IsSignUpEmail(page.email) by { assert page.email[1] == '@'; }
    request := page.Begin();
  }
}

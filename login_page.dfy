/** The login page: a form with `email`, `password`, `error` and `isLoading`
    fields and a submit handler. The awaited session login is not part of this
    model; its outcome is a parameter of the handler. */
module LoginPage {
  import opened AuthTypes

  /** How the awaited login call ended: it resolved, or it threw. A thrown
      `Error` carries its message (`Some`); any other thrown value carries none. */
  datatype LoginOutcome = Succeeded | Failed(message: Option<string>)

  datatype Credentials = Credentials(email: string, password: string)

  const LoginFailedText: string := "Login failed"
  const SignInLabel: string := "Sign In"
  const SigningInLabel: string := "Signing in..."

  /** The text the handler stores in `error` after a failed login. */
  function ErrorText(outcome: LoginOutcome): (text: string)
    requires outcome.Failed?
    ensures outcome.message.Some? ==> text == outcome.message.value
    ensures outcome.message.None? ==> text == LoginFailedText
  {
    match outcome.message
    case Some(m) => m
    case None => LoginFailedText
  }

  /** The submit button: disabled, and its label. */
  datatype ButtonView = ButtonView(disabled: bool, text: string)

  /** The submit button is disabled exactly while a submit is pending, and
      then, and only then, reads "Signing in...". */
  function SubmitButton(isLoading: bool): (b: ButtonView)
    ensures b.disabled == isLoading
    ensures b.disabled <==> b.text == SigningInLabel
    ensures !b.disabled <==> b.text == SignInLabel
  {
    ButtonView(isLoading, if isLoading then SigningInLabel else SignInLabel)
  }

  /** The error banner: shown, with the error as its text, exactly when the
      error is non-empty. */
  function Banner(error: string): (banner: Option<string>)
    ensures banner.Some? <==> error != ""
    ensures banner.Some? ==> banner.value == error
  {
    if error != "" then Some(error) else None
  }

  /** After a failed login the banner is shown unless the thrown `Error` had
      an empty message. */
  lemma FailureShowsBanner(outcome: LoginOutcome)
    requires outcome.Failed?
    ensures Banner(ErrorText(outcome)).Some? <==> outcome.message != Some("")
  {
  }

  class LoginForm {
    var email: string
    var password: string
    var error: string
    var isLoading: bool
    /** The credentials of every login call, in order. */
    var loginCalls: seq<Credentials>
    /** The routes the page has navigated to, in order. */
    var navigations: seq<string>

    constructor ()
      ensures email == "" && password == "" && error == "" && !isLoading
      ensures loginCalls == [] && navigations == []
    {
      email, password, error, isLoading := "", "", "", false;
      loginCalls, navigations := [], [];
    }

    function SubmitView(): ButtonView
      reads this
    {
      SubmitButton(isLoading)
    }

    method SetEmail(value: string)
      modifies this
      ensures email == value
      ensures password == old(password) && error == old(error) && isLoading == old(isLoading)
      ensures loginCalls == old(loginCalls) && navigations == old(navigations)
    {
      email := value;
    }

    method SetPassword(value: string)
      modifies this
      ensures password == value
      ensures email == old(email) && error == old(error) && isLoading == old(isLoading)
      ensures loginCalls == old(loginCalls) && navigations == old(navigations)
    {
      password := value;
    }

    /** The handler up to the await: clear the error, start loading, and call
        login with the fields exactly as they are (no checks). */
    method BeginSubmit()
      modifies this
      ensures error == "" && isLoading
      ensures loginCalls == old(loginCalls) + [Credentials(email, password)]
      ensures email == old(email) && password == old(password) && navigations == old(navigations)
    {
      error := "";
      isLoading := true;
      loginCalls := loginCalls + [Credentials(email, password)];
    }

    /** The handler after the await: navigate to the dashboard on success, store
        the error text on failure, and stop loading either way. */
    method FinishSubmit(outcome: LoginOutcome)
      modifies this
      ensures !isLoading
      ensures outcome.Succeeded? ==> navigations == old(navigations) + [DashboardPath] && error == old(error)
      ensures outcome.Failed? ==> navigations == old(navigations) && error == ErrorText(outcome)
      ensures email == old(email) && password == old(password) && loginCalls == old(loginCalls)
    {
      if outcome.Succeeded? {
        navigations := navigations + [DashboardPath];
      } else {
        error := ErrorText(outcome);
      }
      isLoading := false;
    }

    /** One whole submit, with the login call ending in `outcome`. */
    method HandleSubmit(outcome: LoginOutcome)
      modifies this
      ensures !isLoading
      ensures loginCalls == old(loginCalls) + [Credentials(old(email), old(password))]
      ensures outcome.Succeeded? ==> error == "" && navigations == old(navigations) + [DashboardPath]
      ensures outcome.Failed? ==> error == ErrorText(outcome) && navigations == old(navigations)
      ensures email == old(email) && password == old(password)
    {
      BeginSubmit();
      FinishSubmit(outcome);
    }
  }

  /** While a submit is pending the button is disabled and reads "Signing in..."
      and no banner is shown; once it ends the button is enabled again, and
      the page has navigated to the dashboard exactly when the login succeeded. */
  method SubmitOnce(email: string, password: string, outcome: LoginOutcome)
    returns (pending: ButtonView, pendingBanner: Option<string>, done: ButtonView, navigated: seq<string>, called: seq<Credentials>)
    ensures pending.disabled && pending.text == SigningInLabel && pendingBanner.None?
    ensures !done.disabled && done.text == SignInLabel
    ensures navigated == if outcome.Succeeded? then [DashboardPath] else []
    ensures called == [Credentials(email, password)]
  {
    var form := new LoginForm();
    form.SetEmail(email);
    form.SetPassword(password);
    form.BeginSubmit();
    pending, pendingBanner := form.SubmitView(), Banner(form.error);
    form.FinishSubmit(outcome);
    done, navigated, called := form.SubmitView(), form.navigations, form.loginCalls;
  }
}

/** The sign-in form: clear the error and start loading, await the session
    store's `login`, go to the dashboard on success or show an error, and
    stop loading on every outcome. */
module Login {
  import opened Wrappers
  import AuthContext
  import FormErrors

  const FallbackMessage: string := "Failed to login"

  const ThrownMessage: string := "An error occurred during login"

  /** The login page's state cells. */
  class LoginPage {
    var email: string
    var password: string
    var error: string
    var isLoading: bool

    constructor ()
      ensures email == "" && password == "" && error == "" && !isLoading
    {
      email, password, error, isLoading := "", "", "", false;
    }

    /** Both inputs and the submit button carry `disabled={isLoading}`. */
    predicate FormDisabled()
      reads this
    {
      isLoading
    }

    function SubmitLabel(): string
      reads this
    {
      if isLoading then "Signing in..." else "Sign In"
    }

    method SetEmail(value: string)
      modifies this`email
      ensures email == value
    {
      email := value;
    }

    method SetPassword(value: string)
      modifies this`password
      ensures password == value
    {
      password := value;
    }

    /** `handleSubmit` before its `await`: the form is locked while `login` runs. */
    method BeginSubmit()
      modifies this`error, this`isLoading
      ensures error == "" && isLoading
      ensures FormDisabled() && SubmitLabel() == "Signing in..."
    {
      error := "";
      isLoading := true;
    }

    /** `handleSubmit` after `login` settles; the result is where the page
        navigates, if anywhere. */
    method FinishSubmit(reply: AuthContext.Reply) returns (navigateTo: Option<string>)
      modifies this`error, this`isLoading
      ensures !isLoading && !FormDisabled() && SubmitLabel() == "Sign In"
      ensures reply.Returned? && reply.result.success ==> navigateTo == Some("/dashboard") && error == old(error)
      ensures reply.Returned? && !reply.result.success ==>
                navigateTo == None && error == FormErrors.ErrorOr(reply.result, FallbackMessage)
      ensures reply.Threw? ==> navigateTo == None && error == ThrownMessage
    {
      navigateTo := None;
      match reply {
        case Returned(result) =>
          if result.success {
            navigateTo := Some("/dashboard");
          } else {
            error := FormErrors.ErrorOr(result, FallbackMessage);
          }
        case Threw =>
          error := ThrownMessage;
      }
      isLoading := false;
    }

    /** `handleSubmit`; `reply` is what `login` gives. */
    method HandleSubmit(reply: AuthContext.Reply) returns (navigateTo: Option<string>)
      modifies this`error, this`isLoading
      ensures !isLoading
      ensures reply.Returned? && reply.result.success ==> navigateTo == Some("/dashboard") && error == ""
      ensures reply.Returned? && !reply.result.success ==>
                navigateTo == None && error == FormErrors.ErrorOr(reply.result, FallbackMessage)
      ensures reply.Threw? ==> navigateTo == None && error == ThrownMessage
    {
      BeginSubmit();
      navigateTo := FinishSubmit(reply);
    }
  }

  /** Submitting to a real session store: whatever the password, a login
      whose storage write succeeds signs in the typed e-mail and moves on to
      the dashboard; one whose write fails shows 'Invalid credentials'. */
  method SubmitToProvider(page: LoginPage, auth: AuthContext.AuthProvider, fails: bool)
      returns (navigateTo: Option<string>)
    modifies page`error, page`isLoading, auth
    ensures page.email == old(page.email) && page.password == old(page.password)
    ensures !page.isLoading && !auth.loading
    ensures !fails ==> navigateTo == Some("/dashboard") && page.error == "" &&
                       auth.user == Some(AuthContext.LoginUser(old(page.email))) &&
                       auth.storage == old(auth.storage)[AuthContext.UserKey := AuthContext.LoginUser(old(page.email))]
    ensures fails ==> navigateTo == None && page.error == "Invalid credentials" &&
                      auth.user == old(auth.user) && auth.storage == old(auth.storage)
  {
    page.BeginSubmit();
    var result := auth.Login(page.email, page.password, fails);
    navigateTo := page.FinishSubmit(AuthContext.Returned(result));
  }
}

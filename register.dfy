/** The sign-up form: field edits, the two password checks (in that order),
    then a call to the session store's `register` and the handling of what
    it gives back. */
module Register {
  import opened Wrappers
  import AuthContext
  import FormErrors

  datatype RegisterForm = RegisterForm(name: string, email: string, password: string, confirmPassword: string)

  /** The `name` attributes of the form's inputs. */
  datatype Field = Name | Email | Password | ConfirmPassword

  const EmptyForm: RegisterForm := RegisterForm("", "", "", "")

  const MinPasswordLength: nat := 6

  const MismatchMessage: string := "Passwords do not match"

  const TooShortMessage: string := "Password must be at least 6 characters long"

  const FallbackMessage: string := "Failed to register"

  const ThrownMessage: string := "An error occurred during registration"

  function Get(f: RegisterForm, field: Field): string
  {
    match field
    case Name => f.name
    case Email => f.email
    case Password => f.password
    case ConfirmPassword => f.confirmPassword
  }

  /** The updater of `handleChange`: `{ ...prev, [name]: value }`. */
  function WithField(f: RegisterForm, field: Field, value: string): (r: RegisterForm)
    ensures Get(r, field) == value
    ensures forall other :: other != field ==> Get(r, other) == Get(f, other)
  {
    match field
    case Name => f.(name := value)
    case Email => f.(email := value)
    case Password => f.(password := value)
    case ConfirmPassword => f.(confirmPassword := value)
  }

  /** The checks `handleSubmit` makes before calling `register`: the error it
      shows, or `None` when the form passes. The mismatch check comes first. */
  function Validate(f: RegisterForm): (r: Option<string>)
    ensures r == Some(MismatchMessage) <==> f.password != f.confirmPassword
    ensures r == Some(TooShortMessage) <==> f.password == f.confirmPassword && |f.password| < MinPasswordLength
    ensures r == None <==> f.password == f.confirmPassword && |f.password| >= MinPasswordLength
  {
    if f.password != f.confirmPassword then Some(MismatchMessage)
    else if |f.password| < MinPasswordLength then Some(TooShortMessage)
    else None
  }

  /** The register page's state cells. */
  class RegisterPage {
    var form: RegisterForm
    var error: string
    var isLoading: bool

    constructor ()
      ensures form == EmptyForm && error == "" && !isLoading
    {
      form := EmptyForm;
      error := "";
      isLoading := false;
    }

    /** `handleChange`, an input's `onChange`. */
    method HandleChange(field: Field, value: string)
      modifies this`form
      ensures form == WithField(old(form), field, value)
    {
      form := WithField(form, field, value);
    }

    /** `handleSubmit` up to the call: clear the error, start loading, then
        refuse a mismatched or short password. `proceed` says whether
        `register` is called. */
    method BeginSubmit() returns (proceed: bool)
      modifies this`error, this`isLoading
      ensures proceed <==> Validate(form) == None
      ensures proceed ==> error == "" && isLoading
      ensures !proceed ==> error == Validate(form).value && !isLoading
    {
      error := "";
      isLoading := true;
      if form.password != form.confirmPassword {
        error := MismatchMessage;
        isLoading := false;
        return false;
      }
      if |form.password| < MinPasswordLength {
        error := TooShortMessage;
        isLoading := false;
        return false;
      }
      proceed := true;
    }

    /** `handleSubmit` after `register` settles; the result is where the
        page navigates, if anywhere. */
    method FinishSubmit(reply: AuthContext.Reply) returns (navigateTo: Option<string>)
      modifies this`error, this`isLoading
      ensures !isLoading
      ensures reply.Returned? && reply.result.success ==> navigateTo == Some("/dashboard") && error == old(error)
      ensures reply.Returned? && !reply.result.success ==>
                navigateTo == None && error == FormErrors.ErrorOr(reply.result, FallbackMessage)
      ensures reply.Threw? ==> navigateTo == None && error == ThrownMessage
    {
      navigateTo := None;
      match reply {
        case Returned(result) =>
          if result.success {
            navigateTo := Some("/dashboard");
          } else {
            error := FormErrors.ErrorOr(result, FallbackMessage);
          }
        case Threw =>
          error := ThrownMessage;
      }
      isLoading := false;
    }

    /** `handleSubmit`; `reply` is what `register` would give if called. */
    method HandleSubmit(reply: AuthContext.Reply) returns (registerCalled: bool, navigateTo: Option<string>)
      modifies this`error, this`isLoading
      ensures !isLoading
      ensures registerCalled <==> Validate(form) == None
      ensures !registerCalled ==> error == Validate(form).value && navigateTo == None
      ensures registerCalled && reply.Returned? && reply.result.success ==>
                navigateTo == Some("/dashboard") && error == ""
      ensures registerCalled && reply.Returned? && !reply.result.success ==>
                navigateTo == None && error == FormErrors.ErrorOr(reply.result, FallbackMessage)
      ensures registerCalled && reply.Threw? ==> navigateTo == None && error == ThrownMessage
    {
      registerCalled := BeginSubmit();
      navigateTo := None;
      if registerCalled {
        navigateTo := FinishSubmit(reply);
      }
    }
  }

  /** Submitting to a real session store: a valid form whose storage write
      succeeds signs the user in under the typed e-mail and name, and the
      page moves on to the dashboard. */
  method SubmitToProvider(page: RegisterPage, auth: AuthContext.AuthProvider, fails: bool)
      returns (navigateTo: Option<string>)
    modifies page`error, page`isLoading, auth
    ensures page.form == old(page.form)
    ensures !page.isLoading
    ensures Validate(old(page.form)) == None ==> !auth.loading
    ensures Validate(old(page.form)) == None && !fails ==>
              navigateTo == Some("/dashboard") && page.error == "" &&
              auth.user == Some(AuthContext.RegisteredUser(old(page.form).email, old(page.form).name)) &&
              auth.storage == old(auth.storage)[AuthContext.UserKey :=
                AuthContext.RegisteredUser(old(page.form).email, old(page.form).name)]
    ensures Validate(old(page.form)) == None && fails ==>
              navigateTo == None && page.error == "Registration failed" &&
              auth.user == old(auth.user) && auth.storage == old(auth.storage)
    ensures Validate(old(page.form)) != None ==>
              navigateTo == None && page.error == Validate(old(page.form)).value &&
              auth.user == old(auth.user) && auth.storage == old(auth.storage) &&
              auth.loading == old(auth.loading)
  {
    var proceed := page.BeginSubmit();
    navigateTo := None;
    if proceed {
      var result := auth.Register(page.form.email, page.form.password, page.form.name, fails);
      navigateTo := page.FinishSubmit(AuthContext.Returned(result));
    }
  }
}

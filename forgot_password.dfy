/** The password-reset request form. It does not call the session store: it
    waits, then replaces the form with a success view. */
module ForgotPassword {

  const FailureMessage: string := "Failed to send reset instructions. Please try again."

  /** The forgot-password page's state cells. */
  class ForgotPasswordPage {
    var email: string
    var error: string
    var isLoading: bool
    var isSuccess: bool

    constructor ()
      ensures email == "" && error == "" && !isLoading && !isSuccess
    {
      email, error, isLoading, isSuccess := "", "", false, false;
    }

    /** The form is on screen until the request succeeds; then the success view is. */
    predicate ShowsForm()
      reads this
    {
      !isSuccess
    }

    method SetEmail(value: string)
      modifies this`email
      ensures email == value
    {
      email := value;
    }

    /** `handleSubmit` before its `await`. */
    method BeginSubmit()
      modifies this`error, this`isLoading
      ensures error == "" && isLoading
    {
      error := "";
      isLoading := true;
    }

    /** `handleSubmit` after its wait; `fails` says whether the wait rejects,
        which the timer it waits for never does. */
    method FinishSubmit(fails: bool)
      modifies this`error, this`isLoading, this`isSuccess
      ensures !isLoading
      ensures !fails ==> isSuccess && !ShowsForm() && error == old(error)
      ensures fails ==> error == FailureMessage && isSuccess == old(isSuccess)
    {
      if fails {
        error := FailureMessage;
      } else {
        isSuccess := true;
      }
      isLoading := false;
    }

    /** `handleSubmit`. */
    method HandleSubmit(fails: bool)
      modifies this`error, this`isLoading, this`isSuccess
      ensures !isLoading
      ensures !fails ==> isSuccess && !ShowsForm() && error == ""
      ensures fails ==> error == FailureMessage && isSuccess == old(isSuccess)
    {
      BeginSubmit();
      FinishSubmit(fails);
    }
  }
}

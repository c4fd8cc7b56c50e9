/** The contact form: field edits, a submit that waits and then shows a
    success view over an emptied form, and the button that brings the form
    back. */
module Contact {

  datatype ContactForm = ContactForm(name: string, email: string, subject: string, message: string)

  /** The `name` attributes of the form's inputs. */
  datatype Field = Name | Email | Subject | Message

  const EmptyForm: ContactForm := ContactForm("", "", "", "")

  function Get(f: ContactForm, field: Field): string
  {
    match field
    case Name => f.name
    case Email => f.email
    case Subject => f.subject
    case Message => f.message
  }

  /** The updater of `handleChange`: `{ ...prev, [name]: value }`. */
  function WithField(f: ContactForm, field: Field, value: string): (r: ContactForm)
    ensures Get(r, field) == value
    ensures forall other :: other != field ==> Get(r, other) == Get(f, other)
  {
    match field
    case Name => f.(name := value)
    case Email => f.(email := value)
    case Subject => f.(subject := value)
    case Message => f.(message := value)
  }

  /** The contact page's state cells. */
  class ContactPage {
    var form: ContactForm
    var isSubmitting: bool
    var submitSuccess: bool

    constructor ()
      ensures form == EmptyForm && !isSubmitting && !submitSuccess
    {
      form, isSubmitting, submitSuccess := EmptyForm, false, false;
    }

    /** The submit button carries `disabled={isSubmitting}`. */
    predicate SubmitDisabled()
      reads this
    {
      isSubmitting
    }

    function SubmitLabel(): string
      reads this
    {
      if isSubmitting then "Sending..." else "Send Message"
    }

    /** `handleChange`, an input's `onChange`. */
    method HandleChange(field: Field, value: string)
      modifies this`form
      ensures form == WithField(old(form), field, value)
    {
      form := WithField(form, field, value);
    }

    /** `handleSubmit` before its `await`: the button is locked and says so. */
    method BeginSubmit()
      modifies this`isSubmitting
      ensures isSubmitting && SubmitDisabled() && SubmitLabel() == "Sending..."
    {
      isSubmitting := true;
    }

    /** `handleSubmit` after its wait. */
    method FinishSubmit()
      modifies this`isSubmitting, this`submitSuccess, this`form
      ensures !isSubmitting && !SubmitDisabled() && SubmitLabel() == "Send Message"
      ensures submitSuccess && form == EmptyForm
    {
      isSubmitting := false;
      submitSuccess := true;
      form := EmptyForm;
    }

    /** `handleSubmit`. */
    method HandleSubmit()
      modifies this`isSubmitting, this`submitSuccess, this`form
      ensures !isSubmitting && submitSuccess
      ensures forall field :: Get(form, field) == ""
    {
      BeginSubmit();
      FinishSubmit();
    }

    /** 'Send Another Message': back to the form, whose fields are left as they are. */
    method SendAnother()
      modifies this`submitSuccess
      ensures !submitSuccess
    {
      submitSuccess := false;
    }
  }
}

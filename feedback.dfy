/** The feedback form: a five-star rating with hover preview, a category
    choice, three text fields, and a submit that waits, shows a success view
    and resets everything. */
module Feedback {
  import Text

  datatype FeedbackForm = FeedbackForm(title: string, description: string, email: string)

  /** The `name` attributes of the form's inputs. */
  datatype Field = Title | Description | Email

  const EmptyForm: FeedbackForm := FeedbackForm("", "", "")

  const StarCount: nat := 5

  function Get(f: FeedbackForm, field: Field): string
  {
    match field
    case Title => f.title
    case Description => f.description
    case Email => f.email
  }

  /** The updater of `handleChange`: `{ ...prev, [name]: value }`. */
  function WithField(f: FeedbackForm, field: Field, value: string): (r: FeedbackForm)
    ensures Get(r, field) == value
    ensures forall other :: other != field ==> Get(r, other) == Get(f, other)
  {
    match field
    case Title => f.(title := value)
    case Description => f.(description := value)
    case Email => f.(email := value)
  }

  /** `star <= (hoverRating || rating)`: a star lights up to the hovered star,
      or to the chosen rating when nothing is hovered. */
  predicate StarActive(star: nat, hoverRating: nat, rating: nat)
  {
    star <= (if hoverRating != 0 then hoverRating else rating)
  }

  /** The lit stars form a prefix of the row: lighting star `s` lights every
      star before it. */
  lemma ActiveStarsArePrefix(star: nat, lower: nat, hoverRating: nat, rating: nat)
    requires lower <= star && StarActive(star, hoverRating, rating)
    ensures StarActive(lower, hoverRating, rating)
  {
  }

  /** `disabled={isSubmitting || !rating || !selectedCategory}`. */
  predicate SubmitDisabled(isSubmitting: bool, rating: nat, selectedCategory: string)
  {
    isSubmitting || rating == 0 || selectedCategory == ""
  }

  /** The caption under the stars. */
  function RatingText(rating: nat): (s: string)
    ensures rating == 0 ==> s == "Select a rating"
    ensures 1 <= rating <= 9 ==> s == [('0' as int + rating) as char] + " out of 5 stars"
  {
    if rating != 0 then Text.DecimalString(rating) + " out of 5 stars" else "Select a rating"
  }

  /** The feedback page's state cells. */
  class FeedbackPage {
    var rating: nat
    var hoverRating: nat
    var selectedCategory: string
    var form: FeedbackForm
    var isSubmitting: bool
    var submitSuccess: bool

    /** Ratings only come from the five star buttons (or a reset to 0). */
    ghost predicate Valid()
      reads this
    {
      rating <= StarCount && hoverRating <= StarCount
    }

    constructor ()
      ensures Valid()
      ensures rating == 0 && hoverRating == 0 && selectedCategory == "" && form == EmptyForm
      ensures !isSubmitting && !submitSuccess
    {
      rating, hoverRating, selectedCategory, form := 0, 0, "", EmptyForm;
      isSubmitting, submitSuccess := false, false;
    }

    /** `handleRatingHover`: entering star `star`, or leaving the stars (0). */
    method HandleRatingHover(star: nat)
      requires Valid() && star <= StarCount
      modifies this`hoverRating
      ensures Valid() && hoverRating == star
    {
      hoverRating := star;
    }

    /** `handleRatingClick`, a click on star `star`. */
    method HandleRatingClick(star: nat)
      requires Valid() && 1 <= star <= StarCount
      modifies this`rating
      ensures Valid() && rating == star && rating != 0
    {
      rating := star;
    }

    /** A category button's `onClick`. */
    method SelectCategory(category: string)
      modifies this`selectedCategory
      ensures selectedCategory == category
    {
      selectedCategory := category;
    }

    /** `handleChange`, an input's `onChange`. */
    method HandleChange(field: Field, value: string)
      modifies this`form
      ensures form == WithField(old(form), field, value)
    {
      form := WithField(form, field, value);
    }

    /** `handleSubmit` before its `await`. */
    method BeginSubmit()
      modifies this`isSubmitting
      ensures isSubmitting && SubmitDisabled(isSubmitting, rating, selectedCategory)
    {
      isSubmitting := true;
    }

    /** `handleSubmit` after its wait: success shown, everything reset. */
    method FinishSubmit()
      requires Valid()
      modifies this`isSubmitting, this`submitSuccess, this`rating, this`selectedCategory, this`form
      ensures Valid()
      ensures !isSubmitting && submitSuccess
      ensures rating == 0 && selectedCategory == "" && form == EmptyForm
      ensures RatingText(rating) == "Select a rating"
      ensures SubmitDisabled(isSubmitting, rating, selectedCategory)
    {
      isSubmitting := false;
      submitSuccess := true;
      rating := 0;
      selectedCategory := "";
      form := EmptyForm;
    }

    /** `handleSubmit`. */
    method HandleSubmit()
      requires Valid()
      modifies this`isSubmitting, this`submitSuccess, this`rating, this`selectedCategory, this`form
      ensures Valid()
      ensures !isSubmitting && submitSuccess
      ensures rating == 0 && selectedCategory == ""
      ensures forall field :: Get(form, field) == ""
    {
      BeginSubmit();
      FinishSubmit();
    }

    /** 'Submit Another Feedback'. */
    method NewFeedback()
      modifies this`submitSuccess
      ensures !submitSuccess
    {
      submitSuccess := false;
    }
  }
}

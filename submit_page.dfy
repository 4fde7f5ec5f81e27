/** The public feedback form: validation of the rating and the text, then
    the state changes around the submission request. The request is awaited
    between the two halves of the handler, so the model splits it there and
    takes the request's outcome as a parameter. */
module SubmitPage {
  import opened Base
  import opened FeedbackFilter

  const SelectRatingError := "Please select a rating"
  const WriteReviewError := "Please write a review"
  const FallbackError := "Something went wrong"

  /** The characters `String.prototype.trim` removes: white space and line
      terminators of ECMAScript (section 12.2 and 12.3 of ECMA-262). */
  predicate IsJsWhitespace(c: char)
  {
    var n := c as int;
    n == 0x09 || n == 0x0A || n == 0x0B || n == 0x0C || n == 0x0D || n == 0x20
    || n == 0xA0 || n == 0x1680 || (0x2000 <= n <= 0x200A) || n == 0x2028 || n == 0x2029
    || n == 0x202F || n == 0x205F || n == 0x3000 || n == 0xFEFF
  }

  /** `!review.trim()`: nothing is left once the white space is trimmed. */
  predicate Blank(s: string)
  {
    forall i | 0 <= i < |s| :: IsJsWhitespace(s[i])
  }

  /** What `submitFeedback` is called with. */
  datatype SubmitRequest = SubmitRequest(rating: int, reviewText: string)

  /** The message shown for a failed request: the error's message, or the
      fallback when it is empty. */
  function FailureMessage(message: string): (m: string)
    ensures m != ""
    ensures message != "" ==> m == message
  {
    if message == "" then FallbackError else message
  }

  class UserDashboard {
    var rating: int
    var review: string
    var isLoading: bool
    var response: Option<FeedbackItem>
    var error: Option<string>

    constructor()
      ensures rating == 0 && review == "" && !isLoading && response.None? && error.None?
    {
      rating := 0;
      review := "";
      isLoading := false;
      response := None;
      error := None;
    }

    /** The star widget's `onChange`. */
    method SetRating(r: int)
      modifies this
      ensures rating == r
      ensures review == old(review) && isLoading == old(isLoading) && response == old(response) && error == old(error)
    {
      rating := r;
    }

    /** The text area's `onChange`. */
    method SetReview(text: string)
      modifies this
      ensures review == text
      ensures rating == old(rating) && isLoading == old(isLoading) && response == old(response) && error == old(error)
    {
      review := text;
    }

    /** The handler up to the request: a missing rating is reported first,
        then a blank review; either stops the submission and changes only
        the error. Otherwise loading starts, the old error and response are
        cleared and the request is sent with the current rating and text. */
    method BeginSubmit() returns (request: Option<SubmitRequest>)
      modifies this
      ensures old(rating) == 0 ==> request.None? && error == Some(SelectRatingError)
      ensures old(rating) != 0 && Blank(old(review)) ==> request.None? && error == Some(WriteReviewError)
      ensures request.None? ==> isLoading == old(isLoading) && response == old(response)
      ensures old(rating) != 0 && !Blank(old(review)) ==>
        request == Some(SubmitRequest(old(rating), old(review))) && isLoading && error.None? && response.None?
      ensures rating == old(rating) && review == old(review)
    {
      if rating == 0 {
        error := Some(SelectRatingError);
        return None;
      }
      if Blank(review) {
        error := Some(WriteReviewError);
        return None;
      }
      isLoading := true;
      error := None;
      response := None;
      request := Some(SubmitRequest(rating, review));
    }

    /** The handler after the request settles: success shows the reply and
        resets the form, failure shows the message and keeps the form;
        loading ends either way. */
    method FinishSubmit(outcome: Fetch<FeedbackItem>)
      modifies this
      ensures outcome.Loaded? ==> response == Some(outcome.value) && rating == 0 && review == "" && error == old(error)
      ensures outcome.FetchFailed? ==>
        error == Some(FailureMessage(outcome.message)) && rating == old(rating) && review == old(review) && response == old(response)
      ensures !isLoading
    {
      match outcome {
        case Loaded(data) =>
          response := Some(data);
          rating := 0;
          review := "";
        case FetchFailed(message) =>
          error := Some(FailureMessage(message));
      }
      isLoading := false;
    }

    /** One whole submission, `outcome` being what the request would settle
        with. */
    method HandleSubmit(outcome: Fetch<FeedbackItem>) returns (request: Option<SubmitRequest>)
      modifies this
      ensures old(rating) == 0 ==> request.None? && error == Some(SelectRatingError)
      ensures old(rating) != 0 && Blank(old(review)) ==> request.None? && error == Some(WriteReviewError)
      ensures request.Some? <==> old(rating) != 0 && !Blank(old(review))
      ensures request.None? ==>
        rating == old(rating) && review == old(review) && isLoading == old(isLoading) && response == old(response)
      ensures request.Some? ==> request.value == SubmitRequest(old(rating), old(review)) && !isLoading
      ensures request.Some? && outcome.Loaded? ==>
        response == Some(outcome.value) && rating == 0 && review == "" && error.None?
      ensures request.Some? && outcome.FetchFailed? ==>
        response.None? && rating == old(rating) && review == old(review) && error == Some(FailureMessage(outcome.message))
    {
      request := BeginSubmit();
      if request.Some? {
        FinishSubmit(outcome);
      }
    }
  }
}

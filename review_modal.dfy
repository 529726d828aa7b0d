/** The review dialog (src/components/AddReviewModal.js): a star rating and
    a review text set by events, and a submit that checks the rating before
    the text. */
module ReviewModal {
  import opened Wrappers
  import opened Text

  const NoRatingMessage := "กรุณาให้คะแนนสถานที่"
  const NoTextMessage := "กรุณาเขียนรีวิว"

  /** What a submit hands to the parent: `onSubmitReview(rating, reviewText)`
      followed by `onClose`. */
  datatype Submission = Submission(rating: int, reviewText: string)

  /** The validation outcome of a submit, checks in source order: the first
      failing check names the message; text blank after trimming counts as
      missing, but a valid text is passed on untrimmed. */
  function Validate(rating: int, reviewText: string): (r: Result<Submission, string>)
    ensures r.Err? <==> rating == 0 || AllWhitespace(reviewText)
    ensures rating == 0 ==> r == Err(NoRatingMessage)
    ensures rating != 0 && AllWhitespace(reviewText) ==> r == Err(NoTextMessage)
    ensures r.Ok? ==> r.value == Submission(rating, reviewText)
  {
    TrimEmpty(reviewText);
    if rating == 0 then Err(NoRatingMessage)
    else if Trim(reviewText) == "" then Err(NoTextMessage)
    else Ok(Submission(rating, reviewText))
  }

  /** Star `star` (1 to 5) is drawn filled exactly when the rating reaches it. */
  predicate StarFilled(rating: int, star: int) {
    rating >= star
  }

  class AddReviewModal {
    var rating: int
    var reviewText: string
    var message: string
    var messageType: string
    var showMessageModal: bool

    /** The dialog opens with no rating and no text. */
    constructor ()
      ensures rating == 0 && reviewText == ""
      ensures message == "" && messageType == "info" && !showMessageModal
    {
      rating := 0;
      reviewText := "";
      message := "";
      messageType := "info";
      showMessageModal := false;
    }

    /** Clicking star `star` of the five sets the rating to it. */
    method ClickStar(star: int)
      requires 1 <= star <= 5
      modifies this
      ensures rating == star
      ensures forall k :: 1 <= k <= 5 ==> (StarFilled(rating, k) <==> k <= star)
      ensures reviewText == old(reviewText) && message == old(message) && messageType == old(messageType)
      ensures showMessageModal == old(showMessageModal)
    {
      rating := star;
    }

    /** The textarea stores what was typed, as typed. */
    method TypeText(value: string)
      modifies this
      ensures reviewText == value
      ensures rating == old(rating) && message == old(message) && messageType == old(messageType)
      ensures showMessageModal == old(showMessageModal)
    {
      reviewText := value;
    }

    /** `handleSubmit`: a failed check raises its error message and submits
        nothing; otherwise the rating and the untrimmed text are handed on. */
    method HandleSubmit() returns (submitted: Option<Submission>)
      modifies this
      ensures rating == old(rating) && reviewText == old(reviewText)
      ensures Validate(rating, reviewText).Ok? ==>
                submitted == Some(Validate(rating, reviewText).value)
                && message == old(message) && messageType == old(messageType) && showMessageModal == old(showMessageModal)
      ensures Validate(rating, reviewText).Err? ==>
                submitted == None && message == Validate(rating, reviewText).error
                && messageType == "error" && showMessageModal
    {
      if rating == 0 {
        message := NoRatingMessage;
        messageType := "error";
        showMessageModal := true;
        return None;
      }
      if Trim(reviewText) == "" {
        message := NoTextMessage;
        messageType := "error";
        showMessageModal := true;
        return None;
      }
      submitted := Some(Submission(rating, reviewText));
    }
  }

  /** A rated review of blank text is refused with the text message. */
  lemma BlankTextRefused()
    ensures Validate(4, "  \n") == Err(NoTextMessage)
  {
    assert AllWhitespace("  \n") by {
      assert IsWhitespace(' ') && IsWhitespace('\n');
    }
  }
}

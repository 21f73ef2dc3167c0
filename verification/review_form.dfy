/** The form for writing a review of one movie: its checks, the request it sends and the star picker. */
module ReviewForm {
  import opened Wrappers
  import opened Errors
  import opened Text
  import opened Catalog

  const NOT_SIGNED_IN := "You must be logged in to submit a review"
  const PICK_RATING := "Please select a rating"
  const ENTER_COMMENT := "Please enter a comment"
  const SUBMIT_FAILED := "Failed to submit review"
  /** The message of the `TypeError` thrown by reading `user.id` while `user` is null. */
  const NULL_USER := "Cannot read properties of null (reading 'id')"

  /** What is sent to `createReview`. */
  datatype ReviewData = ReviewData(movieId: int, userId: Option<int>, rating: int, comment: string)

  /** The checks, in order; the first failing one names the error and `None` means the review may be sent. */
  function Check(isAuthenticated: bool, rating: int, comment: string): (r: Option<string>)
    ensures r.None? <==> isAuthenticated && rating != 0 && !IsBlank(comment)
    ensures !isAuthenticated ==> r == Some(NOT_SIGNED_IN)
    ensures isAuthenticated && rating == 0 ==> r == Some(PICK_RATING)
    ensures isAuthenticated && rating != 0 && IsBlank(comment) ==> r == Some(ENTER_COMMENT)
  {
    if !isAuthenticated then Some(NOT_SIGNED_IN)
    else if rating == 0 then Some(PICK_RATING)
    else if IsBlank(comment) then Some(ENTER_COMMENT)
    else None
  }

  /**
   * A signed-in user who picked a rating is asked for a comment exactly when
   * `comment.trim()` is empty, so spaces and line breaks alone do not count.
   */
  lemma WhitespaceCommentRefused(rating: int, comment: string)
    requires rating != 0
    ensures Check(true, rating, comment) == Some(ENTER_COMMENT) <==> Trim(comment) == []
  {
    BlankIffAllSpace(comment);
  }

  /** Star `star` is drawn highlighted when it is at most the hovered star, or the rating when nothing is hovered. */
  predicate Highlighted(star: int, hover: int, rating: int) {
    star <= (if hover != 0 then hover else rating)
  }

  /** Hovering overrides the rating; with no hover the stars up to the rating light. */
  lemma HoverOverridesRating(star: int, hover: int, rating: int)
    requires 1 <= star <= 5
    ensures hover == 0 ==> (Highlighted(star, hover, rating) <==> star <= rating)
    ensures hover != 0 ==> (Highlighted(star, hover, rating) <==> star <= hover)
    ensures Highlighted(star, 0, 0) == false
  {
  }

  /** The form's component state for the movie `movieId`. */
  class ReviewForm {
    const movieId: int
    var rating: int
    var comment: string
    var hover: int
    var error: string
    var loading: bool
    var success: bool

    constructor (movieId: int)
      ensures this.movieId == movieId && rating == 0 && comment == "" && hover == 0
      ensures error == "" && !loading && !success
    {
      this.movieId := movieId;
      rating := 0;
      comment := "";
      hover := 0;
      error := "";
      loading := false;
      success := false;
    }

    /** A click on star `star` of the five. */
    method StarClick(star: int)
      requires 1 <= star <= 5
      modifies this
      ensures rating == star
      ensures comment == old(comment) && hover == old(hover) && error == old(error)
      ensures loading == old(loading) && success == old(success)
    {
      rating := star;
    }

    /** The pointer entering star `star`, or leaving it (`star == 0`). */
    method HoverStar(star: int)
      requires 0 <= star <= 5
      modifies this
      ensures hover == star
      ensures rating == old(rating) && comment == old(comment) && error == old(error)
      ensures loading == old(loading) && success == old(success)
    {
      hover := star;
    }

    method HandleCommentChange(text: string)
      modifies this
      ensures comment == text
      ensures rating == old(rating) && hover == old(hover) && error == old(error)
      ensures loading == old(loading) && success == old(success)
    {
      comment := text;
    }

    /**
     * `handleSubmit`. `user` is the context's user, which may be absent even
     * when `isAuthenticated` holds; `created` is how `createReview` settles.
     * The results are the data sent and the review handed to `onReviewAdded`.
     */
    method HandleSubmit(isAuthenticated: bool, user: Option<User>, created: Result<Review, Thrown>)
      returns (sent: Option<ReviewData>, added: Option<Review>)
      modifies this
      ensures hover == old(hover)
      ensures Check(isAuthenticated, old(rating), old(comment)).Some? ==>
                sent == None && added == None && error == Check(isAuthenticated, old(rating), old(comment)).value
                && rating == old(rating) && comment == old(comment)
                && loading == old(loading) && success == old(success)
      ensures Check(isAuthenticated, old(rating), old(comment)).None? ==> !loading
      ensures Check(isAuthenticated, old(rating), old(comment)).None? && user.None? ==>
                sent == None && added == None && error == NULL_USER
                && rating == old(rating) && comment == old(comment) && success == old(success)
      ensures Check(isAuthenticated, old(rating), old(comment)).None? && user.Some? ==>
                sent == Some(ReviewData(movieId, user.value.id, old(rating), old(comment)))
      ensures Check(isAuthenticated, old(rating), old(comment)).None? && user.Some? && created.Success? ==>
                added == Some(created.value) && rating == 0 && comment == "" && success && error == ""
      ensures Check(isAuthenticated, old(rating), old(comment)).None? && user.Some? && created.Failure? ==>
                added == None && rating == old(rating) && comment == old(comment) && success == old(success)
                && error == MessageOr(created.error, SUBMIT_FAILED)
    {
      var problem := Check(isAuthenticated, rating, comment);
      if problem.Some? {
        error := problem.value;
        return None, None;
      }
      loading := true;
      error := "";
      sent, added := None, None;
      match user {
        case None =>
          error := MessageOr(ErrorObject(NULL_USER), SUBMIT_FAILED);
        case Some(u) =>
          sent := Some(ReviewData(movieId, u.id, rating, comment));
          match created {
            case Success(r) =>
              rating := 0;
              comment := "";
              success := true;
              added := Some(r);
            case Failure(e) =>
              error := MessageOr(e, SUBMIT_FAILED);
          }
      }
      loading := false;
    }
  }
}

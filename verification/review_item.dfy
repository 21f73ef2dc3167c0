/** One review card: who may change it, its edit buffer, and its update and delete handlers. */
module ReviewItem {
  import opened Wrappers
  import opened Errors
  import opened Text
  import opened Catalog

  const EMPTY_COMMENT := "Comment cannot be empty"
  const UPDATE_FAILED := "Failed to update review"
  const DELETE_FAILED := "Failed to delete review"

  /** `user && (user.id === review.userId || user.role === 'ADMIN')`. */
  predicate IsAuthor(user: Option<User>, review: Review) {
    user.Some? && (user.value.id == review.userId || user.value.role == Some(ADMIN))
  }

  /** Signed out, nobody may edit; an admin may edit every review; a user may edit their own. */
  lemma WhoMayEdit(user: Option<User>, review: Review)
    ensures user.None? ==> !IsAuthor(user, review)
    ensures user.Some? && user.value.role == Some(ADMIN) ==> IsAuthor(user, review)
    ensures user.Some? && user.value.role != Some(ADMIN) ==> (IsAuthor(user, review) <==> user.value.id == review.userId)
  {
  }

  /** `undefined === undefined`: a user record without an id counts as author of every review without a user id. */
  lemma MissingIdsMatch(user: User, review: Review)
    requires user.id.None? && review.userId.None?
    ensures IsAuthor(Some(user), review)
  {
  }

  /** The edit buffer. */
  datatype Draft = Draft(rating: int, comment: string)

  /** The card's component state for `review`. */
  class ReviewItem {
    const review: Review
    var isEditing: bool
    var draft: Draft
    var error: string

    constructor (review: Review)
      ensures this.review == review && !isEditing && error == ""
      ensures draft == Draft(review.rating, review.comment)
    {
      this.review := review;
      isEditing := false;
      draft := Draft(review.rating, review.comment);
      error := "";
    }

    /** The Edit button. */
    method StartEditing()
      modifies this
      ensures isEditing && draft == old(draft) && error == old(error)
    {
      isEditing := true;
    }

    /** The Cancel button: editing ends and the draft is kept as it is. */
    method CancelEditing()
      modifies this
      ensures !isEditing && draft == old(draft) && error == old(error)
    {
      isEditing := false;
    }

    /** `handleRatingChange`: the comment is kept. */
    method HandleRatingChange(rating: int)
      modifies this
      ensures draft == Draft(rating, old(draft).comment)
      ensures isEditing == old(isEditing) && error == old(error)
    {
      draft := draft.(rating := rating);
    }

    /** `handleCommentChange`: the rating is kept. */
    method HandleCommentChange(comment: string)
      modifies this
      ensures draft == Draft(old(draft).rating, comment)
      ensures isEditing == old(isEditing) && error == old(error)
    {
      draft := draft.(comment := comment);
    }

    /**
     * `handleUpdateReview`. `updated` is how the update request settles; the
     * results are the draft sent and the review handed to `onReviewUpdated`.
     */
    method HandleUpdate(updated: Result<Review, Thrown>) returns (sent: Option<Draft>, notified: Option<Review>)
      modifies this
      ensures draft == old(draft)
      ensures IsBlank(draft.comment) ==>
                sent == None && notified == None && error == EMPTY_COMMENT && isEditing == old(isEditing)
      ensures !IsBlank(draft.comment) ==> sent == Some(draft)
      ensures !IsBlank(draft.comment) && updated.Success? ==>
                notified == Some(updated.value) && !isEditing && error == ""
      ensures !IsBlank(draft.comment) && updated.Failure? ==>
                notified == None && isEditing == old(isEditing) && error == MessageOr(updated.error, UPDATE_FAILED)
    {
      error := "";
      notified := None;
      if IsBlank(draft.comment) {
        error := EMPTY_COMMENT;
        return None, None;
      }
      sent := Some(draft);
      match updated {
        case Success(r) =>
          isEditing := false;
          notified := Some(r);
        case Failure(e) =>
          error := MessageOr(e, UPDATE_FAILED);
      }
    }

    /**
     * `handleDeleteReview`: `confirmed` answers the dialog and `deleted` is
     * how the request settles. The results say whether the request was made
     * and which id was handed to `onReviewDeleted`.
     */
    method HandleDelete(confirmed: bool, deleted: Result<(), Thrown>) returns (requested: bool, notified: Option<int>)
      modifies this
      ensures requested == confirmed && isEditing == old(isEditing) && draft == old(draft)
      ensures !confirmed ==> notified == None && error == old(error)
      ensures confirmed && deleted.Success? ==> notified == Some(review.id) && error == old(error)
      ensures confirmed && deleted.Failure? ==> notified == None && error == MessageOr(deleted.error, DELETE_FAILED)
    {
      requested, notified := confirmed, None;
      if confirmed {
        match deleted {
          case Success(_) => notified := Some(review.id);
          case Failure(e) => error := MessageOr(e, DELETE_FAILED);
        }
      }
    }
  }
}

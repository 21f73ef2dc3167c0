/** The signed-in user's review list: loading it and the delete confirmation dialog. */
module MyReviews {
  import opened Wrappers
  import opened Errors
  import opened Lists
  import opened Catalog

  const LOAD_FAILED := "Failed to load reviews. Please try again later."
  const DELETE_FAILED := "Failed to delete review. Please try again."

  /** `!user || !user.id`: no user, no id, or the id 0, which JavaScript also treats as false. */
  predicate NoUserId(user: Option<User>) {
    user.None? || user.value.id.None? || user.value.id.value == 0
  }

  /** The reviews without those whose id is `deleteId`; with no `deleteId`, every review stays. */
  function WithoutId(reviews: seq<Review>, deleteId: Option<int>): (r: seq<Review>)
    ensures IsSubsequence(r, reviews)
    ensures forall i :: 0 <= i < |r| ==> Some(r[i].id) != deleteId && r[i] in reviews
    ensures forall i :: 0 <= i < |reviews| && Some(reviews[i].id) != deleteId ==> reviews[i] in r
    ensures forall x :: multiset(r)[x] == if Some(x.id) != deleteId then multiset(reviews)[x] else 0
  {
    Filter(reviews, (x: Review) => Some(x.id) != deleteId)
  }

  /** A confirmation with no selected review leaves the list as it was. */
  lemma NothingSelectedRemovesNothing(reviews: seq<Review>)
    ensures WithoutId(reviews, None) == reviews
  {
    FilterKeepsAll(reviews, (x: Review) => Some(x.id) != None);
  }

  /** The "Edited on" note: shown iff the review was changed after it was written. */
  predicate ShowsEditedNote(r: Review) {
    r.updatedAt != r.createdAt
  }

  /** The page's component state. */
  class MyReviews {
    var reviews: seq<Review>
    var loading: bool
    var error: string
    var deleteId: Option<int>
    var showConfirmModal: bool

    constructor ()
      ensures reviews == [] && loading && error == "" && deleteId == None && !showConfirmModal
    {
      reviews := [];
      loading := true;
      error := "";
      deleteId := None;
      showConfirmModal := false;
    }

    /**
     * The fetch effect for the signed-in `user`; `fetched` is how the
     * request settles. The result is the user id asked for, if one was.
     */
    method Fetch(user: Option<User>, fetched: Result<seq<Review>, Thrown>) returns (asked: Option<int>)
      modifies this
      ensures !loading && deleteId == old(deleteId) && showConfirmModal == old(showConfirmModal)
      ensures NoUserId(user) ==> asked == None && reviews == old(reviews) && error == old(error)
      ensures !NoUserId(user) ==> asked == user.value.id
      ensures !NoUserId(user) && fetched.Success? ==> reviews == fetched.value && error == ""
      ensures !NoUserId(user) && fetched.Failure? ==> reviews == old(reviews) && error == LOAD_FAILED
    {
      if NoUserId(user) {
        loading := false;
        return None;
      }
      loading := true;
      asked := user.value.id;
      match fetched {
        case Success(data) =>
          reviews := data;
          error := "";
        case Failure(_) =>
          error := LOAD_FAILED;
      }
      loading := false;
    }

    /** `handleDeleteClick`: remembers the review and opens the dialog. */
    method HandleDeleteClick(reviewId: int)
      modifies this
      ensures deleteId == Some(reviewId) && showConfirmModal
      ensures reviews == old(reviews) && loading == old(loading) && error == old(error)
    {
      deleteId := Some(reviewId);
      showConfirmModal := true;
    }

    /**
     * `handleDeleteConfirm`: the delete request goes out for `deleteId` and
     * settles as `deleted`. The result is the id sent.
     */
    method HandleDeleteConfirm(deleted: Result<(), Thrown>) returns (sent: Option<int>)
      modifies this
      ensures sent == old(deleteId) && loading == old(loading)
      ensures deleted.Success? ==>
                reviews == WithoutId(old(reviews), old(deleteId)) && !showConfirmModal && deleteId == None
                && error == old(error)
      ensures deleted.Failure? ==>
                reviews == old(reviews) && showConfirmModal == old(showConfirmModal) && deleteId == old(deleteId)
                && error == DELETE_FAILED
    {
      sent := deleteId;
      match deleted {
        case Success(_) =>
          reviews := WithoutId(reviews, deleteId);
          showConfirmModal := false;
          deleteId := None;
        case Failure(_) =>
          error := DELETE_FAILED;
      }
    }

    /** `handleDeleteCancel`: closes the dialog and forgets the review. */
    method HandleDeleteCancel()
      modifies this
      ensures !showConfirmModal && deleteId == None
      ensures reviews == old(reviews) && loading == old(loading) && error == old(error)
    {
      showConfirmModal := false;
      deleteId := None;
    }
  }
}

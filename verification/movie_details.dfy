/**
 * The movie details page: the movie and its reviews, and the list and
 * rating updates made when a review is added, edited or deleted.
 */
module MovieDetails {
  import opened Wrappers
  import opened Errors
  import opened Lists
  import opened Catalog

  const FETCH_FAILED := "Failed to fetch movie details"

  function Sum(ratings: seq<int>): int {
    if ratings == [] then 0 else ratings[0] + Sum(ratings[1..])
  }

  /** The movie's count and average describe exactly these ratings. */
  predicate MeanOf(m: Movie, ratings: seq<int>) {
    m.reviewCount == |ratings| && m.averageRating * (|ratings| as real) == Sum(ratings) as real
  }

  /** The movie after one more review of `rating`, updated locally without refetching. */
  function WithRating(m: Movie, rating: int): (r: Movie)
    ensures r.reviewCount == m.reviewCount + 1
    ensures r.averageRating * (r.reviewCount as real) == m.averageRating * (m.reviewCount as real) + rating as real
    ensures r == m.(reviewCount := r.reviewCount, averageRating := r.averageRating)
  {
    var total := m.averageRating * (m.reviewCount as real) + rating as real;
    var count := m.reviewCount + 1;
    m.(reviewCount := count, averageRating := total / (count as real))
  }

  /** If the average was the mean of the ratings so far, the update gives the mean with the new rating. */
  lemma AddedReviewKeepsMean(m: Movie, ratings: seq<int>, rating: int)
    requires MeanOf(m, ratings)
    ensures MeanOf(WithRating(m, rating), [rating] + ratings)
  {
    assert ([rating] + ratings)[1..] == ratings;
  }

  /** A first review sets the average to its own rating, whatever the stored average was. */
  lemma FirstReviewSetsAverage(m: Movie, rating: int)
    requires m.reviewCount == 0
    ensures WithRating(m, rating).averageRating == rating as real
  {
  }

  /** The reviews with `updated` in place of the review that has its id. */
  function Replaced(reviews: seq<Review>, updated: Review): (r: seq<Review>)
    ensures |r| == |reviews|
    ensures forall i :: 0 <= i < |r| ==> r[i] == if reviews[i].id == updated.id then updated else reviews[i]
  {
    ReplaceWhere(reviews, (x: Review) => x.id == updated.id, updated)
  }

  /** The reviews without the one that has id `reviewId`. */
  function Removed(reviews: seq<Review>, reviewId: int): (r: seq<Review>)
    ensures IsSubsequence(r, reviews)
    ensures forall i :: 0 <= i < |r| ==> r[i].id != reviewId && r[i] in reviews
    ensures forall i :: 0 <= i < |reviews| && reviews[i].id != reviewId ==> reviews[i] in r
    ensures forall x :: multiset(r)[x] == if x.id != reviewId then multiset(reviews)[x] else 0
  {
    Filter(reviews, (x: Review) => x.id != reviewId)
  }

  /** The page's component state; `id` is the route parameter. */
  class MovieDetails {
    const id: string
    var movie: Option<Movie>
    var reviews: seq<Review>
    var loading: bool
    var error: string

    constructor (id: string)
      ensures this.id == id && movie == None && reviews == [] && loading && error == ""
    {
      this.id := id;
      movie := None;
      reviews := [];
      loading := true;
      error := "";
    }

    /**
     * The fetch effect: the movie first, then its reviews, which are asked
     * for only when the movie arrived. The result says whether they were.
     */
    method Fetch(fetchedMovie: Result<Movie, Thrown>, fetchedReviews: Result<seq<Review>, Thrown>) returns (askedReviews: bool)
      modifies this
      ensures !loading && askedReviews == fetchedMovie.Success?
      ensures fetchedMovie.Failure? ==> movie == old(movie) && reviews == old(reviews) && error == FETCH_FAILED
      ensures fetchedMovie.Success? ==> movie == Some(fetchedMovie.value)
      ensures fetchedMovie.Success? && fetchedReviews.Success? ==> reviews == fetchedReviews.value && error == old(error)
      ensures fetchedMovie.Success? && fetchedReviews.Failure? ==> reviews == old(reviews) && error == FETCH_FAILED
    {
      loading := true;
      askedReviews := false;
      match fetchedMovie {
        case Failure(_) =>
          error := FETCH_FAILED;
        case Success(m) =>
          movie := Some(m);
          askedReviews := true;
          match fetchedReviews {
            case Failure(_) => error := FETCH_FAILED;
            case Success(rs) => reviews := rs;
          }
      }
      loading := false;
    }

    /** `handleReviewAdded`: the new review goes first and the loaded movie's rating takes it in. */
    method HandleReviewAdded(added: Review)
      modifies this
      ensures reviews == [added] + old(reviews)
      ensures movie == if old(movie).Some? then Some(WithRating(old(movie).value, added.rating)) else None
      ensures loading == old(loading) && error == old(error)
    {
      reviews := [added] + reviews;
      if movie.Some? {
        movie := Some(WithRating(movie.value, added.rating));
      }
    }

    /** `handleReviewUpdated`. */
    method HandleReviewUpdated(updated: Review)
      modifies this
      ensures reviews == Replaced(old(reviews), updated)
      ensures movie == old(movie) && loading == old(loading) && error == old(error)
    {
      reviews := Replaced(reviews, updated);
    }

    /** `handleReviewDeleted`; the movie's rating is left as it was. */
    method HandleReviewDeleted(reviewId: int)
      modifies this
      ensures reviews == Removed(old(reviews), reviewId)
      ensures movie == old(movie) && loading == old(loading) && error == old(error)
    {
      reviews := Removed(reviews, reviewId);
    }
  }
}

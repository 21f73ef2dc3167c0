/** The admin dashboard: its admin gate, the movie list it fetches, deletion and the search box. */
module AdminDashboard {
  import opened Wrappers
  import opened Errors
  import opened Routes
  import opened Text
  import opened Lists
  import opened Catalog

  const FETCH_FAILED := "Failed to fetch movies"
  const DELETE_FAILED := "Failed to delete movie: "

  /** A movie matches when its title, director or genre includes the term, ignoring case. */
  predicate Matches(m: Movie, term: string) {
    var t := ToLower(term);
    Contains(ToLower(m.title), t) || Contains(ToLower(m.director), t) || Contains(ToLower(m.genre), t)
  }

  /** The rows the table shows: the matching movies, in list order. */
  function FilteredMovies(movies: seq<Movie>, term: string): (r: seq<Movie>)
    ensures IsSubsequence(r, movies)
    ensures forall i :: 0 <= i < |r| ==> r[i] in movies && Matches(r[i], term)
    ensures forall i :: 0 <= i < |movies| && Matches(movies[i], term) ==> movies[i] in r
    ensures forall m :: multiset(r)[m] == if Matches(m, term) then multiset(movies)[m] else 0
  {
    Filter(movies, m => Matches(m, term))
  }

  /** An empty search box shows every movie. */
  lemma EmptySearchShowsAll(movies: seq<Movie>)
    ensures FilteredMovies(movies, "") == movies
  {
    forall i | 0 <= i < |movies| ensures Matches(movies[i], "") {
      EverythingContainsEmpty(ToLower(movies[i].title));
    }
    FilterKeepsAll(movies, m => Matches(m, ""));
  }

  /** The search ignores the case of the term. */
  lemma SearchIgnoresCase(movies: seq<Movie>, term: string)
    ensures FilteredMovies(movies, term) == FilteredMovies(movies, ToLower(term))
  {
    ToLowerIdempotent(term);
    FilterAgreeing(movies, m => Matches(m, term), m => Matches(m, ToLower(term)));
  }

  /** The list after deleting movie `id`: no movie has that id any more, and every other movie stays, in order. */
  function Without(movies: seq<Movie>, id: int): (r: seq<Movie>)
    ensures forall i :: 0 <= i < |r| ==> r[i].id != id && r[i] in movies
    ensures forall i :: 0 <= i < |movies| && movies[i].id != id ==> movies[i] in r
    ensures forall m :: multiset(r)[m] == if m.id != id then multiset(movies)[m] else 0
    ensures IsSubsequence(r, movies)
  {
    Filter(movies, (m: Movie) => m.id != id)
  }

  /** The page's component state. */
  class AdminDashboard {
    var movies: seq<Movie>
    var loading: bool
    var error: string
    var searchTerm: string
    var navigated: Option<Navigation>

    constructor ()
      ensures movies == [] && loading && error == "" && searchTerm == "" && navigated == None
    {
      movies := [];
      loading := true;
      error := "";
      searchTerm := "";
      navigated := None;
    }

    /**
     * The mount effect: a non-admin is sent to `/` and nothing is fetched.
     * `fetched` is what the request for all movies settles to; the result
     * says whether it was made.
     */
    method Mount(isAdmin: bool, fetched: Result<seq<Movie>, Thrown>) returns (requested: bool)
      modifies this
      ensures requested == isAdmin && searchTerm == old(searchTerm)
      ensures !isAdmin ==>
                navigated == Some(Navigation("/", false, None))
                && movies == old(movies) && loading == old(loading) && error == old(error)
      ensures isAdmin ==> navigated == old(navigated) && !loading
      ensures isAdmin && fetched.Success? ==> movies == fetched.value && error == old(error)
      ensures isAdmin && fetched.Failure? ==> movies == old(movies) && error == FETCH_FAILED
    {
      if !isAdmin {
        navigated := Some(Navigation("/", false, None));
        return false;
      }
      loading := true;
      match fetched {
        case Success(data) => movies := data;
        case Failure(_) => error := FETCH_FAILED;
      }
      loading := false;
      return true;
    }

    /** The search box. */
    method HandleSearch(term: string)
      modifies this
      ensures searchTerm == term
      ensures movies == old(movies) && loading == old(loading) && error == old(error) && navigated == old(navigated)
    {
      searchTerm := term;
    }

    /**
     * `handleDeleteMovie`: `confirmed` is the answer to the confirmation
     * dialog and `deleted` how the delete request settles. The result says
     * whether the request was made.
     */
    method HandleDeleteMovie(id: int, confirmed: bool, deleted: Result<(), Thrown>) returns (requested: bool)
      modifies this
      ensures requested == confirmed
      ensures loading == old(loading) && searchTerm == old(searchTerm) && navigated == old(navigated)
      ensures !confirmed ==> movies == old(movies) && error == old(error)
      ensures confirmed && deleted.Failure? ==>
                movies == old(movies) && error == DELETE_FAILED + MessageText(deleted.error)
      ensures confirmed && deleted.Success? ==>
                movies == Without(old(movies), id) && error == old(error)
    {
      if !confirmed {
        return false;
      }
      match deleted {
        case Success(_) => movies := Without(movies, id);
        case Failure(e) => error := DELETE_FAILED + MessageText(e);
      }
      return true;
    }
  }
}

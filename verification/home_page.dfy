/**
 * The home page: which catalogue it fetches, the featured strip of the five
 * best-rated movies with a poster, and the genre list.
 */
module HomePage {
  import opened Wrappers
  import opened Errors
  import opened Text
  import opened Lists
  import opened Catalog

  const FEATURED_COUNT := 5
  const FETCH_FAILED := "Failed to fetch movies: "
  const UNKNOWN_ERROR := "Unknown error"

  /** Where the movies come from: the whole catalogue, or one genre. */
  datatype Source = AllMovies | ByGenre(genre: string)

  /** An empty selection fetches everything; any other selection fetches that genre. */
  function SourceFor(selectedGenre: string): (s: Source)
    ensures s == AllMovies <==> selectedGenre == ""
    ensures s.ByGenre? ==> s.genre == selectedGenre
  {
    if selectedGenre != "" then ByGenre(selectedGenre) else AllMovies
  }

  /** `movie.posterUrl && movie.posterUrl.trim() !== ''`. */
  predicate HasPoster(m: Movie) {
    m.posterUrl.Some? && Trim(m.posterUrl.value) != ""
  }

  /** The movies with a poster, in their order: `movieData.filter(...)`. */
  function Posters(data: seq<Movie>): (r: seq<Movie>)
    ensures IsSubsequence(r, data)
    ensures forall i :: 0 <= i < |r| ==> r[i] in data && HasPoster(r[i])
    ensures forall i :: 0 <= i < |data| && HasPoster(data[i]) ==> data[i] in r
    ensures forall m :: multiset(r)[m] == if HasPoster(m) then multiset(data)[m] else 0
  {
    Filter(data, HasPoster)
  }

  /** `movie.rating || 0`, the sort key. */
  function Key(m: Movie): real {
    if m.rating.Some? then m.rating.value else 0.0
  }

  /** Highest key first. */
  predicate SortedDesc(s: seq<Movie>) {
    forall i, j :: 0 <= i < j < |s| ==> Key(s[j]) <= Key(s[i])
  }

  /** Puts `m` in front of the first movie whose key does not exceed its own. */
  function Insert(m: Movie, s: seq<Movie>): (r: seq<Movie>)
    ensures multiset(r) == multiset(s) + multiset{m}
  {
    if s == [] || Key(s[0]) <= Key(m) then [m] + s
    else
      assert s == [s[0]] + s[1..];
      [s[0]] + Insert(m, s[1..])
  }

  /** Inserting into a sorted list keeps it sorted. */
  lemma {:induction false} InsertKeepsSorted(m: Movie, s: seq<Movie>)
    requires SortedDesc(s)
    ensures SortedDesc(Insert(m, s))
  {
    if s != [] && Key(m) < Key(s[0]) {
      var rest := Insert(m, s[1..]);
      InsertKeepsSorted(m, s[1..]);
      forall i | 0 <= i < |rest| ensures Key(rest[i]) <= Key(s[0]) {
        assert rest[i] in multiset(rest);
        if rest[i] != m {
          assert rest[i] in multiset(s[1..]);
          var j :| 0 <= j < |s[1..]| && s[1..][j] == rest[i];
          assert s[j + 1] == rest[i];
        }
      }
      assert Insert(m, s) == [s[0]] + rest;
    }
  }

  /** `sort((a, b) => (b.rating || 0) - (a.rating || 0))`: the same movies, highest rating first. */
  function SortByRating(xs: seq<Movie>): (r: seq<Movie>)
    ensures SortedDesc(r)
    ensures multiset(r) == multiset(xs)
  {
    if xs == [] then []
    else
      assert xs == [xs[0]] + xs[1..];
      var rest := SortByRating(xs[1..]);
      InsertKeepsSorted(xs[0], rest);
      Insert(xs[0], rest)
  }

  function Min(a: int, b: int): int {
    if a < b then a else b
  }

  /** Cutting a sorted list after `k` leaves nothing behind that rates above what was kept. */
  lemma CutOfSorted(sorted: seq<Movie>, k: nat)
    requires SortedDesc(sorted) && k <= |sorted|
    ensures SortedDesc(sorted[..k])
    ensures multiset(sorted[..k]) <= multiset(sorted)
    ensures forall i :: 0 <= i < k ==> sorted[..k][i] in multiset(sorted)
    ensures forall m, i :: m in multiset(sorted) - multiset(sorted[..k]) && 0 <= i < k ==> Key(m) <= Key(sorted[i])
  {
    assert sorted == sorted[..k] + sorted[k..];
    assert multiset(sorted) == multiset(sorted[..k]) + multiset(sorted[k..]);
    forall m, i | m in multiset(sorted) - multiset(sorted[..k]) && 0 <= i < k ensures Key(m) <= Key(sorted[i]) {
      assert m in sorted[k..];
      var j :| 0 <= j < |sorted[k..]| && sorted[k..][j] == m;
      assert sorted[k + j] == m;
    }
  }

  /**
   * The featured strip: at most five movies with a poster, highest rating
   * first, and no poster movie left out rates above one that was kept.
   */
  function Featured(data: seq<Movie>): (r: seq<Movie>)
    ensures |r| == Min(FEATURED_COUNT, |Posters(data)|)
    ensures forall i :: 0 <= i < |r| ==> r[i] in data && HasPoster(r[i])
    ensures SortedDesc(r)
    ensures multiset(r) <= multiset(Posters(data))
    ensures forall m, i :: m in multiset(Posters(data)) - multiset(r) && 0 <= i < |r| ==> Key(m) <= Key(r[i])
  {
    var sorted := SortByRating(Posters(data));
    var k := Min(FEATURED_COUNT, |sorted|);
    CutOfSorted(sorted, k);
    sorted[..k]
  }

  /** `movieData.map(m => m.genre)`. */
  function GenreColumn(data: seq<Movie>): (g: seq<string>)
    ensures |g| == |data|
    ensures forall i :: 0 <= i < |data| ==> g[i] == data[i].genre
  {
    seq(|data|, i requires 0 <= i < |data| => data[i].genre)
  }

  /**
   * `[...new Set(movieData.map(m => m.genre))]`: every genre of the movies
   * once, in the order of its first occurrence.
   */
  function Genres(data: seq<Movie>): (r: seq<string>)
    ensures NoDuplicates(r)
    ensures forall i :: 0 <= i < |data| ==> data[i].genre in r
    ensures forall j :: 0 <= j < |r| ==> r[j] in GenreColumn(data)
    ensures forall j :: 0 <= j < |r| ==> exists i :: 0 <= i < |data| && data[i].genre == r[j]
    ensures forall i, j :: 0 <= i < j < |r| ==> IndexOf(GenreColumn(data), r[i]) < IndexOf(GenreColumn(data), r[j])
  {
    var genres := GenreColumn(data);
    var r := Unique(genres);
    assert forall j :: 0 <= j < |r| ==> exists i :: 0 <= i < |data| && data[i].genre == r[j] by {
      forall j | 0 <= j < |r| ensures exists i :: 0 <= i < |data| && data[i].genre == r[j] {
        var i :| 0 <= i < |genres| && genres[i] == r[j];
        assert data[i].genre == r[j];
      }
    }
    r
  }

  /** The page's component state. */
  class HomePage {
    var movies: seq<Movie>
    var loading: bool
    var error: string
    var genres: seq<string>
    var selectedGenre: string
    var featured: seq<Movie>
    var isLoggedIn: bool

    constructor ()
      ensures movies == [] && loading && error == "" && genres == []
      ensures selectedGenre == "" && featured == [] && !isLoggedIn
    {
      movies := [];
      loading := true;
      error := "";
      genres := [];
      selectedGenre := "";
      featured := [];
      isLoggedIn := false;
    }

    /** `handleGenreChange`; the fetch effect then runs again for the new selection. */
    method HandleGenreChange(genre: string)
      modifies this
      ensures selectedGenre == genre
      ensures movies == old(movies) && loading == old(loading) && error == old(error)
      ensures genres == old(genres) && featured == old(featured) && isLoggedIn == old(isLoggedIn)
    {
      selectedGenre := genre;
    }

    /**
     * The fetch effect. `token` is the stored token; `fetched` is what the
     * request for `source` settles to, where `None` stands for an absent body.
     */
    method FetchMovies(token: Option<string>, fetched: Result<Option<seq<Movie>>, Thrown>) returns (source: Source)
      modifies this
      ensures source == SourceFor(selectedGenre) && selectedGenre == old(selectedGenre)
      ensures isLoggedIn == Truthy(token) && !loading
      ensures fetched.Failure? ==>
                error == FETCH_FAILED + MessageOr(fetched.error, UNKNOWN_ERROR)
                && featured == [] && movies == old(movies) && genres == old(genres)
      ensures fetched.Success? && (fetched.value.None? || fetched.value.value == []) ==>
                movies == [] && featured == [] && genres == old(genres) && error == old(error)
      ensures fetched.Success? && fetched.value.Some? && fetched.value.value != [] ==>
                movies == fetched.value.value && error == old(error)
                && (selectedGenre == "" ==> featured == Featured(movies) && genres == Genres(movies))
                && (selectedGenre != "" ==> featured == old(featured) && genres == old(genres))
    {
      isLoggedIn := Truthy(token);
      loading := true;
      source := SourceFor(selectedGenre);
      match fetched {
        case Failure(e) =>
          error := FETCH_FAILED + MessageOr(e, UNKNOWN_ERROR);
          featured := [];
        case Success(body) =>
          if body.None? || body.value == [] {
            movies := [];
            featured := [];
          } else {
            movies := body.value;
            if selectedGenre == "" {
              featured := Featured(movies);
              genres := Genres(movies);
            }
          }
      }
      loading := false;
    }
  }
}

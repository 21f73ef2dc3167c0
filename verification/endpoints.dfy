/**
 * The API client's request shapes: the URL each operation targets and the
 * headers it sends. Request bodies and the transport are not modelled.
 */
module Endpoints {
  import opened Wrappers
  import opened Text

  const BASE_URL := "http://13.200.236.137/api"
  const AUTHORIZATION := "Authorization"
  const CONTENT_TYPE := "Content-Type"

  /** The operations of the API client; path parameters are already strings. */
  datatype Operation =
    | RegisterUser | LoginUser
    | GetCurrentUserProfile | UpdateUserProfile | ChangePassword | GetUserReviews
    | GetAllMovies | GetMovieById(id: string) | SearchMovies(title: string) | GetMoviesByGenre(genre: string)
    | CreateMovie | UpdateMovie(id: string) | DeleteMovie(id: string) | UploadPoster
    | GetAllReviews | GetReviewById(id: string) | GetReviewsByMovieId(movieId: string)
    | GetReviewsByUserId(userId: string)
    | CreateReview | UpdateReview(id: string) | DeleteReview(id: string)

  datatype Verb = GET | POST | PUT | DELETE

  /** The path after `BASE_URL`; parameters are pasted in as they are, without encoding. */
  function PathOf(op: Operation): string {
    match op
    case RegisterUser => "/auth/public/register"
    case LoginUser => "/auth/login"
    case GetCurrentUserProfile => "/users/profile"
    case UpdateUserProfile => "/users/profile"
    case ChangePassword => "/users/change-password"
    case GetUserReviews => "/users/reviews"
    case GetAllMovies => "/movies"
    case GetMovieById(id) => "/movies/" + id
    case SearchMovies(title) => "/movies/search?title=" + title
    case GetMoviesByGenre(genre) => "/movies/genre/" + genre
    case CreateMovie => "/movies"
    case UpdateMovie(id) => "/movies/" + id
    case DeleteMovie(id) => "/movies/" + id
    case UploadPoster => "/movies/upload"
    case GetAllReviews => "/reviews"
    case GetReviewById(id) => "/reviews/" + id
    case GetReviewsByMovieId(movieId) => "/reviews/movie/" + movieId
    case GetReviewsByUserId(userId) => "/reviews/user/" + userId
    case CreateReview => "/reviews"
    case UpdateReview(id) => "/reviews/" + id
    case DeleteReview(id) => "/reviews/" + id
  }

  /** The full URL: always under `BASE_URL`. */
  function Url(op: Operation): (u: string)
    ensures IsPrefix(BASE_URL, u) && u[|BASE_URL|..] == PathOf(op)
  {
    BASE_URL + PathOf(op)
  }

  function VerbOf(op: Operation): Verb {
    match op
    case RegisterUser | LoginUser | CreateMovie | UploadPoster | CreateReview => POST
    case UpdateUserProfile | ChangePassword | UpdateMovie(_) | UpdateReview(_) => PUT
    case DeleteMovie(_) | DeleteReview(_) => DELETE
    case _ => GET
  }

  /** The operations that send the `getHeader()` credentials. */
  predicate SendsCredentials(op: Operation) {
    op.GetCurrentUserProfile? || op.UpdateUserProfile? || op.ChangePassword? || op.GetUserReviews?
    || op.CreateMovie? || op.UpdateMovie? || op.DeleteMovie? || op.UploadPoster?
    || op.CreateReview? || op.UpdateReview? || op.DeleteReview?
  }

  /** What a template literal prints for the `token` slot: the token, or "null" when no item is stored. */
  function TokenText(token: Option<string>): string {
    match token
    case Some(t) => t
    case None => "null"
  }

  /** `getHeader()`: a Bearer credential and a JSON content type. */
  function Header(token: Option<string>): (h: map<string, string>)
    ensures h.Keys == {AUTHORIZATION, CONTENT_TYPE}
    ensures h[AUTHORIZATION] == "Bearer " + TokenText(token)
    ensures h[CONTENT_TYPE] == "application/json"
  {
    map[AUTHORIZATION := "Bearer " + TokenText(token), CONTENT_TYPE := "application/json"]
  }

  /** The upload's `{ ...getHeader(), "Content-Type": "multipart/form-data" }`: the later key wins. */
  function UploadHeader(token: Option<string>): (h: map<string, string>)
    ensures h.Keys == Header(token).Keys
    ensures h[AUTHORIZATION] == Header(token)[AUTHORIZATION]
    ensures h[CONTENT_TYPE] == "multipart/form-data"
  {
    Header(token)[CONTENT_TYPE := "multipart/form-data"]
  }

  datatype Request = Request(verb: Verb, url: string, headers: Option<map<string, string>>)

  /** The request an operation issues while the `token` slot holds `token`. */
  function RequestFor(op: Operation, token: Option<string>): (r: Request)
    ensures r.url == Url(op) && r.verb == VerbOf(op)
    ensures r.headers.Some? <==> SendsCredentials(op)
    ensures r.headers.Some? ==> r.headers.value.Keys == {AUTHORIZATION, CONTENT_TYPE}
    ensures r.headers.Some? ==> r.headers.value[AUTHORIZATION] == "Bearer " + TokenText(token)
    ensures r.headers.Some? ==>
      r.headers.value[CONTENT_TYPE] == (if op.UploadPoster? then "multipart/form-data" else "application/json")
  {
    var headers :=
      if op.UploadPoster? then Some(UploadHeader(token))
      else if SendsCredentials(op) then Some(Header(token))
      else None;
    Request(VerbOf(op), Url(op), headers)
  }

  /** With an empty `token` slot a credentialed request still goes out, carrying "Bearer null". */
  lemma SignedOutSendsBearerNull(op: Operation)
    requires SendsCredentials(op)
    ensures RequestFor(op, None).headers.Some?
    ensures RequestFor(op, None).headers.value[AUTHORIZATION] == "Bearer null"
  {
  }

  /** Different movie ids give different movie URLs. */
  lemma {:induction false} MovieUrlInjective(a: string, b: string)
    requires Url(GetMovieById(a)) == Url(GetMovieById(b))
    ensures a == b
  {
    var p := BASE_URL + "/movies/";
    assert Url(GetMovieById(a)) == p + a && Url(GetMovieById(b)) == p + b;
    assert a == (p + a)[|p|..];
    assert b == (p + b)[|p|..];
  }

  /** Since ids are not encoded, an id can name another endpoint: the id "upload" is the poster upload path. */
  lemma IdsAreNotEncoded()
    ensures Url(GetMovieById("upload")) == Url(UploadPoster)
    ensures Url(GetMovieById("genre/Drama")) == Url(GetMoviesByGenre("Drama"))
    ensures Url(SearchMovies("a&genre=b")) == BASE_URL + "/movies/search?title=a&genre=b"
  {
  }
}

/** The records the REST API sends back and the pages keep in their state. */
module Catalog {
  import opened Wrappers

  /**
   * The response of the login and register endpoints, which is also what the
   * `user` storage slot holds: a token and the account's profile.
   */
  datatype User = User(
    token: Option<string>,
    id: Option<int>,
    name: Option<string>,
    email: Option<string>,
    role: Option<string>)

  datatype Movie = Movie(
    id: int,
    title: string,
    director: string,
    genre: string,
    actors: seq<string>,
    releaseYear: int,
    synopsis: string,
    imageUrl: string,
    imagePublicId: string,
    posterUrl: Option<string>,
    rating: Option<real>,
    averageRating: real,
    reviewCount: nat)

  datatype Review = Review(
    id: int,
    userId: Option<int>,
    movieId: int,
    rating: int,
    comment: string,
    createdAt: string,
    updatedAt: string)

  const ADMIN := "ADMIN"
  const USER := "USER"

  /** A JavaScript string value used as a condition: present and not empty. */
  predicate Truthy(s: Option<string>) {
    s.Some? && s.value != ""
  }
}

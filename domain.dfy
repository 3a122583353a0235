/** Small helpers shared by every module. */
module Wrappers {

  /** A value that may be absent: an unset request field or an unset schema path. */
  datatype Option<+T> = None | Some(value: T)
}

/** Sequence surgery used by the handlers. */
module Seqs {

  /** `s.splice(i, 1)`: the sequence without its element at index `i`, the others in order. */
  function Splice<T>(s: seq<T>, i: int): (r: seq<T>)
    requires 0 <= i < |s|
    ensures |r| == |s| - 1
    ensures forall k :: 0 <= k < i ==> r[k] == s[k]
    ensures forall k :: i <= k < |r| ==> r[k] == s[k + 1]
  {
    s[..i] + s[i + 1..]
  }
}

/**
 * The records of the store: users and movies as their schemas declare them, and
 * reviews as the routes create them. Identifiers are opaque keys; the HTTP reply of a
 * handler is a `Reply`.
 */
module Domain {
  import opened Wrappers

  type MovieId = nat
  type UserId = nat
  type ReviewId = nat

  /** A point in time (`Date.now`); the model never looks inside one. */
  type Timestamp = int

  /** The two values the `role` path of the user schema admits. */
  datatype Role = RegularUser | Admin

  function RoleName(r: Role): string {
    match r
    case RegularUser => "user"
    case Admin => "admin"
  }

  /** The role check of the role-update handler: only "user" and "admin" are accepted. */
  function ParseRole(s: string): (r: Option<Role>)
    ensures r.Some? <==> s == "user" || s == "admin"
    ensures r.Some? ==> RoleName(r.value) == s
  {
    if s == "user" then Some(RegularUser)
    else if s == "admin" then Some(Admin)
    else None
  }

  lemma RoleNameParses(r: Role)
    ensures ParseRole(RoleName(r)) == Some(r)
  {
  }

  /**
   * One element of a user's watchlist. The schema does not require `movie`, so an
   * entry may lack it; the handlers skip such entries when they search.
   */
  datatype WatchEntry = WatchEntry(movie: Option<MovieId>, dateAdded: Timestamp)

  /** A user document; the password hash is not part of this model. */
  datatype User = User(
    username: string,
    email: string,
    profilePicture: string,
    joinDate: Timestamp,
    role: Role,
    watchlist: seq<WatchEntry>)

  /** A movie document; `averageRating` is derived from the movie's reviews. */
  datatype Movie = Movie(
    title: string,
    genre: seq<string>,
    releaseYear: Option<int>,
    director: Option<string>,
    cast: seq<string>,
    synopsis: Option<string>,
    posterUrl: Option<string>,
    averageRating: real)

  /** A review document as the create handler builds it. */
  datatype Review = Review(
    id: ReviewId,
    user: UserId,
    movie: MovieId,
    rating: int,
    reviewText: string,
    username: string,
    timestamp: Timestamp)

  /** The reply of a route handler: its JSON body on 200, or the status it answers with. */
  datatype Reply<+T> = Ok(value: T) | BadRequest | Unauthorized | NotFound | ServerError

  /** JavaScript truthiness of an optional string: present and non-empty. */
  predicate Truthy(s: Option<string>) {
    s.Some? && s.value != ""
  }

  /** JavaScript truthiness of an optional number: present and non-zero. */
  predicate TruthyNumber(n: Option<int>) {
    n.Some? && n.value != 0
  }
}

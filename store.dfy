/**
 * The server's document store and the route handlers that change it. Each handler is a
 * method of `Store`; the authenticated caller's id, request fields, the current time and
 * freshly generated ids are parameters.
 */
module MovieStore {
  import opened Wrappers
  import opened Seqs
  import opened Domain
  import opened Rating
  import opened Reviews
  import opened Watchlist

  /** No two users share a username, and no two share an email (the schema's unique indexes). */
  predicate UniqueAccounts(users: map<UserId, User>) {
    forall a, b :: a in users && b in users && a != b ==>
      users[a].username != users[b].username && users[a].email != users[b].email
  }

  /** Another user than `id` already holds the username or the email of `u`. */
  predicate Clashes(users: map<UserId, User>, id: UserId, u: User) {
    exists other :: other in users && other != id &&
      (users[other].username == u.username || users[other].email == u.email)
  }

  class Store {
    var movies: map<MovieId, Movie>
    var reviews: seq<Review>
    var users: map<UserId, User>

    /** What the store's unique indexes guarantee. */
    ghost predicate Valid()
      reads this
    {
      UniqueIds(reviews) && UniqueAccounts(users)
    }

    /** Every movie's `averageRating` is the mean of its current reviews. */
    ghost predicate Consistent()
      reads this
    {
      AveragesConsistent(movies, reviews)
    }

    /** No user's watchlist lists a movie twice. */
    ghost predicate WatchlistsUnique()
      reads this
    {
      forall u :: u in users ==> UniqueMovies(users[u].watchlist)
    }

    /** A store holding the given collections. */
    constructor (movies: map<MovieId, Movie>, reviews: seq<Review>, users: map<UserId, User>)
      requires UniqueIds(reviews) && UniqueAccounts(users)
      ensures Valid()
      ensures this.movies == movies && this.reviews == reviews && this.users == users
    {
      this.movies := movies;
      this.reviews := reviews;
      this.users := users;
    }

    // ---------------------------------------------------------------------------
    // The rating aggregator
    // ---------------------------------------------------------------------------

    /**
     * The recomputation of the admin handlers: the mean of the movie's reviews, or 0 when
     * it has none, written to the movie if it still exists and dropped otherwise.
     */
    method Recompute(movieId: MovieId)
      modifies this
      ensures reviews == old(reviews) && users == old(users)
      ensures movieId in old(movies) ==>
                movies == old(movies)[movieId := old(movies)[movieId].(averageRating := Mean(RatingsOf(reviews, movieId)))]
      ensures movieId !in old(movies) ==> movies == old(movies)
    {
      var ratings := RatingsOf(reviews, movieId);
      var avgRating := if |ratings| > 0 then Sum(ratings) as real / |ratings| as real else 0.0;
      if movieId in movies {
        movies := movies[movieId := movies[movieId].(averageRating := avgRating)];
      }
    }

    // ---------------------------------------------------------------------------
    // Movie routes
    // ---------------------------------------------------------------------------

    /**
     * Posting a review. The handler does not look for an earlier review by the same user,
     * so every call on an existing movie by an existing user succeeds. The stored average
     * is recomputed as the sum over the count without a guard: the count includes the new
     * review, so it is at least 1.
     */
    method CreateReview(caller: UserId, movieId: MovieId, rating: int, reviewText: string,
                        id: ReviewId, now: Timestamp) returns (r: Reply<Review>)
      requires Valid()
      requires forall k :: 0 <= k < |reviews| ==> reviews[k].id != id
      modifies this
      ensures Valid()
      ensures r.Ok? <==> movieId in old(movies) && caller in old(users)
      ensures movieId !in old(movies) ==> r == NotFound
      ensures movieId in old(movies) && caller !in old(users) ==> r == ServerError
      ensures !r.Ok? ==> movies == old(movies) && reviews == old(reviews) && users == old(users)
      ensures r.Ok? ==>
                && r.value == Review(id, caller, movieId, rating, reviewText, old(users)[caller].username, now)
                && reviews == old(reviews) + [r.value]
                && RatingsOf(reviews, movieId) == RatingsOf(old(reviews), movieId) + [rating]
                && movies == old(movies)[movieId := old(movies)[movieId].(averageRating := Mean(RatingsOf(reviews, movieId)))]
                && users == old(users)
      ensures old(Consistent()) ==> Consistent()
    {
      if movieId !in movies {
        return NotFound;
      }
      if caller !in users {
        // `user.username` on a missing user document throws before anything is saved
        return ServerError;
      }
      var review := Review(id, caller, movieId, rating, reviewText, users[caller].username, now);
      ghost var before := reviews;
      UniqueIdsAppend(reviews, review);
      reviews := reviews + [review];
      var ratings := RatingsOf(reviews, movieId);
      RatingsOfAppend(before, review, movieId);
      var avgRating := Sum(ratings) as real / |ratings| as real;
      movies := movies[movieId := movies[movieId].(averageRating := avgRating)];
      forall m | m in movies && m != movieId
        ensures RatingsOf(reviews, m) == RatingsOf(before, m)
      {
        RatingsOfAppend(before, review, m);
      }
      r := Ok(review);
    }

    /**
     * Deleting a movie removes only the movie: its reviews stay behind with a reference to
     * nothing, and so do the watchlist entries that list it.
     */
    method DeleteMovie(movieId: MovieId) returns (r: Reply<()>)
      requires Valid()
      modifies this
      ensures Valid()
      ensures r == (if movieId in old(movies) then Ok(()) else NotFound)
      ensures movies == old(movies) - {movieId}
      ensures reviews == old(reviews) && users == old(users)
      ensures r.Ok? && (exists k :: 0 <= k < |reviews| && reviews[k].movie == movieId) ==>
                !ReviewsReferToMovies(movies, reviews)
      ensures old(Consistent()) ==> Consistent()
    {
      if movieId !in movies {
        return NotFound;
      }
      movies := movies - {movieId};
      r := Ok(());
    }

    // ---------------------------------------------------------------------------
    // Admin routes
    // ---------------------------------------------------------------------------

    /**
     * Deleting a review: the review is removed and its movie's average recomputed over the
     * reviews that remain.
     */
    method AdminDeleteReview(id: ReviewId) returns (r: Reply<()>)
      requires Valid()
      modifies this
      ensures Valid()
      ensures r.Ok? <==> exists k :: 0 <= k < |old(reviews)| && old(reviews)[k].id == id
      ensures !r.Ok? ==> r == NotFound && movies == old(movies) && reviews == old(reviews)
      ensures r.Ok? ==>
                var i := IndexOfReview(old(reviews), id);
                var movieId := old(reviews)[i].movie;
                && reviews == Splice(old(reviews), i)
                && (forall k :: 0 <= k < |reviews| ==> reviews[k].id != id)
                && RatingsOf(reviews, movieId) == Splice(RatingsOf(old(reviews), movieId), RatingsIndex(old(reviews), i))
                && (movieId in old(movies) ==>
                      movies == old(movies)[movieId := old(movies)[movieId].(averageRating := Mean(RatingsOf(reviews, movieId)))])
                && (movieId !in old(movies) ==> movies == old(movies))
      ensures users == old(users)
      ensures old(Consistent()) ==> Consistent()
    {
      var i := IndexOfReview(reviews, id);
      if i == -1 {
        return NotFound;
      }
      var movieId := reviews[i].movie;
      ghost var before := reviews;
      UniqueIdsSplice(reviews, i);
      RatingsOfSpliceOwn(reviews, i);
      reviews := Splice(reviews, i);
      Recompute(movieId);
      forall m | m in movies && m != movieId
        ensures RatingsOf(reviews, m) == RatingsOf(before, m)
      {
        RatingsOfSpliceOther(before, i, m);
      }
      r := Ok(());
    }

    /**
     * Changing a user's role: any value other than "user" or "admin" is refused before the
     * store is touched; otherwise only that user's role changes.
     */
    method UpdateRole(id: UserId, role: string) returns (r: Reply<User>)
      requires Valid()
      modifies this
      ensures Valid()
      ensures ParseRole(role).None? ==> r == BadRequest && users == old(users)
      ensures ParseRole(role).Some? && id !in old(users) ==> r == NotFound && users == old(users)
      ensures ParseRole(role).Some? && id in old(users) ==>
                && r == Ok(old(users)[id].(role := ParseRole(role).value))
                && users == old(users)[id := r.value]
      ensures movies == old(movies) && reviews == old(reviews)
      ensures old(WatchlistsUnique()) ==> WatchlistsUnique()
    {
      var parsed := ParseRole(role);
      if parsed.None? {
        return BadRequest;
      }
      if id !in users {
        return NotFound;
      }
      var user := users[id].(role := parsed.value);
      users := users[id := user];
      r := Ok(user);
    }

    /**
     * Editing a review: a falsy rating or an empty text is taken as "not supplied", so an
     * empty patch changes no field. The movie's average is then recomputed with the review
     * as edited.
     */
    method AdminEditReview(id: ReviewId, rating: Option<int>, reviewText: Option<string>)
      returns (r: Reply<Review>)
      requires Valid()
      modifies this
      ensures Valid()
      ensures r.Ok? <==> exists k :: 0 <= k < |old(reviews)| && old(reviews)[k].id == id
      ensures !r.Ok? ==> r == NotFound && movies == old(movies) && reviews == old(reviews)
      ensures r.Ok? ==>
                var i := IndexOfReview(old(reviews), id);
                var was := old(reviews)[i];
                && r.value.rating == (if TruthyNumber(rating) then rating.value else was.rating)
                && r.value.reviewText == (if Truthy(reviewText) then reviewText.value else was.reviewText)
                && r.value == was.(rating := r.value.rating, reviewText := r.value.reviewText)
                && reviews == old(reviews)[i := r.value]
                && (was.movie in old(movies) ==>
                      movies == old(movies)[was.movie := old(movies)[was.movie].(averageRating := Mean(RatingsOf(reviews, was.movie)))])
                && (was.movie !in old(movies) ==> movies == old(movies))
      ensures users == old(users)
      ensures old(Consistent()) ==> Consistent()
    {
      var i := IndexOfReview(reviews, id);
      if i == -1 {
        return NotFound;
      }
      var review := reviews[i];
      if TruthyNumber(rating) {
        review := review.(rating := rating.value);
      }
      if Truthy(reviewText) {
        review := review.(reviewText := reviewText.value);
      }
      ghost var before := reviews;
      UniqueIdsUpdate(reviews, i, review);
      reviews := reviews[i := review];
      Recompute(review.movie);
      forall m | m in movies && m != review.movie
        ensures RatingsOf(reviews, m) == RatingsOf(before, m)
      {
        RatingsOfUpdateOther(before, i, review, m);
      }
      r := Ok(review);
    }

    /**
     * Deleting a user deletes the user and every review the user wrote, but recomputes no
     * average: only movies the user never reviewed are guaranteed to keep a matching one.
     */
    method AdminDeleteUser(id: UserId) returns (r: Reply<()>)
      requires Valid()
      modifies this
      ensures Valid()
      ensures r == Ok(())
      ensures users == old(users) - {id}
      ensures reviews == WithoutUser(old(reviews), id)
      ensures movies == old(movies)
      ensures old(Consistent()) ==>
                forall m :: m in movies && !ReviewedBy(old(reviews), m, id) ==>
                  movies[m].averageRating == Mean(RatingsOf(reviews, m))
      ensures old(WatchlistsUnique()) ==> WatchlistsUnique()
    {
      ghost var before := reviews;
      UniqueIdsWithoutUser(reviews, id);
      users := users - {id};
      reviews := WithoutUser(reviews, id);
      forall m | m in movies && !ReviewedBy(before, m, id)
        ensures RatingsOf(reviews, m) == RatingsOf(before, m)
      {
        RatingsOfWithoutUser(before, id, m);
      }
      r := Ok(());
    }

    // ---------------------------------------------------------------------------
    // User routes
    // ---------------------------------------------------------------------------

    /**
     * Adding a movie to the caller's watchlist: the movie must exist and must not be
     * listed yet; the new entry goes at the end and the reply is the new watchlist.
     */
    method AddToWatchlist(caller: UserId, movieId: MovieId, now: Timestamp)
      returns (r: Reply<seq<WatchEntry>>)
      requires Valid()
      modifies this
      ensures Valid()
      ensures movieId !in old(movies) ==> r == NotFound
      ensures movieId in old(movies) && caller !in old(users) ==> r == ServerError
      ensures movieId in old(movies) && caller in old(users) && Listed(old(users)[caller].watchlist, movieId) ==>
                r == BadRequest
      ensures !r.Ok? ==> users == old(users)
      ensures r.Ok? <==> movieId in old(movies) && caller in old(users) && !Listed(old(users)[caller].watchlist, movieId)
      ensures r.Ok? ==>
                && r.value == old(users)[caller].watchlist + [NewEntry(movieId, now)]
                && users == old(users)[caller := old(users)[caller].(watchlist := r.value)]
      ensures movies == old(movies) && reviews == old(reviews)
      ensures old(WatchlistsUnique()) ==> WatchlistsUnique()
    {
      if movieId !in movies {
        return NotFound;
      }
      if caller !in users {
        // `user.watchlist` on a missing user document throws
        return ServerError;
      }
      var user := users[caller];
      var found := FindIndex(user.watchlist, movieId);
      if found != -1 {
        return BadRequest;
      }
      if UniqueMovies(user.watchlist) {
        PushKeepsUnique(user.watchlist, movieId, now);
      }
      user := user.(watchlist := user.watchlist + [NewEntry(movieId, now)]);
      users := users[caller := user];
      r := Ok(user.watchlist);
    }

    /**
     * Removing a movie from the caller's watchlist: the first entry that lists it is cut
     * out and the other entries keep their order.
     */
    method RemoveFromWatchlist(caller: UserId, movieId: MovieId) returns (r: Reply<seq<WatchEntry>>)
      requires Valid()
      modifies this
      ensures Valid()
      ensures caller !in old(users) ==> r == ServerError
      ensures caller in old(users) && !Listed(old(users)[caller].watchlist, movieId) ==> r == NotFound
      ensures !r.Ok? ==> users == old(users)
      ensures r.Ok? <==> caller in old(users) && Listed(old(users)[caller].watchlist, movieId)
      ensures r.Ok? ==>
                var wl := old(users)[caller].watchlist;
                && r.value == Splice(wl, IndexOf(wl, movieId))
                && users == old(users)[caller := old(users)[caller].(watchlist := r.value)]
      ensures movies == old(movies) && reviews == old(reviews)
      ensures old(WatchlistsUnique()) ==> WatchlistsUnique()
    {
      if caller !in users {
        // `user.watchlist` on a missing user document throws
        return ServerError;
      }
      var user := users[caller];
      var removeIndex := FindIndex(user.watchlist, movieId);
      if removeIndex == -1 {
        return NotFound;
      }
      if UniqueMovies(user.watchlist) {
        SpliceKeepsUnique(user.watchlist, removeIndex);
      }
      user := user.(watchlist := Splice(user.watchlist, removeIndex));
      users := users[caller := user];
      r := Ok(user.watchlist);
    }

    /**
     * Updating one's own profile: another caller is refused; otherwise only a non-empty
     * username or email is set. A value another user already holds violates a unique
     * index and fails the request without changing anything.
     */
    method UpdateProfile(caller: UserId, id: UserId, username: Option<string>, email: Option<string>)
      returns (r: Reply<User>)
      requires Valid()
      modifies this
      ensures Valid()
      ensures caller != id ==> r == Unauthorized
      ensures caller == id && id !in old(users) ==> r == NotFound
      ensures !r.Ok? ==> users == old(users)
      ensures r.Ok? ==>
                && caller == id && id in old(users)
                && r.value.username == (if Truthy(username) then username.value else old(users)[id].username)
                && r.value.email == (if Truthy(email) then email.value else old(users)[id].email)
                && r.value == old(users)[id].(username := r.value.username, email := r.value.email)
                && !Clashes(old(users), id, r.value)
                && users == old(users)[id := r.value]
      ensures caller == id && id in old(users) && !Truthy(username) && !Truthy(email) ==> r == Ok(old(users)[id])
      ensures caller == id && id in old(users) ==>
                var want := old(users)[id].(
                  username := if Truthy(username) then username.value else old(users)[id].username,
                  email := if Truthy(email) then email.value else old(users)[id].email);
                r == if Clashes(old(users), id, want) then ServerError else Ok(want)
      ensures movies == old(movies) && reviews == old(reviews)
      ensures old(WatchlistsUnique()) ==> WatchlistsUnique()
    {
      if caller != id {
        return Unauthorized;
      }
      if id !in users {
        return NotFound;
      }
      var user := users[id];
      if Truthy(username) {
        user := user.(username := username.value);
      }
      if Truthy(email) {
        user := user.(email := email.value);
      }
      if Clashes(users, id, user) {
        // the unique index on username or email rejects the update
        return ServerError;
      }
      users := users[id := user];
      r := Ok(user);
    }
  }

  /**
   * Adding a movie to a watchlist and then removing it leaves
   * every user as before.
   */
  method WatchlistRoundTrip(s: Store, caller: UserId, movieId: MovieId, now: Timestamp)
    returns (added: Reply<seq<WatchEntry>>, removed: Reply<seq<WatchEntry>>)
    requires s.Valid()
    modifies s
    ensures added.Ok? ==> removed.Ok? && s.users == old(s.users)
  {
    ghost var before := s.users;
    added := s.AddToWatchlist(caller, movieId, now);
    if !added.Ok? {
      removed := s.RemoveFromWatchlist(caller, movieId);
      return;
    }
    ghost var user := before[caller];
    ghost var wl := user.watchlist;
    assert added.value == wl + [NewEntry(movieId, now)];
    assert s.users == before[caller := user.(watchlist := added.value)];
    AddThenRemove(wl, movieId, now);
    assert Listed(added.value, movieId);
    removed := s.RemoveFromWatchlist(caller, movieId);
    assert removed.value == wl;
    assert user.(watchlist := wl) == user;
  }

  /**
   * One user reviews a movie with 4 stars and then again with 2: both reviews are
   * accepted, and the stored average goes 4.0 and then 3.0.
   */
  method RatingScenario(movie: Movie, user: User, movieId: MovieId, caller: UserId,
                        id1: ReviewId, id2: ReviewId, t1: Timestamp, t2: Timestamp)
    returns (first: real, second: real)
    requires id1 != id2
    ensures first == 4.0 && second == 3.0
  {
    var s := new Store(map[movieId := movie], [], map[caller := user]);
    ScenarioMeans();
    assert [4] + [2] == [4, 2];
    var a := s.CreateReview(caller, movieId, 4, "", id1, t1);
    assert s.reviews == [a.value] && a.value.id == id1;
    assert RatingsOf(s.reviews, movieId) == [4];
    first := s.movies[movieId].averageRating;
    assert first == Mean([4]);

    var b := s.CreateReview(caller, movieId, 2, "", id2, t2);
    assert RatingsOf(s.reviews, movieId) == [4, 2];
    second := s.movies[movieId].averageRating;
    assert second == Mean([4, 2]);
  }

  /**
   * Deleting the first of a user's two reviews of a movie (4 stars, then 2) brings the
   * stored average to the remaining 2.0.
   */
  method DeleteScenario(movie: Movie, user: User, ra: Review, rb: Review) returns (after: real)
    requires ra.movie == rb.movie && ra.id != rb.id
    requires ra.rating == 4 && rb.rating == 2
    ensures after == 2.0
  {
    var s := new Store(map[ra.movie := movie], [ra, rb], map[ra.user := user]);
    var m := ra.movie;
    assert IndexOfReview([ra, rb], ra.id) == 0;
    assert RatingsOf([ra, rb], m) == [4, 2] by {
      assert [ra, rb][..1] == [ra];
    }
    assert RatingsIndex([ra, rb], 0) == 0;
    assert Splice([4, 2], 0) == [2];
    var d := s.AdminDeleteReview(ra.id);
    assert RatingsOf(s.reviews, m) == [2];
    after := s.movies[m].averageRating;
    ScenarioMeans();
  }
}

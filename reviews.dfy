/**
 * The review collection as the handlers query it: the collection is a sequence of
 * review documents in insertion order, each with its own id. `RatingsOf` is the rating
 * list that `Review.find({ movie })` hands to the average fold.
 */
module Reviews {
  import opened Wrappers
  import opened Seqs
  import opened Domain
  import opened Rating

  /** The ratings of the reviews of movie `m`, in collection order. */
  function RatingsOf(rs: seq<Review>, m: MovieId): (r: seq<int>)
    ensures |r| <= |rs|
  {
    if rs == [] then []
    else
      var last := rs[|rs| - 1];
      RatingsOf(rs[..|rs| - 1], m) + (if last.movie == m then [last.rating] else [])
  }

  /** A movie's rating list is empty exactly when no review refers to the movie. */
  lemma {:induction false} RatingsOfEmpty(rs: seq<Review>, m: MovieId)
    ensures RatingsOf(rs, m) == [] <==> forall k :: 0 <= k < |rs| ==> rs[k].movie != m
  {
    if rs != [] {
      var init := rs[..|rs| - 1];
      RatingsOfEmpty(init, m);
      assert forall k :: 0 <= k < |init| ==> init[k] == rs[k];
    }
  }

  /** True when some review of movie `m` was written by user `u`. */
  predicate ReviewedBy(rs: seq<Review>, m: MovieId, u: UserId) {
    exists k :: 0 <= k < |rs| && rs[k].movie == m && rs[k].user == u
  }

  /** The position of the review that `Review.findById(id)` finds, or -1 when there is none. */
  function IndexOfReview(rs: seq<Review>, id: ReviewId): (i: int)
    ensures -1 <= i < |rs|
    ensures i == -1 <==> forall k :: 0 <= k < |rs| ==> rs[k].id != id
    ensures 0 <= i ==> rs[i].id == id
  {
    if rs == [] then -1
    else if rs[0].id == id then 0
    else
      var j := IndexOfReview(rs[1..], id);
      if j == -1 then -1 else j + 1
  }

  /** The store's `_id` index: no two reviews share an id. */
  predicate UniqueIds(rs: seq<Review>) {
    forall i, j :: 0 <= i < j < |rs| ==> rs[i].id != rs[j].id
  }

  /** `Review.deleteMany({ user: u })`: the reviews of every other user, in order. */
  function WithoutUser(rs: seq<Review>, u: UserId): (r: seq<Review>)
    ensures forall k :: 0 <= k < |r| ==> r[k].user != u && r[k] in rs
    ensures forall k :: 0 <= k < |rs| && rs[k].user != u ==> rs[k] in r
  {
    if rs == [] then []
    else
      var last := rs[|rs| - 1];
      WithoutUser(rs[..|rs| - 1], u) + (if last.user != u then [last] else [])
  }

  /** The store invariant: every movie's stored average is the mean of its current reviews. */
  predicate AveragesConsistent(movies: map<MovieId, Movie>, rs: seq<Review>) {
    forall m :: m in movies ==> movies[m].averageRating == Mean(RatingsOf(rs, m))
  }

  /** Ratings within the 1 to 5 stars the review form offers. */
  predicate RatingsInRange(rs: seq<Review>) {
    forall k :: 0 <= k < |rs| ==> 1 <= rs[k].rating <= 5
  }

  /** Every review refers to a movie that exists. */
  predicate ReviewsReferToMovies(movies: map<MovieId, Movie>, rs: seq<Review>) {
    forall k :: 0 <= k < |rs| ==> rs[k].movie in movies
  }

  lemma {:induction false} RatingsOfConcat(a: seq<Review>, b: seq<Review>, m: MovieId)
    ensures RatingsOf(a + b, m) == RatingsOf(a, m) + RatingsOf(b, m)
  {
    if b == [] {
      assert a + b == a;
    } else {
      var b' := b[..|b| - 1];
      assert (a + b)[..|a + b| - 1] == a + b';
      RatingsOfConcat(a, b', m);
    }
  }

  /** Inserting a review adds its rating at the end of its own movie's list only. */
  lemma RatingsOfAppend(rs: seq<Review>, r: Review, m: MovieId)
    ensures RatingsOf(rs + [r], m) == RatingsOf(rs, m) + (if r.movie == m then [r.rating] else [])
  {
    assert (rs + [r])[..|rs|] == rs;
  }

  /** Removing a review leaves the rating list of every other movie as it was. */
  lemma {:induction false} RatingsOfSpliceOther(rs: seq<Review>, i: int, m: MovieId)
    requires 0 <= i < |rs| && rs[i].movie != m
    ensures RatingsOf(Splice(rs, i), m) == RatingsOf(rs, m)
  {
    var a, b := rs[..i], rs[i + 1..];
    assert Splice(rs, i) == a + b;
    assert rs == a + ([rs[i]] + b);
    assert RatingsOf([rs[i]], m) == [] by {
      RatingsOfAppend([], rs[i], m);
      assert [] + [rs[i]] == [rs[i]];
    }
    RatingsOfConcat([rs[i]], b, m);
    calc {
      RatingsOf(Splice(rs, i), m);
      { RatingsOfConcat(a, b, m); }
      RatingsOf(a, m) + RatingsOf(b, m);
      RatingsOf(a, m) + RatingsOf([rs[i]] + b, m);
      { RatingsOfConcat(a, [rs[i]] + b, m); }
      RatingsOf(rs, m);
    }
  }

  /** Where the rating of review `i` sits in its own movie's rating list. */
  function RatingsIndex(rs: seq<Review>, i: int): (j: nat)
    requires 0 <= i < |rs|
    ensures j < |RatingsOf(rs, rs[i].movie)| && RatingsOf(rs, rs[i].movie)[j] == rs[i].rating
  {
    var m := rs[i].movie;
    assert rs == rs[..i] + [rs[i]] + rs[i + 1..];
    RatingsOfConcat(rs[..i] + [rs[i]], rs[i + 1..], m);
    RatingsOfAppend(rs[..i], rs[i], m);
    |RatingsOf(rs[..i], m)|
  }

  /** Removing a review takes exactly its rating out of its own movie's rating list. */
  lemma {:induction false} RatingsOfSpliceOwn(rs: seq<Review>, i: int)
    requires 0 <= i < |rs|
    ensures var m, j := rs[i].movie, RatingsIndex(rs, i);
            RatingsOf(Splice(rs, i), m) == Splice(RatingsOf(rs, m), j)
  {
    var m := rs[i].movie;
    var a, b := rs[..i], rs[i + 1..];
    assert Splice(rs, i) == a + b;
    assert rs == a + ([rs[i]] + b);
    assert RatingsOf([rs[i]], m) == [rs[i].rating] by {
      RatingsOfAppend([], rs[i], m);
      assert [] + [rs[i]] == [rs[i]];
    }
    RatingsOfConcat(a, b, m);
    RatingsOfConcat(a, [rs[i]] + b, m);
    RatingsOfConcat([rs[i]], b, m);
    var ra, rb := RatingsOf(a, m), RatingsOf(b, m);
    assert RatingsOf(rs, m) == ra + [rs[i].rating] + rb;
    assert Splice(ra + [rs[i].rating] + rb, |ra|) == ra + rb;
  }

  /** Editing a review in place leaves the rating list of every other movie as it was. */
  lemma {:induction false} RatingsOfUpdateOther(rs: seq<Review>, i: int, r: Review, m: MovieId)
    requires 0 <= i < |rs| && rs[i].movie != m && r.movie != m
    ensures RatingsOf(rs[i := r], m) == RatingsOf(rs, m)
  {
    var a, b := rs[..i], rs[i + 1..];
    assert rs[i := r] == a + ([r] + b);
    assert rs == a + ([rs[i]] + b);
    RatingsOfConcat(a, [r] + b, m);
    RatingsOfConcat(a, [rs[i]] + b, m);
    RatingsOfConcat([r], b, m);
    RatingsOfConcat([rs[i]], b, m);
    assert [r][..0] == [] && [rs[i]][..0] == [];
  }

  /** Deleting a user's reviews leaves alone the rating list of a movie that user never reviewed. */
  lemma {:induction false} RatingsOfWithoutUser(rs: seq<Review>, u: UserId, m: MovieId)
    requires !ReviewedBy(rs, m, u)
    ensures RatingsOf(WithoutUser(rs, u), m) == RatingsOf(rs, m)
  {
    if rs != [] {
      var init, last := rs[..|rs| - 1], rs[|rs| - 1];
      assert rs == init + [last];
      assert !ReviewedBy(init, m, u) by {
        forall k | 0 <= k < |init| ensures !(init[k].movie == m && init[k].user == u) {
          assert init[k] == rs[k];
        }
      }
      RatingsOfWithoutUser(init, u, m);
      var tail := if last.user != u then [last] else [];
      assert WithoutUser(rs, u) == WithoutUser(init, u) + tail;
      RatingsOfConcat(WithoutUser(init, u), tail, m);
      RatingsOfAppend(init, last, m);
      if last.user != u {
        RatingsOfAppend([], last, m);
      }
    }
  }

  lemma UniqueIdsAppend(rs: seq<Review>, r: Review)
    requires UniqueIds(rs)
    requires forall k :: 0 <= k < |rs| ==> rs[k].id != r.id
    ensures UniqueIds(rs + [r])
  {
  }

  lemma UniqueIdsSplice(rs: seq<Review>, i: int)
    requires UniqueIds(rs) && 0 <= i < |rs|
    ensures UniqueIds(Splice(rs, i))
    ensures forall k :: 0 <= k < |Splice(rs, i)| ==> Splice(rs, i)[k].id != rs[i].id
  {
    var r := Splice(rs, i);
    forall a, b | 0 <= a < b < |r| ensures r[a].id != r[b].id {
      var a' := if a < i then a else a + 1;
      var b' := if b < i then b else b + 1;
      assert r[a] == rs[a'] && r[b] == rs[b'];
    }
  }

  lemma UniqueIdsUpdate(rs: seq<Review>, i: int, r: Review)
    requires UniqueIds(rs) && 0 <= i < |rs| && r.id == rs[i].id
    ensures UniqueIds(rs[i := r])
  {
    var rs' := rs[i := r];
    forall a, b | 0 <= a < b < |rs'| ensures rs'[a].id != rs'[b].id {
      assert rs'[a].id == rs[a].id && rs'[b].id == rs[b].id;
    }
  }

  lemma {:induction false} UniqueIdsWithoutUser(rs: seq<Review>, u: UserId)
    requires UniqueIds(rs)
    ensures UniqueIds(WithoutUser(rs, u))
  {
    if rs != [] {
      var init, last := rs[..|rs| - 1], rs[|rs| - 1];
      UniqueIdsWithoutUser(init, u);
      var kept := WithoutUser(init, u);
      forall k | 0 <= k < |kept| ensures kept[k].id != last.id {
        var j :| 0 <= j < |init| && init[j] == kept[k];
      }
    }
  }

  /**
   * With ratings in range, an invariant store holds only averages between 0 and 5: 0 for a
   * movie without reviews, and between 1 and 5 otherwise.
   */
  lemma AveragesInRange(movies: map<MovieId, Movie>, rs: seq<Review>, m: MovieId)
    requires AveragesConsistent(movies, rs) && RatingsInRange(rs) && m in movies
    ensures 0.0 <= movies[m].averageRating <= 5.0
    ensures movies[m].averageRating == 0.0 <==> forall k :: 0 <= k < |rs| ==> rs[k].movie != m
  {
    var ratings := RatingsOf(rs, m);
    RatingsOfEmpty(rs, m);
    if ratings != [] {
      RatingsOfInRange(rs, m);
      MeanBounds(ratings, 1, 5);
    }
  }

  lemma {:induction false} RatingsOfInRange(rs: seq<Review>, m: MovieId)
    requires RatingsInRange(rs)
    ensures forall k :: 0 <= k < |RatingsOf(rs, m)| ==> 1 <= RatingsOf(rs, m)[k] <= 5
  {
    if rs != [] {
      RatingsOfInRange(rs[..|rs| - 1], m);
    }
  }

  /** A single review contributes its rating to its own movie's list only. */
  lemma RatingsOfSingle(r: Review, m: MovieId)
    ensures RatingsOf([r], m) == if r.movie == m then [r.rating] else []
  {
    RatingsOfAppend([], r, m);
    assert [] + [r] == [r];
  }

  /**
   * Deleting a user's reviews without recomputing can leave a stored average that no longer
   * matches: one movie, one review of 4 stars by user 7, and user 7 deleted.
   */
  lemma DeletingUserReviewsBreaksAverages()
    ensures var movies := map[0 := Movie("", [], None, None, [], None, None, 4.0)];
            var rs := [Review(1, 7, 0, 4, "", "", 0)];
            AveragesConsistent(movies, rs) && !AveragesConsistent(movies, WithoutUser(rs, 7))
  {
    var movies := map[0 := Movie("", [], None, None, [], None, None, 4.0)];
    var review := Review(1, 7, 0, 4, "", "", 0);
    RatingsOfSingle(review, 0);
    ScenarioMeans();
    assert AveragesConsistent(movies, [review]);
    assert WithoutUser([review], 7) == [] by {
      assert [review][..0] == [];
    }
  }
}

/**
 * A user's watchlist: an ordered sequence of entries, kept free of duplicate movies by
 * the add handler's check. Both handlers search it with the same predicate.
 */
module Watchlist {
  import opened Wrappers
  import opened Seqs
  import opened Domain

  /** The search predicate of both handlers: the entry has a movie and it is `m`. */
  predicate Refers(e: WatchEntry, m: MovieId) {
    e.movie == Some(m)
  }

  /** Some entry of the watchlist refers to `m` (the add handler's `some`). */
  predicate Listed(wl: seq<WatchEntry>, m: MovieId) {
    exists k :: 0 <= k < |wl| && Refers(wl[k], m)
  }

  /** No movie is listed twice; entries without a movie are not constrained. */
  predicate UniqueMovies(wl: seq<WatchEntry>) {
    forall i, j :: 0 <= i < j < |wl| && wl[i].movie.Some? ==> wl[i].movie != wl[j].movie
  }

  /** What `findIndex` answers: the first entry referring to `m`, or -1. */
  function IndexOf(wl: seq<WatchEntry>, m: MovieId): (i: int)
    ensures -1 <= i < |wl|
    ensures i == -1 <==> !Listed(wl, m)
    ensures 0 <= i ==> Refers(wl[i], m) && forall k :: 0 <= k < i ==> !Refers(wl[k], m)
  {
    if wl == [] then -1
    else if Refers(wl[0], m) then 0
    else
      var j := IndexOf(wl[1..], m);
      assert forall k :: 1 <= k < |wl| ==> wl[k] == wl[1..][k - 1];
      if j == -1 then -1 else j + 1
  }

  /** The scan `findIndex` performs, entry by entry. */
  method FindIndex(wl: seq<WatchEntry>, m: MovieId) returns (i: int)
    ensures i == IndexOf(wl, m)
  {
    i := 0;
    while i < |wl|
      invariant 0 <= i <= |wl|
      invariant forall k :: 0 <= k < i ==> !Refers(wl[k], m)
    {
      if Refers(wl[i], m) {
        return;
      }
      i := i + 1;
    }
    i := -1;
  }

  /** The entry `push({ movie })` appends. */
  function NewEntry(m: MovieId, now: Timestamp): WatchEntry {
    WatchEntry(Some(m), now)
  }

  /** Appending a movie that is not listed keeps the watchlist free of duplicates. */
  lemma PushKeepsUnique(wl: seq<WatchEntry>, m: MovieId, now: Timestamp)
    requires UniqueMovies(wl) && !Listed(wl, m)
    ensures UniqueMovies(wl + [NewEntry(m, now)])
  {
    var wl' := wl + [NewEntry(m, now)];
    forall i, j | 0 <= i < j < |wl'| && wl'[i].movie.Some? ensures wl'[i].movie != wl'[j].movie {
      if j == |wl| {
        assert !Refers(wl[i], m);
      }
    }
  }

  /** Removing one entry keeps the watchlist free of duplicates. */
  lemma SpliceKeepsUnique(wl: seq<WatchEntry>, i: int)
    requires UniqueMovies(wl) && 0 <= i < |wl|
    ensures UniqueMovies(Splice(wl, i))
  {
    var r := Splice(wl, i);
    forall a, b | 0 <= a < b < |r| && r[a].movie.Some? ensures r[a].movie != r[b].movie {
      var a' := if a < i then a else a + 1;
      var b' := if b < i then b else b + 1;
      assert r[a] == wl[a'] && r[b] == wl[b'];
    }
  }

  /** On a duplicate-free watchlist, removing the first entry for `m` leaves `m` unlisted. */
  lemma RemoveUnlists(wl: seq<WatchEntry>, m: MovieId)
    requires UniqueMovies(wl) && Listed(wl, m)
    ensures !Listed(Splice(wl, IndexOf(wl, m)), m)
  {
    var i := IndexOf(wl, m);
    var r := Splice(wl, i);
    forall k | 0 <= k < |r| ensures !Refers(r[k], m) {
      if k >= i {
        assert r[k] == wl[k + 1];
      }
    }
  }

  /**
   * Adding a movie and then removing it restores the watchlist: the appended entry is the
   * only one referring to the movie, so `findIndex` finds it at the end.
   */
  lemma AddThenRemove(wl: seq<WatchEntry>, m: MovieId, now: Timestamp)
    requires !Listed(wl, m)
    ensures IndexOf(wl + [NewEntry(m, now)], m) == |wl|
    ensures Splice(wl + [NewEntry(m, now)], |wl|) == wl
  {
    var wl' := wl + [NewEntry(m, now)];
    assert Refers(wl'[|wl|], m);
    assert forall k :: 0 <= k < |wl| ==> wl'[k] == wl[k];
  }
}

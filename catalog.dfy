/**
 * The catalog listing: the movies matching an optional genre and an optional title
 * search, one page of them, and the number of pages.
 */
module Catalog {
  import opened Wrappers
  import opened Domain

  /** The query string of a listing request; absent parameters are `None`. */
  datatype Query = Query(page: Option<int>, limit: Option<int>, genre: Option<string>, search: Option<string>)

  /** The reply body of a listing. */
  datatype Listing = Listing(movies: seq<Movie>, totalPages: nat, currentPage: int)

  /** The page asked for, 1 when the parameter is absent. */
  function PageNumber(q: Query): int {
    if q.page.Some? then q.page.value else 1
  }

  /** The page size asked for, 10 when the parameter is absent. */
  function PageSize(q: Query): int {
    if q.limit.Some? then q.limit.value else 10
  }

  /** The number of matches skipped before the page: `(page - 1) * limit`. */
  function Skip(q: Query): nat
    requires PageNumber(q) >= 1 && PageSize(q) >= 1
  {
    var pagesBefore: nat := PageNumber(q) - 1;
    var size: nat := PageSize(q);
    pagesBefore * size
  }

  /** ASCII lower-casing, the case folding the search applies. */
  function Lower(c: char): char {
    if 'A' <= c <= 'Z' then (c as int + 32) as char else c
  }

  /** `pattern` occurs in `text` at `at`, ignoring case. */
  predicate OccursAt(text: string, pattern: string, at: int)
    requires 0 <= at <= |text| - |pattern|
  {
    forall k :: 0 <= k < |pattern| ==> Lower(text[at + k]) == Lower(pattern[k])
  }

  /** The case-insensitive title search, taken as a plain substring search. */
  predicate ContainsIgnoringCase(text: string, pattern: string) {
    exists at :: 0 <= at <= |text| - |pattern| && OccursAt(text, pattern, at)
  }

  /** The filter the query builds: each condition applies only when its parameter is truthy. */
  predicate Matches(q: Query, m: Movie) {
    && (Truthy(q.genre) ==> q.genre.value in m.genre)
    && (Truthy(q.search) ==> ContainsIgnoringCase(m.title, q.search.value))
  }

  /** The movies of the catalog the query matches, in catalog order. */
  function Filter(catalog: seq<Movie>, q: Query): (r: seq<Movie>)
    ensures |r| <= |catalog|
    ensures forall k :: 0 <= k < |r| ==> Matches(q, r[k])
    ensures forall m :: m in r <==> m in catalog && Matches(q, m)
  {
    if catalog == [] then []
    else
      var last := catalog[|catalog| - 1];
      Filter(catalog[..|catalog| - 1], q) + (if Matches(q, last) then [last] else [])
  }

  /** Filtering keeps every copy of a matching movie, so the count of matches is exact. */
  lemma {:induction false} FilterMultiset(catalog: seq<Movie>, q: Query)
    ensures forall m :: multiset(Filter(catalog, q))[m] == if Matches(q, m) then multiset(catalog)[m] else 0
  {
    if catalog != [] {
      var n := |catalog| - 1;
      assert catalog == catalog[..n] + [catalog[n]];
      FilterMultiset(catalog[..n], q);
    }
  }

  /** Filtering keeps catalog order: the matches of a concatenation are the matches of each part, in turn. */
  lemma {:induction false} FilterConcat(a: seq<Movie>, b: seq<Movie>, q: Query)
    ensures Filter(a + b, q) == Filter(a, q) + Filter(b, q)
  {
    if b == [] {
      assert a + b == a;
    } else {
      var b', last := b[..|b| - 1], b[|b| - 1];
      var tail := if Matches(q, last) then [last] else [];
      assert (a + b)[..|a + b| - 1] == a + b' && (a + b)[|a + b| - 1] == last;
      assert Filter(a + b, q) == Filter(a + b', q) + tail;
      assert Filter(b, q) == Filter(b', q) + tail;
      FilterConcat(a, b', q);
      ConcatAssoc(Filter(a, q), Filter(b', q), tail);
    }
  }

  lemma ConcatAssoc<T>(x: seq<T>, y: seq<T>, z: seq<T>)
    ensures x + y + z == x + (y + z)
  {
  }

  /** `skip(n).limit(size)` applied to a result list. */
  function Window<T>(s: seq<T>, skip: nat, size: nat): (r: seq<T>)
    ensures |r| == if skip >= |s| then 0 else if size < |s| - skip then size else |s| - skip
    ensures forall k :: 0 <= k < |r| ==> r[k] == s[skip + k]
  {
    if skip >= |s| then []
    else if size < |s| - skip then s[skip..skip + size]
    else s[skip..]
  }

  /** `Math.ceil(count / size)`. */
  function TotalPages(count: nat, size: int): (n: nat)
    requires size >= 1
    ensures count == 0 ==> n == 0
    ensures count > 0 ==> (n - 1) * size < count <= n * size
  {
    var n := (count + size - 1) / size;
    assert n * size <= count + size - 1 < n * size + size by {
      assert count + size - 1 == n * size + (count + size - 1) % size;
    }
    n
  }

  /**
   * The listing handler: page `p` of the matches holds the matches from index
   * `(p - 1) * size` on, at most `size` of them.
   */
  function ListMovies(catalog: seq<Movie>, q: Query): (r: Listing)
    requires PageNumber(q) >= 1 && PageSize(q) >= 1
    ensures forall k :: 0 <= k < |r.movies| ==> Matches(q, r.movies[k]) && r.movies[k] in catalog
    ensures |r.movies| <= PageSize(q)
    ensures var count := |Filter(catalog, q)|;
            |r.movies| == if Skip(q) >= count then 0 else if PageSize(q) < count - Skip(q) then PageSize(q) else count - Skip(q)
    ensures forall k :: 0 <= k < |r.movies| ==>
              Skip(q) + k < |Filter(catalog, q)| && r.movies[k] == Filter(catalog, q)[Skip(q) + k]
    ensures var count := |Filter(catalog, q)|;
            (count == 0 ==> r.totalPages == 0) &&
            (count > 0 ==> (r.totalPages - 1) * PageSize(q) < count <= r.totalPages * PageSize(q))
    ensures r.currentPage == PageNumber(q)
  {
    var matching := Filter(catalog, q);
    var page := Window(matching, Skip(q), PageSize(q));
    assert forall k :: 0 <= k < |page| ==> page[k] in matching;
    Listing(page, TotalPages(|matching|, PageSize(q)), PageNumber(q))
  }

  /** A page holds movies exactly when its number is at most the page count. */
  lemma PageNonEmptyWithinTotal(catalog: seq<Movie>, q: Query)
    requires PageNumber(q) >= 1 && PageSize(q) >= 1
    ensures |ListMovies(catalog, q).movies| > 0 <==> PageNumber(q) <= ListMovies(catalog, q).totalPages
  {
    var count := |Filter(catalog, q)|;
    var p, size := PageNumber(q), PageSize(q);
    var n := TotalPages(count, size);
    assert Skip(q) == (p - 1) * size;
    if p <= n {
      assert (p - 1) * size <= (n - 1) * size by { MulMonotone(p - 1, n - 1, size); }
    } else {
      assert n * size <= (p - 1) * size by { MulMonotone(n, p - 1, size); }
    }
  }

  lemma MulMonotone(a: int, b: int, c: nat)
    requires a <= b
    ensures a * c <= b * c
  {
  }
}

# Movie review server: store, rating aggregator, watchlist and catalog

This project models the server side of a movie review web application. The Express
route files `server/routes/movies.js`, `server/routes/admin.js` and
`server/routes/users.js` are modelled as handlers over an in-memory document store, and
their contracts are proved.

- **Store** (`store.dfy`, class `MovieStore.Store`). The store holds:
  - `movies`: a map from movie id to movie document.
  - `reviews`: the review collection, a sequence of review documents in insertion order.
    Each document carries its own id, and the ids are unique.
  - `users`: a map from user id to user document. The user's `watchlist` is embedded in
    the document.

  Each route handler that changes the store is a method. It returns a `Reply`: `Ok` with
  the JSON body, or `BadRequest`, `Unauthorized`, `NotFound` or `ServerError` (400, 401,
  404, 500). `ServerError` stands for the catch-all branch. The model uses it only where
  the code really reaches that branch:
  - a missing user document dereferenced by the watchlist handlers;
  - a missing user document dereferenced by the review-create handler;
  - a profile update that the unique username or email index rejects.
- **Rating aggregator** (`rating.dfy`, `reviews.dfy`). The `reduce` fold is `Rating.Reduce`,
  proved equal to the total `Rating.Sum`, and the stored average is `Rating.Mean`: sum
  over count, or 0 without reviews. The store invariant `Reviews.AveragesConsistent` says
  that every movie's `averageRating` equals `Mean` of its current reviews. Three handlers preserve it: review create, admin review
  edit and admin review delete. Movie delete preserves it too. Admin user delete does not,
  because it removes reviews without recomputing. The model reproduces that gap and does
  not fix it: `AdminDeleteUser` guarantees the invariant only for movies the user never
  reviewed, and `DeletingUserReviewsBreaksAverages` shows a store where the invariant is
  lost. Movie delete leaves orphaned reviews and watchlist entries behind
  (`DeleteMovie`).
- **Watchlist** (`watchlist.dfy`). The watchlist is a sequence of `{movie, dateAdded}`
  entries. It is searched by `findIndex` (`FindIndex`, a loop proved against `IndexOf`),
  grown by `push` and shrunk by `splice`. The model proves three things: both operations
  keep it free of duplicates, removal takes out exactly the first match, and add followed
  by remove restores it.
- **Catalog** (`catalog.dfy`). The listing query works in five steps:
  - it filters by exact genre membership;
  - it matches the title search without regard to case;
  - it skips `(page - 1) * limit` matches;
  - it keeps at most `limit` of the rest;
  - it reports `totalPages = ceil(count / limit)`.

  Absent `page` and `limit` default to 1 and 10.

Two details of the request and schema handling shape the contracts:
- Two request fields use JavaScript truthiness. A patch rating counts only when it is
  present and non-zero. A patch or profile string counts only when it is present and
  non-empty. An empty patch therefore changes nothing.
- A watchlist entry's `movie` is optional, because the schema does not require it. Both
  searches skip entries that have no movie.

The model follows the code as it is written, including these behaviours:
- Review create validates neither the rating nor the review text.
- A duplicate watchlist add answers 400.
- One user may review the same movie any number of times; each review is accepted.
- Reviews are edited and deleted only through the admin routes; there is no route for a
  user to edit or delete their own review.
- User delete removes the user's reviews without recomputing any movie's average.

## Model

| member | source | states |
|---|---|---|
| `Domain.ParseRole` | server/routes/admin.js:72-75 | a role is accepted exactly when it is "user" or "admin", and the accepted role's name is the string given |
| `Domain.RoleNameParses` | server/models/User.js:26-30 | each of the two schema roles passes the role check as itself |
| `Seqs.Splice` | server/routes/users.js:77 | `splice(i, 1)` shortens the list by one, keeps the entries before `i` and shifts the later ones down by one |
| `Rating.MeanBounds` | server/routes/admin.js:54-56 | if every rating lies in [lo, hi], the average of a non-empty rating list lies in [lo, hi] too |
| `Rating.MeanTimesCount` | server/routes/admin.js:54-56 | average times count equals the sum, including the 0 average of no reviews |
| `Rating.MeanAppend` | server/routes/movies.js:137-140 | the average recomputed after one more rating equals the incrementally updated running mean |
| `Rating.MeanSplice` | server/routes/admin.js:49-56 | the average recomputed after removing one rating equals the running mean with that rating taken out |
| `Rating.SumSplice` | server/routes/admin.js:53-55 | removing one rating takes exactly that rating off the folded sum |
| `Rating.ScenarioMeans` | server/routes/admin.js:53-56 | ratings 5, 3, 4 average 4.0, and 4.5 without the 3; ratings 4 then 2 give 4.0, 3.0, and 2.0 once the 4 is removed |
| `Rating.SumIsReduce` | server/routes/admin.js:55 | `Sum`, the total taken from the back, equals `Reduce`, the left-to-right `reduce((acc, item) => item.rating + acc, 0)`; `SumConcat` and `SumSplice` describe how it splits and loses an element |
| `Rating.ReduceAppend` | server/routes/admin.js:55 | folding one more rating in at the end adds exactly that rating to the fold's result |
| `Rating.Mean` | server/routes/admin.js:54-56 | the guarded average is 0 for no ratings and otherwise the value that times the count gives the sum; `MeanBounds`, `MeanAppend` and `MeanSplice` describe it under change |
| `Reviews.RatingsOf` | server/routes/admin.js:53 | `Review.find({ movie })` mapped to ratings, never longer than the collection; `RatingsOfEmpty`, `RatingsOfAppend`, `RatingsOfSpliceOwn` and `RatingsOfSpliceOther` state how it follows the collection |
| `Reviews.RatingsOfEmpty` | server/routes/movies.js:137 | a movie's rating list is empty exactly when no review refers to the movie |
| `Reviews.IndexOfReview` | server/routes/admin.js:43-47 | the lookup finds a review with the id asked for, or answers -1 exactly when no review has it |
| `Reviews.WithoutUser` | server/routes/admin.js:139 | `deleteMany({ user })` keeps every review of another user and only reviews of other users |
| `Reviews.RatingsIndex` | server/routes/admin.js:49-53 | the deleted review's rating sits at a definite position in its movie's rating list |
| `Reviews.RatingsOfAppend` | server/routes/movies.js:134-137 | inserting a review appends its rating to its own movie's list and leaves every other movie's list unchanged |
| `Reviews.RatingsOfSpliceOther` | server/routes/admin.js:49-58 | deleting a review leaves the rating list of every other movie unchanged |
| `Reviews.RatingsOfSpliceOwn` | server/routes/admin.js:49-56 | deleting a review removes exactly its rating from its own movie's rating list |
| `Reviews.RatingsOfUpdateOther` | server/routes/admin.js:108-119 | editing a review in place leaves the rating list of every other movie unchanged |
| `Reviews.RatingsOfWithoutUser` | server/routes/admin.js:138-139 | deleting a user's reviews leaves unchanged the rating list of a movie the user never reviewed |
| `Reviews.AveragesInRange` | server/models/Movie.js:26-29 | in a consistent store with ratings of 1 to 5, every stored average lies in [0, 5], and it is 0 exactly when the movie has no reviews |
| `Reviews.DeletingUserReviewsBreaksAverages` | server/routes/admin.js:136-146 | a consistent store exists whose averages stop matching after a user's reviews are deleted without recomputation |
| `Watchlist.IndexOf` | server/routes/users.js:72 | `findIndex` answers -1 exactly when no entry lists the movie, and otherwise the first entry that lists it |
| `Watchlist.FindIndex` | server/routes/users.js:72 | the scan loop answers what `findIndex` answers |
| `Watchlist.PushKeepsUnique` | server/routes/users.js:48-52 | pushing a movie that is not listed keeps the watchlist free of duplicate movies |
| `Watchlist.SpliceKeepsUnique` | server/routes/users.js:72-77 | splicing out an entry keeps the watchlist free of duplicate movies |
| `Watchlist.RemoveUnlists` | server/routes/users.js:72-77 | on a duplicate-free watchlist, removing the first entry for a movie leaves the movie unlisted |
| `Watchlist.AddThenRemove` | server/routes/users.js:48-77 | after pushing an unlisted movie, `findIndex` finds it at the end, and splicing it out gives back the original watchlist |
| `Catalog.Filter` | server/routes/movies.js:15-23 | the matches are exactly the catalog movies whose genres contain the genre filter and whose title contains the search, when those are given |
| `Catalog.FilterMultiset` | server/routes/movies.js:25-34 | each matching movie is kept as many times as the catalog holds it and no other movie is kept, so the count that `totalPages` divides is exact |
| `Catalog.FilterConcat` | server/routes/movies.js:25 | the matches keep catalog order: the matches of two catalog parts joined are the matches of the first part followed by those of the second |
| `Catalog.Window` | server/routes/movies.js:25-28 | `skip(n).limit(size)` holds `min(size, count - n)` items (none past the end), and item k is match n + k |
| `Catalog.TotalPages` | server/routes/movies.js:34 | the page count is 0 for no matches and otherwise the least n with count <= n * limit |
| `Catalog.ListMovies` | server/routes/movies.js:12-36 | every listed movie matches and is in the catalog; exactly `min(limit, count - (page - 1) * limit)` are listed, none past the end; item k is match `(page - 1) * limit + k`; `totalPages` is the ceiling of count over limit; `currentPage` echoes the page |
| `Catalog.PageNonEmptyWithinTotal` | server/routes/movies.js:25-34 | a page lists some movie exactly when its number is at most `totalPages` |
| `MovieStore.Store.Recompute` | server/routes/admin.js:52-58 | the movie's average becomes the mean of its current reviews; if the movie no longer exists, the movie map is unchanged |
| `MovieStore.Store.CreateReview` | server/routes/movies.js:115-148 | missing movie gives NotFound and missing user gives ServerError, both changing nothing; otherwise exactly one review is appended, with no check for an earlier review by the same user, only the movie's average changes and it becomes the mean including the new rating; the averages invariant is kept |
| `MovieStore.Store.DeleteMovie` | server/routes/movies.js:83-95 | missing movie gives NotFound; otherwise only that movie is removed, and reviews and watchlists are unchanged, so a deleted movie that had a review leaves that review referring to no movie |
| `MovieStore.Store.AdminDeleteReview` | server/routes/admin.js:41-65 | missing review gives NotFound and changes nothing; otherwise exactly that review is gone, its rating is removed from its movie's list, the movie's average is the mean of what remains (0 if none), and the averages invariant is kept |
| `MovieStore.Store.UpdateRole` | server/routes/admin.js:70-92 | a role other than "user" or "admin" gives BadRequest and changes nothing; a missing user gives NotFound; otherwise only that user's role changes |
| `MovieStore.Store.AdminEditReview` | server/routes/admin.js:97-131 | missing review gives NotFound; otherwise rating and text change only when truthy, all other fields are unchanged, the movie's average is the mean with the edited rating (a missing movie stays missing), and the averages invariant is kept |
| `MovieStore.Store.AdminDeleteUser` | server/routes/admin.js:136-146 | always Ok; the user and all of that user's reviews are removed, every other review is kept, no movie changes, and the averages stay right only for movies the user never reviewed |
| `MovieStore.Store.AddToWatchlist` | server/routes/users.js:37-61 | a missing movie gives NotFound, a missing user gives ServerError and a listed movie gives BadRequest, each changing nothing; otherwise exactly one entry for the movie is appended; watchlists stay duplicate-free |
| `MovieStore.Store.RemoveFromWatchlist` | server/routes/users.js:66-86 | a missing user gives ServerError and an unlisted movie gives NotFound, each changing nothing; otherwise the first matching entry is spliced out and the others keep their order; watchlists stay duplicate-free |
| `MovieStore.Store.UpdateProfile` | server/routes/users.js:110-140 | another caller gets Unauthorized and a missing user NotFound; otherwise only a non-empty username or email is set and every other field is unchanged; a value another user holds fails the request with nothing changed; a caller updating an existing own profile gets `Ok` with exactly those fields set unless the result clashes, and `ServerError` if it does |
| `MovieStore.WatchlistRoundTrip` | server/routes/users.js:48-77 | when the add succeeds, the remove that follows also succeeds and every user is as before |
| `MovieStore.RatingScenario` | server/routes/movies.js:126-141 | two reviews by one user of one movie, 4 stars then 2, are both accepted, and the stored average goes 4.0 and then 3.0 |
| `MovieStore.DeleteScenario` | server/routes/admin.js:41-58 | deleting the first of two reviews of a movie (4 stars, then 2) leaves the stored average at 2.0 |

## Left out

- Read-only routes are not modelled: the profile, watchlist, user, movie and review reads, and the admin listings of users and reviews. They change nothing and are not part of this core.
- Movie creation (`POST /api/movies`) is not modelled. A store is built from given collections instead.
- The auth and admin middleware are not part of this model. The caller's id is a parameter. Admin handlers are assumed to be reached only by administrators.
- `populate` and `.select('-password')` are not modelled. The watchlist handlers reply with the stored entries, not with the expanded movie records. The password field is not modelled.
- ObjectId cast errors are not modelled, and neither are persistence failures. A handler either completes or fails at one of the checks the code makes.
- `server/models/Review.js` is not part of this model. Ratings and texts are stored as given. The 1 to 5 range appears only as a precondition of `Reviews.AveragesInRange`.
- Averages are exact reals. Floating-point rounding of the division is not modelled.
- Concurrent requests are not modelled. Each handler runs as one atomic step, so the race between two recomputations of one movie is not captured.
- Timestamps and new ids are parameters. A new review id is required to be unused, as a generated ObjectId is.
- Catalog.ContainsIgnoringCase: the title search is a plain substring match with ASCII case folding. Regular-expression metacharacters and non-ASCII case folding are not modelled.
- Catalog.ListMovies: requires `page >= 1` and `limit >= 1`. The database's treatment of zero or negative skip and limit is not modelled, and neither is the resulting infinite or NaN page count. Repeated query parameters and non-numeric values are not modelled either. `currentPage` is returned as a number; the code echoes the query-string value as received.
- Catalog.ListMovies: the order in which the database lists matches is a parameter, the `catalog` sequence.
- Ids are opaque values compared for equality. The watchlist handlers compare the stored id's canonical lower-case hex string with the raw path parameter, while `Movie.findById` accepts any letter case. An id spelled in upper case therefore passes the duplicate check and is pushed again, and the same spelling makes the remove answer 404. The model does not capture this, so `AddToWatchlist` keeps watchlists duplicate-free only for canonically spelled ids.
- Ratings are integers. The create and edit handlers store any truthy number the request carries, including fractions such as 3.5; fractional ratings are not modelled.

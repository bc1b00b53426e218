# Instagram crawler core, modelled in Dafny

This project models the core of a FastAPI service that crawls Instagram
through a pool of stored credentials ("sessions"), and proves properties of
that model.

The database is a `Store` object. Its two fields hold the tables
`instagram_sessions` and `insta_posts` in storage order, and a commit is an
assignment to a field. Every call to the platform client is an oracle
parameter that gives the outcome of that call. Examples are a login that
succeeds or raises a classified failure, a page of media that arrives or
raises, and an exception with its class tags.

The modules follow the source files:

| module | source | flavour |
|---|---|---|
| `Common` | shared helpers: option, result, HTTP error, first match, Python slices | values |
| `Platform` | the client's value types: media, resources, settings, exceptions | values |
| `Models` | `app/models.py` | the session table as datatypes, a `Store` class with in-place updates |
| `Posts` | `scraper/posts.py` | a `DataFetcher` class whose `Login` and `WalkPages` (the page loop of `fetch_posts`) are loops with invariants |
| `SessionInit` | `scraper/session.py` | a `SessionManager` class: admission check, login, upsert |
| `SessionViews` | `app/views/session_views.py` | listing, detail, partial update, delete |
| `PostViews` | `app/views/post_views.py` | listing, profile paging, delete, fetch trigger |
| `Pagination` | `app/pagination.py` | slicing |
| `HashtagFetcher` | `scraper/hashtag.py` | exception-to-status mapping |
| `HashtagViews` | `app/views/hashtag_views.py` | per-tag shaping, an in-place sort on an array, aggregation |

Main results:

- **Login terminates.** The login's recursive re-dispatch is a loop. Each
  failed attempt raises one flag on the current session, which was eligible,
  so the number of eligible sessions drops by exactly one.
  `Posts.DataFetcher.Login` proves this:
  - the number of attempts is at least 1 and at most the number of eligible
    sessions at the start;
  - the table afterwards is the start table with exactly the flags of the
    trail applied;
  - the k-th flag is the one the k-th attempt's failure calls for;
  - the first flag falls on the starting session, and each later one on the
    session `get_best_session` chose after the earlier flags.
- **Session selection is fair.** `Models.GetBestSession` returns a flag-free
  session with the least use count, and none exactly when no session is
  flag-free. `Models.BestThenUseIsFair` proves that after the chosen session
  records one use, the next choice has a use count at least as large.
- **Fetching a profile.** `Posts.DataFetcher.FetchPosts` (with its page loop
  `Posts.DataFetcher.WalkPages`) is proved against
  `PersistPages`, a function defined one page at a time:
  - the session records exactly one use;
  - the loop requests ⌈media count / 20⌉ pages;
  - the stored posts are replaced, not merged.
  
  `Posts.PersistPagesEffect` describes the resulting record. As written, the
  page that creates a profile's record does not fill it. So a first fetch of
  a one-page profile leaves the record without posts.
- **Admission and admin update.** Admission refuses a flagged record, and
  otherwise upserts by username with all flags cleared
  (`SessionInit.UpsertEffect`, `SessionInit.UpsertIdempotent`). The admin
  partial update overwrites exactly the supplied fields
  (`SessionViews.Patched`, `SessionViews.PatchIdempotent`).
- **Paging and hashtag search.** Offset/limit paging is the window of
  Python's slice (`PostViews.GetProfile`, `Pagination.PaginateQueryset`), and
  stepping the offset by the limit visits every item once, in order
  (`Pagination.PagesVisitEveryItem`).
  The hashtag search returns each tag's media newest first and as a
  permutation of what the platform returned, and folds the per-tag results
  (`HashtagViews.Aggregate`).

Where the code differs from what its documentation suggests, the model
follows the code:
- The stored post list is replaced wholesale after every page. It is not
  merged with earlier content or deduplicated.
- Login has no retry budget. The re-dispatch stops only when the pool runs
  dry or a failure handler itself raises.
- Sessions are not leased. Selection only reads the table.
- The hashtag handler builds a session update after a failed request, but
  applying it names a table class the module never imports. The update
  raises, is caught and is rolled back, so the search leaves the table
  unchanged. `HashtagViews.IntendedUpdate` states the values the update
  would have written.
- `fetch_instagram_data` drops the true/false answer of `fetch_posts` and
  returns nothing, so `get_instagram_data` reports success even when a page
  failed.
- An empty hashtag list makes the thread pool refuse zero workers, which
  ends in a 500.
- Deleting a session leaves its post records in place with a null session
  reference. This is the ORM's default for a relationship without a delete
  cascade; the SQLite `ON DELETE CASCADE` is not enforced.

The three flag setters the login flow calls (`hit_challenge`, `temp_block`
and `block`) are not defined on the session class in `app/models.py`. As
written, each such call raises `AttributeError` inside the failure handler,
so construction of a fetcher stops at the first classified login failure.
The model assumes the setters exist and behave like `increment_use`: each
sets `is_challenge`, `is_temp_block` or `is_block` respectively and commits
(`Models.Store.SetFlag`). The commit matters: the database session is
created with autoflush off, so an uncommitted flag would be invisible to
`get_best_session`, which would hand back the same session again. The login
results above, termination included, rest on this assumption.

## Model

| member | source | states |
|---|---|---|
| Models.NewSession | app/models.py:52-55 | a new record has all three flags false and zero uses, and so is eligible |
| Models.GetBestSession | app/models.py:34-42 | none iff every session has a flag set (or the table is empty); otherwise a flag-free session from the table whose use count is minimal among flag-free sessions (ties are left open; the body takes the first in rowid order) |
| Models.ChangeRows | app/models.py:60-66 | applying one in-place change to the record with an id changes that record only and keeps the table's length |
| Models.NextSessionId | app/models.py:47 | the id given to an inserted record exceeds every id in the table |
| Models.Store.IncrementUse | app/models.py:60-66 | the use counter of the record goes up by one, nothing else in either table changes, and the keys stay unique |
| Models.Store.SetFlag | scraper/posts.py:90-149 | the flag setters the login handlers call, taken to commit like `increment_use`: exactly one flag is raised on the record and nothing else changes |
| Models.Store.FillObject | app/models.py:23-32 | the record's posts are replaced wholesale; its session reference is re-pointed only when a session with that id exists; every other record is unchanged |
| Models.ChangeOne | app/models.py:60-66 | updating the record at its index equals changing every record with its id, and keeps ids and usernames unique |
| Models.RaiseCountsDown | app/models.py:36-39 | raising a flag on an eligible session lowers the number of eligible sessions by exactly one |
| Models.NoBestIffNoneEligible | app/models.py:34-42 | selection finds nothing exactly when the eligible count is zero |
| Models.BestThenUseIsFair | app/models.py:40-42 | after the chosen session records one use, the next choice exists and has a use count no smaller |
| Posts.NormalizePost | scraper/posts.py:177-194 | caption, likes, comments, video URL text and media type are copied; one image entry per resource, whose thumbnail is the resource thumbnail for a photo (type 1) and the video URL otherwise |
| Posts.NormalizeAll | scraper/posts.py:175-195 | one normalised post per media item, in order |
| Posts.GetOrCreate | scraper/posts.py:21-44 | an existing record of (profile, session) leaves the table unchanged; otherwise one empty record is appended; afterwards the record exists and the keys stay unique |
| Posts.GetOrCreateInstaPost | scraper/posts.py:21-44 | `created` iff no record of the pair existed; the returned index is the pair's first record |
| Posts.WritePage | scraper/posts.py:198-233 | the table after one page's write; its effect is stated by `Posts.WritePageEffect` and `Posts.SavePage` |
| Posts.WritePageEffect | scraper/posts.py:198-233 | after one page the pair's record exists; it holds exactly the posts gathered so far if it existed before the page, and no posts if the page created it; other records are unchanged |
| Posts.PageCountIsCeiling | scraper/posts.py:169-196 | the loop runs ⌈count / 20⌉ times, and zero times for a count that is not positive |
| Posts.RemainingPositive | scraper/posts.py:170-196 | the remaining count is positive exactly while fewer pages than that have been requested |
| Posts.PagesFetched | scraper/posts.py:170-173 | the pages fetched are the longest prefix of requested pages that all arrived |
| Posts.PersistPages | scraper/posts.py:170-233 | the table after the first k pages' writes; its effect is stated by `Posts.PersistPagesEffect` and `Posts.DataFetcher.WalkPages` |
| Posts.PersistPagesEffect | scraper/posts.py:170-233 | after k ≥ 1 pages exactly one record of the pair exists and holds everything fetched in this run (earlier content is dropped), except after a single page on a new record; other records are unchanged and keys stay unique |
| Posts.AttemptFailure | scraper/posts.py:69-83 | an attempt succeeds iff the login succeeds and the probe succeeds, or reports a required login and the fresh login succeeds; otherwise the failure is the first failing call's: the login's, else the probe's unless it reports a required login, else the fresh login's |
| Posts.FlagFor | scraper/posts.py:85-152 | challenge iff a required login or a challenge; temporary block iff feedback or please-wait; block iff any other failure |
| Posts.Rebound | scraper/posts.py:88-152 | the session bound after a run of flags: the starting one before any, afterwards `get_best_session`'s choice; stated about the login run by `Posts.DataFetcher.Login` |
| Posts.DataFetcher.Create | scraper/posts.py:50-63 | construction fails with the "no session" error exactly when the pool has no eligible session, and then nothing is written; otherwise the sessions end as the start table with the login run's flags applied (at most one per eligible session, each the one its attempt's failure calls for, each on the session bound at that point, the first on the best session); on success the fetcher is logged in on an eligible session, the one the pool chose after the last flag |
| Posts.DataFetcher.Login | scraper/posts.py:65-152 | between 1 and the starting number of eligible sessions attempts; each failed attempt raises the flag its failure calls for (challenge for a required login or a challenge, temporary block for feedback or please-wait, block otherwise) on an eligible session: the starting one for the first flag, afterwards the one `get_best_session` chose after the earlier flags; the run ends logged in (on the session the pool chose last), with a handler raising, or with the pool empty |
| Posts.DataFetcher.RunAttempt | scraper/posts.py:69-81 | the attempt's failure is the first failing call; a stale probe clears the settings but keeps the device ids before the fresh login |
| Posts.DataFetcher.FlagAndReselect | scraper/posts.py:88-152 | the current session gets the flag and loses eligibility; then `get_best_session`'s choice on the flagged table and its settings are bound, or the pool is exhausted and nothing is rebound |
| Posts.DataFetcher.FetchPosts | scraper/posts.py:154-241 | not logged in, or the profile lookups fail: false and nothing written; otherwise one use recorded, the pages walked and written, and true iff every page arrived |
| Posts.DataFetcher.WalkPages | scraper/posts.py:170-233 | the posts table ends as the page-by-page writes of the pages that arrived; the sessions are untouched |
| Posts.AppendNormalized | scraper/posts.py:175-195 | the page's normalised posts are appended in order |
| Posts.SavePage | scraper/posts.py:198-233 | the table ends as one page's get-or-create and write |
| Posts.FetchInstagramData | scraper/posts.py:244-248 | fails with the "no session" error exactly when the pool has no eligible session, and then writes nothing; every other failure leaves the login run's flags and no posts written; on success nothing is answered, while the session chosen after the flags records one use and the posts table becomes the page-by-page writes of the pages that arrived (nothing written when the profile lookups fail); the dropped answer of `fetch_posts` is exposed only as a ghost output, true iff every page arrived |
| SessionInit.Refusal | scraper/session.py:49-54 | a record is refused iff it has a flag set, with block checked before challenge before temporary block |
| SessionInit.LoginResult | scraper/session.py:84-97 | settings iff the login is truthy; a falsy login is the 400 "Login failed"; a raising login propagates its client exception as the cause |
| SessionInit.Readiness | scraper/session.py:40-66 | the settings the client exports before the database step, or the cause that stopped admission; its cases are stated by `SessionInit.ReadyCases`, `SessionInit.RefusedIsNotAdmitted` and `SessionInit.ClientErrorsSurface` |
| SessionInit.Upsert | scraper/session.py:99-126 | the table after the database step; its effect is stated by `SessionInit.UpsertEffect` and `SessionInit.UpsertIdempotent` |
| SessionInit.RefusedIsNotAdmitted | scraper/session.py:46-54 | a flagged record is refused with its reason before any login or write |
| SessionInit.ClientErrorsSurface | scraper/session.py:57-97 | a client exception stops admission exactly when a flag-free record's probe raises something other than a required login, or the login admission needs raises; that exception is the cause the 500 carries |
| SessionInit.ReadyCases | scraper/session.py:40-66 | the write is reached only for a new username after a truthy login, or a flag-free record whose probe succeeds (its settings kept) or is stale and whose fresh login is truthy; the settings stored are what the client exports |
| SessionInit.UpsertEffect | scraper/session.py:99-126 | afterwards exactly one flag-free record has the username, with the new password and settings; an existing record keeps its id and counter, a new one starts at zero uses; other records and key uniqueness are kept |
| SessionInit.UpsertIdempotent | scraper/session.py:110-115 | admitting the same credential again with the same settings changes nothing |
| SessionInit.SessionManager.constructor | scraper/session.py:23-34 | the manager holds the credential, the database and the new client's settings |
| SessionInit.SessionManager.InitSession | scraper/session.py:36-82 | success answers "success" with the username and upserts; every failure, the 400 refusals included, is a 500 carrying its cause and leaves the table unchanged |
| SessionInit.SessionManager.PerformLogin | scraper/session.py:84-97 | a truthy login leaves the client with its exported settings; a falsy or raising one fails |
| SessionInit.SessionManager.UpdateDatabase | scraper/session.py:99-132 | a commit stores the upsert; a failing commit rolls back to the old table |
| SessionViews.GetSessions | app/views/session_views.py:28-31 | every record in storage order, without its password |
| SessionViews.GetSessionDetail | app/views/session_views.py:34-41 | 404 iff no record has the id; otherwise that record |
| SessionViews.Patched | app/views/session_views.py:56-68 | each flag, the counter and the settings are overwritten iff supplied; the username only when supplied and non-empty; id and password never; any counter value, a smaller one included, is accepted |
| SessionViews.NoChangeIsIdentity | app/views/session_views.py:56-68 | an update supplying nothing leaves the record unchanged |
| SessionViews.PatchIdempotent | app/views/session_views.py:56-68 | sending the same update twice equals sending it once |
| SessionViews.PatchesOfDisjointFieldsCommute | app/views/session_views.py:56-68 | updates of disjoint fields commute |
| SessionViews.UsernameTaken | app/models.py:48 | true iff another record already holds the name |
| SessionViews.ReplaceKeepsKeys | app/models.py:47-48 | writing a record back with its id and a name no other record holds keeps ids and usernames unique |
| SessionViews.ApplyUpdate | app/views/session_views.py:56-68 | the field-by-field assignments produce the patched record |
| SessionViews.UpdateSession | app/views/session_views.py:44-72 | 404 and no change for an unknown id; a username clash fails the commit with a 500 and no change; otherwise exactly that record becomes the patched record and is answered |
| SessionViews.Unlinked | app/views/session_views.py:83-84 | records that referred to the deleted session lose that reference; nothing else changes |
| SessionViews.UnlinkedEffect | app/views/session_views.py:83-84 | afterwards no record refers to the session; ids, profiles, posts and key uniqueness are kept |
| SessionViews.RemovedEffect | app/views/session_views.py:83-84 | removing the record keeps every other record and leaves none with its id |
| SessionViews.DeleteSession | app/views/session_views.py:75-85 | 404 and no change for an unknown id; otherwise exactly that record is removed and its posts are unlinked |
| PostViews.Summaries | app/views/post_views.py:14-19 | one summary per record, in order |
| PostViews.GetAllPosts | app/views/post_views.py:14-19 | 404 iff the table is empty; otherwise every record |
| PostViews.FindProfile | app/views/post_views.py:27-31 | the index of the first record of the profile, none iff no record has it |
| PostViews.GetProfile | app/views/post_views.py:23-53 | 422 for a limit below 1 or a negative offset; 404 iff no record has the profile; for the first such record a page iff its posts are stored, a 500 otherwise; the page carries the record's id, the total number of its posts, the echoed username, limit and offset, and has min(limit, max(0, total − offset)) posts forming the contiguous, order-preserving window starting at the offset |
| PostViews.ConsecutivePagesTile | app/views/post_views.py:44 | the page at offset o followed by the page at o + limit is the page of twice the limit at o |
| PostViews.RemovedPostEffect | app/views/post_views.py:65-66 | removing the record keeps every other record and leaves none with its id |
| PostViews.DeletePost | app/views/post_views.py:56-68 | 404 and no change for an unknown id; otherwise exactly that record is removed |
| PostViews.FetchErrorResponse | app/views/post_views.py:79-87 | the "no session" `ValueError` is the 400 "Error: No available session found"; the other construction failures the model distinguishes are 500s |
| PostViews.GetInstagramData | app/views/post_views.py:71-91 | a 400 exactly when the pool has no eligible session (nothing written); a 500 on any other construction failure, with only the login run's flags written; otherwise success with the profile's posts URL, after the session chosen last recorded one use and the arrived pages were written, whether or not every page arrived |
| Pagination.PaginateQueryset | app/pagination.py:6-10 | an absent limit is the page size and an absent offset 0; for non-negative values the result has min(limit, max(0, len − offset)) items and is the window starting at the offset |
| Pagination.DefaultsGiveFirstPage | app/pagination.py:6-10 | with no parameters the result is the first page_size items, the first ten with the default page size |
| Pagination.AdjacentPagesJoin | app/pagination.py:10 | adjacent pages concatenate to the page of the summed limit |
| Pagination.PagesVisitEveryItem | app/pagination.py:10 | requesting pages from an offset on, stepping the offset by the limit until it passes the end, collects every item from that offset on exactly once and in order |
| Pagination.GetPaginatedResponse | app/pagination.py:12-13 | the data is answered unchanged under `results` |
| Pagination.CustomDecoder | app/pagination.py:16-18 | decoding is the identity |
| HashtagFetcher.MediaErrorFor | scraper/hashtag.py:16-66 | for each combination of exception classes, the answer of the first matching except clause, with its exact texts: 401 LOGIN_REQUIRED, 401 CLIENT_LOGIN_REQUIRED, 429 RATE_LIMIT, 400 CLIENT_ERROR with the error text as message, 500 UNKNOWN_ERROR with the error text as details |
| HashtagFetcher.StatusByClass | scraper/hashtag.py:16-66 | each status in both directions: 401 iff a login class, 429 iff rate limit without a login class, 400 iff a plain client error, 500 iff none of the four classes |
| HashtagFetcher.LoginClassesWin | scraper/hashtag.py:16-35 | once a login class matches, further classes of the exception do not change the answer |
| HashtagFetcher.GetHashtagMedias | scraper/hashtag.py:11-66 | on success the client's list unchanged; otherwise the mapped error |
| HashtagFetcher.PassThrough | scraper/hashtag.py:68-82 | hashtag info and top posts are passed on, errors re-raised unchanged |
| HashtagViews.ViewsKeepOrder | app/views/hashtag_views.py:74-97 | shaping keeps the newest-first order and gives each post the address https://www.instagram.com/p/{code}/ |
| HashtagViews.ViewsPermute | app/views/hashtag_views.py:71-97 | shaping a rearrangement of the media gives a rearrangement of the posts |
| HashtagViews.SortNewestFirst | app/views/hashtag_views.py:71 | the array ends sorted by `taken_at`, newest first, and is a permutation of what it held |
| HashtagViews.InsertNewestFirst | app/views/hashtag_views.py:71 | one insertion step extends the sorted prefix by one item and keeps the items |
| HashtagViews.FailureResult | app/views/hashtag_views.py:100-173 | a challenge or login failure gives error_type challenge with phone-verification info; any other failure a plain error; both carry the hashtag and the error text |
| HashtagViews.IntendedUpdate | app/views/hashtag_views.py:104-158 | the update built for a challenge or login failure sets block and challenge, clears the temporary block and keeps the counter; for any other failure it sets only the temporary block and counts one more use; either way the session would leave the pool |
| HashtagViews.FetchHashtag | app/views/hashtag_views.py:62-173 | on success count = number of posts, posts newest first and a permutation of the shaped media, each with its address; on failure the failure's description |
| HashtagViews.StatusOf | app/views/hashtag_views.py:46-206 | 400 iff no session, 500 iff the thread pool refused, 401 iff every request failed (with or without a challenge) |
| HashtagViews.CodeOf | app/views/hashtag_views.py:46-206 | NO_SESSION, INSTAGRAM_CHALLENGE and ALL_REQUESTS_FAILED, each iff its failure; no code for the unhandled 500 |
| HashtagViews.Failures | app/views/hashtag_views.py:205 | one hashtag/error pair per result, in order |
| HashtagViews.Aggregate | app/views/hashtag_views.py:180-213 | all errors with a challenge: 401 INSTAGRAM_CHALLENGE with the first challenge's info; all errors without one: 401 ALL_REQUESTS_FAILED listing every pair; otherwise every result, with "partial_success" iff some result is an error and "success" iff none is |
| HashtagViews.SearchMultipleHashtags | app/views/hashtag_views.py:38-213 | 400 NO_SESSION before any request when no session is eligible; 500 for an empty tag list; otherwise one result per tag in request order, folded by `Aggregate`; the table is never changed |

## Left out

- Network calls of the platform client (login, probes, media pages, hashtag requests, challenge resolution, relogin, proxy and delays) are oracle parameters. Their effect on the client's settings is not modelled. The only exception is the settings clearing with device ids kept after a stale probe.
- Posts.DataFetcher.Login: after a stale probe, the settings are modelled as left by the clearing. The fresh login's own change to them is not modelled.
- Concurrency: the thread pool of the hashtag search is a sequential loop in request order. The thread-pool hop of the profile fetch and the module-global database handle are not modelled.
- Sleeps, clocks and formatting: `loading_time`, `create_at`, `taken_at_formatted` and the delays are left out. `taken_at` is an integer timestamp.
- Parsing: the phone-number extraction from a challenge's text is not modelled; the number is part of the exception value. Parsing a stored post list that is a JSON string is left out, since the column always holds a list or nothing. `int()` parsing of the paging query parameters is left out; they arrive as integers.
- HashtagViews.SortNewestFirst: states the order and the permutation but not the stability of Python's sort. Equal timestamps may come out in a different relative order.
- Exception texts: the 500 details of unhandled exceptions and of failed fetcher construction are not modelled as text. The first element of `AdmissionError` and the status of `HttpError` carry the status.
- Models.Store.SetFlag: models the flag setters the source calls but does not define; as written each call raises `AttributeError`, so a fetcher's construction fails at the first classified login failure, which the model does not reproduce.
- Posts.DataFetcher.Create: for a handler that raises, it states the flags written but not which failure handler raised; `Posts.DataFetcher.Login` states that.
- PostViews.FetchErrorResponse: the class of the exception a failure handler raises (from `relogin` or the challenge resolution) is not modelled. Such an exception that derives from `ValueError`, a client JSON decoding error for instance, would be answered with a 400 `Error: …` rather than the 500 the model gives every `HandlerFailed`.
- Models.GetBestSession: ties between equally used sessions are left open by the contract. The body breaks them by storage (rowid) order, which SQLite happens to produce for this query but SQL does not promise; `Posts.Rebound` and the login results inherit that choice.
- Models.Store.FillObject: does not promise key uniqueness afterwards, because the source does not check for an existing record of the new pair.
- Routing, the pydantic schemas, logging and the application wiring are not part of this model. The `/init-session/` route awaits the synchronous admission handler, and that await is not modelled; `SessionInit.SessionManager.InitSession` models the handler itself.
- The `amount_per_tag` and `amount` request sizes are passed to the platform and only shape its answer, so they are not modelled.

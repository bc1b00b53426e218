/** The endpoints over the stored posts: listing the records, one
    profile's posts page by page, deleting a record and starting a fetch. */
module PostViews {
  import opened Common
  import opened Platform
  import opened Models
  import opened Posts

  const NoPostsFound := HttpError(404, "No posts found")
  const ProfileNotFound := HttpError(404, "Profile not found")
  const PostNotFound := HttpError(404, "Post not found")

  /** The answer of a query parameter outside its declared range. */
  const InvalidQuery := HttpError(422, "Unprocessable Entity")

  /** A record as `get_all_posts` lists it (its timestamps are not
      modelled). */
  datatype PostSummary = PostSummary(id: int, profile: Option<string>)

  function Summaries(posts: seq<PostRecord>): (r: seq<PostSummary>)
    ensures |r| == |posts|
    ensures forall i :: 0 <= i < |posts| ==> r[i] == PostSummary(posts[i].id, posts[i].profile)
  {
    if |posts| == 0 then [] else [PostSummary(posts[0].id, posts[0].profile)] + Summaries(posts[1..])
  }

  /** `get_all_posts`: every record in storage order, or 404 when there is
      none. */
  function GetAllPosts(posts: seq<PostRecord>): (r: Result<seq<PostSummary>, HttpError>)
    ensures r.Err? <==> |posts| == 0
    ensures r.Err? ==> r.error == NoPostsFound
    ensures r.Ok? ==> r.value == Summaries(posts)
  {
    if |posts| == 0 then Err(NoPostsFound) else Ok(Summaries(posts))
  }

  /** One page of a profile's posts with the paging it was cut with. */
  datatype ProfilePage = ProfilePage(id: int, username: string, posts: seq<Post>, totalPosts: int, limit: int, offset: int)

  /** The first record of a profile, as `.filter(profile == ...).first()`. */
  function FindProfile(posts: seq<PostRecord>, profile: string): (r: Option<nat>)
    ensures r.None? <==> forall i :: 0 <= i < |posts| ==> posts[i].profile != Some(profile)
    ensures r.Some? ==> r.value < |posts| && posts[r.value].profile == Some(profile)
    ensures r.Some? ==> forall i :: 0 <= i < r.value ==> posts[i].profile != Some(profile)
  {
    FindFirst(posts, (p: PostRecord) => p.profile == Some(profile))
  }

  /** `get_profile`: the first record of the profile, its stored posts cut
      to `posts[offset:offset + limit]`. A limit below 1 or a negative
      offset is rejected before the handler runs; a record without stored
      posts cannot be sliced and ends in a 500. The page is the
      contiguous, order-preserving window of the stored posts starting at
      `offset`, of length `min(limit, total - offset)` and empty past the
      end. */
  function GetProfile(posts: seq<PostRecord>, profile: string, limit: int, offset: int): (r: Result<ProfilePage, HttpError>)
    ensures (limit < 1 || offset < 0) ==> r == Err(InvalidQuery)
    ensures limit >= 1 && offset >= 0 && FindProfile(posts, profile).None? ==> r == Err(ProfileNotFound)
    ensures limit >= 1 && offset >= 0 && FindProfile(posts, profile).Some? ==>
      var i := FindProfile(posts, profile).value;
      (r.Ok? <==> posts[i].jsonPosts.Some?) && (r.Err? ==> r.error == ServerError)
    ensures r.Ok? ==>
      var i := FindProfile(posts, profile).value;
      var all := posts[i].jsonPosts.value;
      r.value.id == posts[i].id && r.value.totalPosts == |all| &&
      r.value.username == profile && r.value.limit == limit && r.value.offset == offset &&
      |r.value.posts| == Min(limit, Max(0, |all| - offset)) &&
      (forall k :: 0 <= k < |r.value.posts| ==> r.value.posts[k] == all[offset + k])
  {
    if limit < 1 || offset < 0 then Err(InvalidQuery)
    else match FindProfile(posts, profile)
      case None => Err(ProfileNotFound)
      case Some(i) =>
        if posts[i].jsonPosts.None? then Err(ServerError)
        else
          var all := posts[i].jsonPosts.value;
          PySliceWindow(all, offset, offset + limit);
          Ok(ProfilePage(posts[i].id, profile, PySlice(all, offset, offset + limit), |all|, limit, offset))
  }

  /** Consecutive pages tile the stored posts: the page at `offset` followed
      by the page at `offset + limit` is the page of twice the size. */
  lemma ConsecutivePagesTile(posts: seq<PostRecord>, profile: string, limit: int, offset: int)
    requires GetProfile(posts, profile, limit, offset).Ok?
    ensures GetProfile(posts, profile, limit, offset + limit).Ok?
    ensures GetProfile(posts, profile, limit, offset).value.posts +
            GetProfile(posts, profile, limit, offset + limit).value.posts ==
            GetProfile(posts, profile, 2 * limit, offset).value.posts
  {
    var i := FindProfile(posts, profile).value;
    var all := posts[i].jsonPosts.value;
    assert GetProfile(posts, profile, limit, offset).value.posts == PySlice(all, offset, offset + limit);
    assert GetProfile(posts, profile, limit, offset + limit).value.posts == PySlice(all, offset + limit, offset + 2 * limit);
    assert GetProfile(posts, profile, 2 * limit, offset).value.posts == PySlice(all, offset, offset + 2 * limit);
    PySliceJoin(all, offset, offset + limit, offset + 2 * limit);
  }

  /** Removing the record at `i` keeps every other record in order, leaves
      no record with its id and keeps the keys unique. */
  lemma RemovedPostEffect(posts: seq<PostRecord>, i: nat)
    requires UniquePostIds(posts) && PostKeysUnique(posts) && i < |posts|
    ensures var r := posts[..i] + posts[i + 1..];
      UniquePostIds(r) && PostKeysUnique(r) && |r| == |posts| - 1 &&
      FindPostById(r, posts[i].id).None? &&
      (forall j :: 0 <= j < |posts| && j != i ==> posts[j] in r)
  {
    RemoveAt(posts, i);
  }

  /** `delete_post`: 404 for an unknown id; otherwise exactly that record
      is removed. The sessions are untouched. */
  method DeletePost(db: Store, id: int) returns (r: Result<string, HttpError>)
    requires db.Valid()
    modifies db
    ensures db.Valid() && db.sessions == old(db.sessions)
    ensures FindPostById(old(db.posts), id).None? ==>
      r == Err(PostNotFound) && db.posts == old(db.posts)
    ensures FindPostById(old(db.posts), id).Some? ==>
      var i := FindPostById(old(db.posts), id).value;
      r == Ok("Post deleted successfully") && db.posts == old(db.posts)[..i] + old(db.posts)[i + 1..]
  {
    var found := FindPostById(db.posts, id);
    if found.None? {
      return Err(PostNotFound);
    }
    var i := found.value;
    RemovedPostEffect(db.posts, i);
    db.posts := db.posts[..i] + db.posts[i + 1..];
    return Ok("Post deleted successfully");
  }

  /** What `get_instagram_data` answers once the fetch has run. */
  datatype FetchAccepted = FetchAccepted(status: string, url: string)

  /** The answer to a failed construction of the fetcher: the `ValueError`
      of an empty pool is a 400, the other failures the model tells apart
      are 500s. */
  function FetchErrorResponse(e: InitError): (r: HttpError)
    ensures r.status == 400 <==> e == NoSessionFound
    ensures r.status == 400 || r.status == 500
  {
    match e
    case NoSessionFound => HttpError(400, "Error: No available session found")
    case _ => HttpError(500, "An unexpected error occurred")
  }

  /** `get_instagram_data`: run a fetch for `username` and answer with the
      address of its stored posts. `trail` is the login run's flags and
      `sid` the session the fetch ran on. */
  method GetInstagramData(db: Store, username: string, platform: nat -> Attempt, src: ProfileSource)
    returns (r: Result<FetchAccepted, HttpError>, ghost trail: seq<Flagging>, ghost sid: int)
    requires db.Valid()
    modifies db
    ensures db.Valid() && TrailMatches(platform, trail)
    ensures r.Err? ==> r.error.status == 400 || r.error.status == 500
    ensures (r.Err? && r.error.status == 400) <==> GetBestSession(old(db.sessions)).None?
    ensures r.Err? && r.error.status == 400 ==>
      r.error.detail == "Error: No available session found" && trail == []
    ensures GetBestSession(old(db.sessions)).Some? ==>
      FollowsSelection(old(db.sessions), GetBestSession(old(db.sessions)).value.id, trail)
    ensures r.Err? ==> db.sessions == ApplyTrail(old(db.sessions), trail) && db.posts == old(db.posts)
    ensures r.Ok? ==>
      r.value == FetchAccepted("success", "http://127.0.0.1:8000/posts/" + username) &&
      Rebound(old(db.sessions), GetBestSession(old(db.sessions)).value.id, trail) == Some(sid)
    ensures r.Ok? && src.mediaCount.None? ==>
      db.sessions == ApplyTrail(old(db.sessions), trail) && db.posts == old(db.posts)
    ensures r.Ok? && src.mediaCount.Some? ==>
      db.sessions == ChangeRows(ApplyTrail(old(db.sessions), trail), sid, Bump) &&
      db.posts == PersistPages(old(db.posts), username, sid, src, PagesFetched(src, PageCount(src.mediaCount.value)))
  {
    var outcome;
    ghost var ok;
    outcome, ok, trail, sid := FetchInstagramData(db, username, platform, src);
    if outcome.Err? {
      return Err(FetchErrorResponse(outcome.error)), trail, sid;
    }
    return Ok(FetchAccepted("success", "http://127.0.0.1:8000/posts/" + username)), trail, sid;
  }
}

/** The multi-hashtag search endpoint: with the best session of the pool,
    the recent media of every requested hashtag are read, each tag's
    outcome is shaped into a result (newest media first, or an error
    description), and the results are folded into one answer. */
module HashtagViews {
  import opened Common
  import opened Platform
  import opened Models

  datatype SearchRequest = SearchRequest(hashtags: seq<string>, amountPerTag: Option<int>)

  datatype UserView = UserView(pk: string, username: string, fullName: string, profilePicUrl: string)

  /** One media item as the search answers it. */
  datatype PostView = PostView(
    id: string,
    code: string,
    takenAt: int,
    mediaType: int,
    thumbnailUrl: string,
    captionText: string,
    likeCount: int,
    commentCount: int,
    user: UserView,
    url: string)

  /** The public address of a media item. */
  function PostUrl(code: string): string
  {
    "https://www.instagram.com/p/" + code + "/"
  }

  function ViewOf(m: Media): PostView
  {
    PostView(m.id, m.code, m.takenAt, m.mediaType, UrlText(m.thumbnailUrl), m.captionText,
      m.likeCount, m.commentCount,
      UserView(m.user.pk, m.user.username, m.user.fullName, UrlText(m.user.profilePicUrl)),
      PostUrl(m.code))
  }

  function ViewsOf(ms: seq<Media>): (vs: seq<PostView>)
    ensures |vs| == |ms|
    ensures forall i :: 0 <= i < |ms| ==> vs[i] == ViewOf(ms[i])
  {
    seq(|ms|, i requires 0 <= i < |ms| => ViewOf(ms[i]))
  }

  predicate NewestFirst(ms: seq<Media>)
  {
    forall i, j :: 0 <= i < j < |ms| ==> ms[i].takenAt >= ms[j].takenAt
  }

  predicate ViewsNewestFirst(vs: seq<PostView>)
  {
    forall i, j :: 0 <= i < j < |vs| ==> vs[i].takenAt >= vs[j].takenAt
  }

  /** Shaping keeps the order by timestamp and gives every post its
      address. */
  lemma ViewsKeepOrder(ms: seq<Media>)
    requires NewestFirst(ms)
    ensures ViewsNewestFirst(ViewsOf(ms))
    ensures forall i :: 0 <= i < |ms| ==> ViewsOf(ms)[i].url == PostUrl(ViewsOf(ms)[i].code)
  {
    var vs := ViewsOf(ms);
    assert forall i :: 0 <= i < |ms| ==> vs[i].takenAt == ms[i].takenAt;
  }

  lemma ViewsOfConcat(a: seq<Media>, b: seq<Media>)
    ensures ViewsOf(a + b) == ViewsOf(a) + ViewsOf(b)
  {
    assert |ViewsOf(a + b)| == |ViewsOf(a) + ViewsOf(b)|;
    forall i | 0 <= i < |a + b|
      ensures ViewsOf(a + b)[i] == (ViewsOf(a) + ViewsOf(b))[i]
    {
      if i >= |a| {
        assert (a + b)[i] == b[i - |a|];
      }
    }
  }

  /** Shaping two arrangements of the same media gives two arrangements of
      the same posts. */
  lemma {:induction false} ViewsPermute(a: seq<Media>, b: seq<Media>)
    requires multiset(a) == multiset(b)
    ensures multiset(ViewsOf(a)) == multiset(ViewsOf(b))
    decreases |a|
  {
    if |a| == 0 {
      assert |b| == |multiset(b)| == 0;
    } else {
      var x := a[0];
      assert x in multiset(b);
      var k :| 0 <= k < |b| && b[k] == x;
      var rest := b[..k] + b[k + 1..];
      assert b == b[..k] + [x] + b[k + 1..];
      assert a == [x] + a[1..];
      assert multiset(b) == multiset(b[..k]) + multiset([x]) + multiset(b[k + 1..]);
      assert multiset(a) == multiset([x]) + multiset(a[1..]);
      assert multiset(rest) == multiset(b[..k]) + multiset(b[k + 1..]);
      assert multiset(a[1..]) == multiset(a) - multiset([x]);
      assert multiset(rest) == multiset(b) - multiset([x]);
      ViewsPermute(a[1..], rest);
      ViewsOfConcat([x], a[1..]);
      ViewsOfConcat(b[..k], b[k + 1..]);
      ViewsOfConcat(b[..k] + [x], b[k + 1..]);
      ViewsOfConcat(b[..k], [x]);
    }
  }

  /** `medias.sort(key=taken_at, reverse=True)`, in place: an insertion
      sort that moves each item left past the older ones. */
  method SortNewestFirst(a: array<Media>)
    modifies a
    ensures NewestFirst(a[..])
    ensures multiset(a[..]) == multiset(old(a[..]))
  {
    for i := 0 to a.Length
      invariant NewestFirst(a[..i])
      invariant multiset(a[..]) == multiset(old(a[..]))
    {
      InsertNewestFirst(a, i);
    }
    assert a[..a.Length] == a[..];
  }

  /** The state of an insertion step: `s[..i + 1]` is ordered except for
      the item at `j` being moved, which is newer than everything after
      it, and its neighbours are in order with each other. */
  predicate Inserting(s: seq<Media>, i: nat, j: nat)
  {
    j <= i < |s| &&
    (forall k, l :: 0 <= k < l <= i && k != j && l != j ==> s[k].takenAt >= s[l].takenAt) &&
    (forall l :: j < l <= i ==> s[j].takenAt > s[l].takenAt) &&
    (0 < j < i ==> s[j - 1].takenAt >= s[j + 1].takenAt)
  }

  lemma InsertingStarts(s: seq<Media>, i: nat)
    requires i < |s| && NewestFirst(s[..i])
    ensures Inserting(s, i, i)
  {
    assert forall k, l :: 0 <= k < l < i ==> s[..i][k] == s[k] && s[..i][l] == s[l];
  }

  /** Moving the item one place left keeps the state and the items. */
  lemma InsertingSwap(s: seq<Media>, i: nat, j: nat)
    requires Inserting(s, i, j) && 0 < j && s[j - 1].takenAt < s[j].takenAt
    ensures Inserting(s[j - 1 := s[j]][j := s[j - 1]], i, j - 1)
    ensures multiset(s[j - 1 := s[j]][j := s[j - 1]]) == multiset(s)
  {
  }

  /** Once the item is at the front or behind a newer one, the prefix is
      ordered. */
  lemma InsertingEnds(s: seq<Media>, i: nat, j: nat)
    requires Inserting(s, i, j) && (j == 0 || s[j - 1].takenAt >= s[j].takenAt)
    ensures NewestFirst(s[..i + 1])
  {
    forall k, l | 0 <= k < l <= i
      ensures s[k].takenAt >= s[l].takenAt
    {
      if l == j {
        assert s[k].takenAt >= s[j - 1].takenAt || k == j - 1;
      } else if k == j && j < i {
        assert s[j].takenAt > s[l].takenAt;
      }
    }
  }

  /** One insertion step: with `a[..i]` ordered, `a[..i + 1]` becomes
      ordered. */
  method InsertNewestFirst(a: array<Media>, i: nat)
    requires i < a.Length && NewestFirst(a[..i])
    modifies a
    ensures NewestFirst(a[..i + 1])
    ensures multiset(a[..]) == multiset(old(a[..]))
  {
    var j: nat := i;
    InsertingStarts(a[..], i);
    while j > 0 && a[j - 1].takenAt < a[j].takenAt
      invariant Inserting(a[..], i, j)
      invariant multiset(a[..]) == multiset(old(a[..]))
    {
      ghost var s := a[..];
      InsertingSwap(s, i, j);
      a[j - 1], a[j] := a[j], a[j - 1];
      assert a[..] == s[j - 1 := s[j]][j := s[j - 1]];
      j := j - 1;
    }
    InsertingEnds(a[..], i, j);
  }

  /** What the handler answers to the phone verification a challenge asks
      for. */
  datatype ChallengeInfo = ChallengeInfo(kind: string, phoneNumber: Option<string>, message: string)

  /** The result of one hashtag. */
  datatype TagResult =
    | TagSuccess(hashtag: string, count: int, posts: seq<PostView>)
    | TagChallenge(hashtag: string, error: string, info: ChallengeInfo)
    | TagError(hashtag: string, error: string)

  /** The request failed because the account must log in again or pass a
      challenge. */
  predicate IsChallenge(e: ClientException)
  {
    ChallengeRequiredError in e.classes || LoginRequiredError in e.classes
  }

  /** The result of a hashtag whose request raised `e`. */
  function FailureResult(tag: string, e: ClientException): (r: TagResult)
    ensures r.hashtag == tag && !r.TagSuccess? && r.error == e.text
    ensures r.TagChallenge? <==> IsChallenge(e)
    ensures r.TagChallenge? ==>
      r.info == ChallengeInfo("phone_verification", e.phoneNumber, "Please verify your account through SMS")
  {
    if IsChallenge(e) then
      TagChallenge(tag, e.text, ChallengeInfo("phone_verification", e.phoneNumber, "Please verify your account through SMS"))
    else TagError(tag, e.text)
  }

  /** The session record the handler means to write after a failed
      request: a challenge or login failure marks it blocked and
      challenged (clearing the temporary block) and keeps its counter; any
      other failure marks it temporarily blocked and counts one more use.
      Either way the record would leave the pool. */
  function IntendedUpdate(s: Session, e: ClientException): (r: Session)
    ensures r.id == s.id && r.username == s.username && r.password == s.password && r.sessionData == s.sessionData
    ensures !Eligible(r)
    ensures IsChallenge(e) ==> r.isBlock && r.isChallenge && !r.isTempBlock && r.numberOfUse == s.numberOfUse
    ensures !IsChallenge(e) ==> !r.isBlock && !r.isChallenge && r.isTempBlock && r.numberOfUse == s.numberOfUse + 1
  {
    if IsChallenge(e) then s.(isBlock := true, isChallenge := true, isTempBlock := false)
    else s.(isBlock := false, isChallenge := false, isTempBlock := true, numberOfUse := s.numberOfUse + 1)
  }

  /** What a tag's result says about the outcome of its request: on
      success the count and every media item, newest first, each with its
      address; on failure the error description of `FailureResult`. */
  predicate Describes(t: TagResult, tag: string, outcome: Result<seq<Media>, ClientException>)
  {
    match outcome
    case Ok(ms) =>
      t.TagSuccess? && t.hashtag == tag && t.count == |ms| == |t.posts| &&
      ViewsNewestFirst(t.posts) && multiset(t.posts) == multiset(ViewsOf(ms)) &&
      (forall i :: 0 <= i < |t.posts| ==> t.posts[i].url == PostUrl(t.posts[i].code))
    case Err(e) => t == FailureResult(tag, e)
  }

  /** `fetch_hashtag`: the media of one hashtag sorted newest first and
      shaped, or the description of the failure. The session update the
      failure branches attempt names a table class the module never
      imports, so it raises, is caught and rolled back: it has no effect. */
  method FetchHashtag(tag: string, outcome: Result<seq<Media>, ClientException>) returns (r: TagResult)
    ensures Describes(r, tag, outcome)
  {
    match outcome {
      case Ok(ms) =>
        var a := new Media[|ms|](i requires 0 <= i < |ms| => ms[i]);
        assert a[..] == ms;
        SortNewestFirst(a);
        var sorted := a[..];
        ViewsPermute(sorted, ms);
        ViewsKeepOrder(sorted);
        r := TagSuccess(tag, |sorted|, ViewsOf(sorted));
      case Err(e) =>
        r := FailureResult(tag, e);
    }
  }

  /** One failed hashtag as the all-failed answer lists it. */
  datatype TagFailure = TagFailure(hashtag: string, error: string)

  /** How the search as a whole fails. */
  datatype SearchError =
    | NoSession
    | ExecutorRefused
    | InstagramChallenge(info: ChallengeInfo)
    | AllRequestsFailed(errors: seq<TagFailure>)

  /** The HTTP status of each failure: no session is the client's fault, a
      thread pool refusing zero workers is an unhandled `ValueError`, and
      both all-failed answers are 401. */
  function StatusOf(e: SearchError): (status: int)
    ensures status == 400 <==> e.NoSession?
    ensures status == 500 <==> e.ExecutorRefused?
    ensures status == 401 <==> (e.InstagramChallenge? || e.AllRequestsFailed?)
  {
    match e
    case NoSession => 400
    case ExecutorRefused => 500
    case InstagramChallenge(_) => 401
    case AllRequestsFailed(_) => 401
  }

  /** The `code` of each failure's detail; the unhandled 500 has none. */
  function CodeOf(e: SearchError): (code: string)
    ensures code == "NO_SESSION" <==> e.NoSession?
    ensures code == "" <==> e.ExecutorRefused?
    ensures code == "INSTAGRAM_CHALLENGE" <==> e.InstagramChallenge?
    ensures code == "ALL_REQUESTS_FAILED" <==> e.AllRequestsFailed?
  {
    match e
    case NoSession => "NO_SESSION"
    case ExecutorRefused => ""
    case InstagramChallenge(_) => "INSTAGRAM_CHALLENGE"
    case AllRequestsFailed(_) => "ALL_REQUESTS_FAILED"
  }

  datatype SearchResponse = SearchResponse(status: string, results: seq<TagResult>)

  function Failures(results: seq<TagResult>): (r: seq<TagFailure>)
    requires forall i :: 0 <= i < |results| ==> !results[i].TagSuccess?
    ensures |r| == |results|
    ensures forall i :: 0 <= i < |results| ==> r[i] == TagFailure(results[i].hashtag, results[i].error)
  {
    seq(|results|, i requires 0 <= i < |results| => TagFailure(results[i].hashtag, results[i].error))
  }

  /** The fold of the results. When every result is an error the search
      fails: with the first challenge's information when there is a
      challenge, otherwise listing every hashtag with its error. Otherwise
      all results are answered, as a partial success when some failed. */
  function Aggregate(results: seq<TagResult>): (r: Result<SearchResponse, SearchError>)
    ensures r.Ok? <==> exists i :: 0 <= i < |results| && results[i].TagSuccess?
    ensures r.Ok? ==> r.value.results == results
    ensures r.Ok? ==> (r.value.status == "success" <==> forall i :: 0 <= i < |results| ==> results[i].TagSuccess?)
    ensures r.Ok? ==> (r.value.status == "partial_success" <==> exists i :: 0 <= i < |results| && !results[i].TagSuccess?)
    ensures r.Err? ==> (r.error.InstagramChallenge? <==> exists i :: 0 <= i < |results| && results[i].TagChallenge?)
    ensures r.Err? ==> r.error.InstagramChallenge? || r.error.AllRequestsFailed?
    ensures r.Err? && r.error.InstagramChallenge? ==>
      exists i :: 0 <= i < |results| && results[i].TagChallenge? && r.error.info == results[i].info &&
        forall j :: 0 <= j < i ==> !results[j].TagChallenge?
    ensures r.Err? && r.error.AllRequestsFailed? ==>
      |r.error.errors| == |results| &&
      forall i :: 0 <= i < |results| ==> r.error.errors[i] == TagFailure(results[i].hashtag, results[i].error)
  {
    match FindFirst(results, (t: TagResult) => t.TagSuccess?)
    case None =>
      (match FindFirst(results, (t: TagResult) => t.TagChallenge?)
       case Some(i) => Err(InstagramChallenge(results[i].info))
       case None => Err(AllRequestsFailed(Failures(results))))
    case Some(_) =>
      var anyError := FindFirst(results, (t: TagResult) => !t.TagSuccess?).Some?;
      Ok(SearchResponse(if anyError then "partial_success" else "success", results))
  }

  /** `search_multiple_hashtags`: 400 before any request when the pool has
      no session; a 500 for an empty hashtag list, whose thread pool would
      have no worker; otherwise every hashtag is read in request order and
      the results are folded. The session table is never changed. */
  method SearchMultipleHashtags(db: Store, req: SearchRequest, outcome: nat -> Result<seq<Media>, ClientException>)
    returns (results: seq<TagResult>, r: Result<SearchResponse, SearchError>)
    ensures GetBestSession(db.sessions).None? ==> r == Err(NoSession) && results == []
    ensures GetBestSession(db.sessions).Some? && |req.hashtags| == 0 ==> r == Err(ExecutorRefused) && results == []
    ensures GetBestSession(db.sessions).Some? && |req.hashtags| > 0 ==>
      |results| == |req.hashtags| &&
      (forall i :: 0 <= i < |results| ==> Describes(results[i], req.hashtags[i], outcome(i))) &&
      r == Aggregate(results)
  {
    var session := GetBestSession(db.sessions);
    if session.None? {
      return [], Err(NoSession);
    }
    if |req.hashtags| == 0 {
      return [], Err(ExecutorRefused);
    }
    results := [];
    for i := 0 to |req.hashtags|
      invariant |results| == i
      invariant forall k :: 0 <= k < i ==> Describes(results[k], req.hashtags[k], outcome(k))
    {
      var t := FetchHashtag(req.hashtags[i], outcome(i));
      results := results + [t];
    }
    r := Aggregate(results);
  }
}

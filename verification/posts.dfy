/** The profile fetch: choosing a session from the pool, logging in with
    it (and, on each classified failure, flagging it and moving on to the
    next best session), then walking the profile's media pages and writing
    the normalised posts to the profile's record. */
module Posts {
  import opened Common
  import opened Platform
  import opened Models

  /** Page size requested from the platform and subtracted from the
      remaining media count on every page. */
  const ItemsPerPage := 20

  // ---------------------------------------------------------------------
  // Normalisation of fetched media

  function NormalizeImage(r: Resource): Image
  {
    Image(UrlText(if r.mediaType == 1 then r.thumbnailUrl else r.videoUrl), UrlText(r.videoUrl))
  }

  /** The stored form of one media item. Each image entry shows the
      resource's thumbnail for a photo (media type 1) and its video URL
      otherwise. */
  function NormalizePost(m: Media): (p: Post)
    ensures p.caption == m.captionText && p.likes == m.likeCount && p.comments == m.commentCount
    ensures p.reels == UrlText(m.videoUrl) && p.kind == m.mediaType
    ensures |p.imgs| == |m.resources|
    ensures forall k :: 0 <= k < |m.resources| ==>
      p.imgs[k].videoUrl == UrlText(m.resources[k].videoUrl) &&
      (m.resources[k].mediaType == 1 ==> p.imgs[k].thumbnailUrl == UrlText(m.resources[k].thumbnailUrl)) &&
      (m.resources[k].mediaType != 1 ==> p.imgs[k].thumbnailUrl == UrlText(m.resources[k].videoUrl))
  {
    Post(m.captionText, m.likeCount, m.commentCount, UrlText(m.videoUrl), m.mediaType,
         seq(|m.resources|, k requires 0 <= k < |m.resources| => NormalizeImage(m.resources[k])))
  }

  function NormalizeAll(ms: seq<Media>): (ps: seq<Post>)
    ensures |ps| == |ms|
    ensures forall k :: 0 <= k < |ms| ==> ps[k] == NormalizePost(ms[k])
  {
    seq(|ms|, k requires 0 <= k < |ms| => NormalizePost(ms[k]))
  }

  // ---------------------------------------------------------------------
  // The profile's record

  /** The record `get_or_create_insta_post` inserts: no posts yet. */
  function CreatedRecord(posts: seq<PostRecord>, profile: string, sid: int): PostRecord
  {
    PostRecord(NextPostId(posts), Some(sid), None, Some(profile))
  }

  predicate IsKey(p: PostRecord, profile: string, sid: int)
  {
    p.profile == Some(profile) && p.sessionId == Some(sid)
  }

  /** The posts table after `get_or_create_insta_post(profile, sid)`. */
  function GetOrCreate(posts: seq<PostRecord>, profile: string, sid: int): (r: seq<PostRecord>)
    ensures FindPost(posts, profile, sid).Some? ==> r == posts
    ensures FindPost(posts, profile, sid).None? ==> r == posts + [CreatedRecord(posts, profile, sid)]
    ensures FindPost(r, profile, sid).Some?
    ensures UniquePostIds(posts) ==> UniquePostIds(r)
    ensures PostKeysUnique(posts) ==> PostKeysUnique(r)
  {
    if FindPost(posts, profile, sid).Some? then posts
    else
      var r := posts + [CreatedRecord(posts, profile, sid)];
      assert IsKey(r[|posts|], profile, sid);
      r
  }

  /** `get_or_create_insta_post`: returns the first record of (`profile`,
      `sid`) unmodified, or inserts one; `created` tells which. */
  method GetOrCreateInstaPost(db: Store, profile: string, sid: int) returns (idx: nat, created: bool)
    requires db.Valid()
    modifies db
    ensures db.Valid() && db.sessions == old(db.sessions)
    ensures created <==> FindPost(old(db.posts), profile, sid).None?
    ensures db.posts == GetOrCreate(old(db.posts), profile, sid)
    ensures FindPost(db.posts, profile, sid) == Some(idx)
  {
    var found := FindPost(db.posts, profile, sid);
    if found.None? {
      db.posts := db.posts + [CreatedRecord(db.posts, profile, sid)];
      idx, created := |db.posts| - 1, true;
    } else {
      idx, created := found.value, false;
    }
  }

  /** What one page of `fetch_posts` leaves in the posts table once
      `all` holds every post fetched so far. When the record is created on
      this page its posts are not written: the write sits in the branch for
      a record that already existed. */
  function WritePage(posts: seq<PostRecord>, profile: string, sid: int, all: seq<Post>): seq<PostRecord>
  {
    match FindPost(posts, profile, sid)
    case None => posts + [CreatedRecord(posts, profile, sid)]
    case Some(i) => posts[i := posts[i].(jsonPosts := Some(all))]
  }

  /** After one page the record of the pair exists; it holds exactly `all`
      when it existed before the page and is still empty when the page
      created it. No other record changes, and the table's keys stay unique. */
  lemma WritePageEffect(posts: seq<PostRecord>, profile: string, sid: int, all: seq<Post>)
    requires UniquePostIds(posts) && PostKeysUnique(posts)
    ensures var r := WritePage(posts, profile, sid, all);
      UniquePostIds(r) && PostKeysUnique(r) &&
      FindPost(r, profile, sid).Some? &&
      r[FindPost(r, profile, sid).value].jsonPosts == (if FindPost(posts, profile, sid).Some? then Some(all) else None) &&
      |posts| <= |r| <= |posts| + 1 &&
      (forall k :: 0 <= k < |posts| && !IsKey(posts[k], profile, sid) ==> r[k] == posts[k])
  {
    var r := WritePage(posts, profile, sid, all);
    match FindPost(posts, profile, sid)
    case None =>
      assert IsKey(r[|posts|], profile, sid);
    case Some(i) =>
      assert IsKey(r[i], profile, sid);
      assert forall k :: 0 <= k < i ==> r[k] == posts[k];
      assert FindPost(r, profile, sid) == Some(i);
      forall k | 0 <= k < |posts| && !IsKey(posts[k], profile, sid)
        ensures r[k] == posts[k]
      {
        assert k != i;
      }
  }

  // ---------------------------------------------------------------------
  // The page walk

  /** What the platform answers for one profile: its media count (none when
      the profile lookups raise) and, for each page index, the page's media
      (none when that page's request raises). */
  datatype ProfileSource = ProfileSource(mediaCount: Option<int>, page: nat -> Option<seq<Media>>)

  /** Number of pages the loop requests for a media count: the count is
      reduced by `ItemsPerPage` per page while it stays positive. */
  function PageCount(mediaCount: int): nat
  {
    if mediaCount <= 0 then 0 else (mediaCount + ItemsPerPage - 1) / ItemsPerPage
  }

  /** The page count is the ceiling of `mediaCount / 20`, and zero for a
      count that is not positive. */
  lemma PageCountIsCeiling(mediaCount: int)
    ensures PageCount(mediaCount) == 0 <==> mediaCount <= 0
    ensures mediaCount > 0 ==>
      ItemsPerPage * (PageCount(mediaCount) - 1) < mediaCount <= ItemsPerPage * PageCount(mediaCount)
  {
  }

  /** The loop's remaining count stays positive exactly while fewer than
      `PageCount` pages have been requested. */
  lemma RemainingPositive(mediaCount: int, page: nat)
    ensures mediaCount - ItemsPerPage * page > 0 <==> page < PageCount(mediaCount)
  {
    if mediaCount > 0 {
      var n := PageCount(mediaCount);
      assert ItemsPerPage * (n - 1) < mediaCount <= ItemsPerPage * n;
      if page < n {
        assert ItemsPerPage * page <= ItemsPerPage * (n - 1);
      } else {
        assert ItemsPerPage * n <= ItemsPerPage * page;
      }
    }
  }

  /** Every one of the first `k` pages arrived. */
  predicate Arrived(src: ProfileSource, k: nat)
  {
    forall i :: 0 <= i < k ==> src.page(i).Some?
  }

  lemma ArrivedNext(src: ProfileSource, k: nat)
    requires Arrived(src, k) && src.page(k).Some?
    ensures Arrived(src, k + 1)
  {
  }

  /** How many of the first `n` pages are fetched before one raises. */
  function PagesFetched(src: ProfileSource, n: nat): (k: nat)
    ensures k <= n
    ensures Arrived(src, k)
    ensures k < n ==> src.page(k).None?
  {
    if n == 0 then 0
    else
      var k := PagesFetched(src, n - 1);
      if k == n - 1 && src.page(n - 1).Some? then n else k
  }

  /** The posts of the first `k` pages, in page order. */
  function PostsOfPages(src: ProfileSource, k: nat): seq<Post>
    requires Arrived(src, k)
  {
    if k == 0 then [] else PostsOfPages(src, k - 1) + NormalizeAll(src.page(k - 1).value)
  }

  /** The posts table after the first `k` pages have been written. */
  function PersistPages(posts: seq<PostRecord>, profile: string, sid: int, src: ProfileSource, k: nat): seq<PostRecord>
    requires Arrived(src, k)
  {
    if k == 0 then posts
    else WritePage(PersistPages(posts, profile, sid, src, k - 1), profile, sid, PostsOfPages(src, k))
  }

  /** After `k >= 1` pages exactly one record of the pair exists. Its posts
      are replaced by everything fetched in this run (earlier content is
      not merged in), except on a first fetch of a single page, which
      leaves the freshly created record without posts. Records of other
      pairs are untouched and the keys stay unique. */
  lemma {:induction false} PersistPagesEffect(posts: seq<PostRecord>, profile: string, sid: int, src: ProfileSource, k: nat)
    requires UniquePostIds(posts) && PostKeysUnique(posts)
    requires Arrived(src, k)
    ensures var r := PersistPages(posts, profile, sid, src, k);
      UniquePostIds(r) && PostKeysUnique(r) &&
      |posts| <= |r| <= |posts| + 1 &&
      (forall j :: 0 <= j < |posts| && !IsKey(posts[j], profile, sid) ==> r[j] == posts[j]) &&
      (k >= 1 ==>
        FindPost(r, profile, sid).Some? &&
        r[FindPost(r, profile, sid).value].jsonPosts ==
          (if FindPost(posts, profile, sid).Some? || k >= 2 then Some(PostsOfPages(src, k)) else None))
  {
    if k > 0 {
      var prev := PersistPages(posts, profile, sid, src, k - 1);
      PersistPagesEffect(posts, profile, sid, src, k - 1);
      WritePageEffect(prev, profile, sid, PostsOfPages(src, k));
      if k == 1 {
        assert prev == posts;
      }
    }
  }

  /** With every earlier page fetched and page `k` failing (or `k == n`),
      `k` is the number of pages fetched. */
  lemma PagesFetchedAt(src: ProfileSource, n: nat, k: nat)
    requires k <= n
    requires Arrived(src, k)
    requires k < n ==> src.page(k).None?
    ensures PagesFetched(src, n) == k
  {
  }

  // ---------------------------------------------------------------------
  // Login

  /** The failure classes the login flow tells apart. A feedback failure
      carries the platform's feedback message, absent when the last
      response has none. */
  datatype Failure =
    | LoginRequired
    | ChallengeRequired
    | FeedbackRequired(message: Option<string>)
    | PleaseWaitFewMinutes
    | Unclassified

  /** Outcome of one client call. */
  datatype Call = Succeeded | Raised(failure: Failure)

  /** Outcome of the one automatic challenge resolution: it succeeds, or
      raises one of the three classes the handler catches, or raises
      anything else. */
  datatype Resolution = Resolved | StillRequired | ContactPointForm | RecaptchaForm | ResolveFailed

  /** What the platform does during one login attempt: the password login,
      the liveness probe after it, the fresh login after a stale probe, the
      client's `relogin` in the login-required handler and the challenge
      resolution in the challenge handler. */
  datatype Attempt = Attempt(login: Call, probe: Call, freshLogin: Call, relogin: bool, resolution: Resolution)

  /** The attempt found the session stale and logged in again. */
  predicate StaleProbe(a: Attempt)
  {
    a.login.Succeeded? && a.probe == Raised(LoginRequired)
  }

  /** The failure an attempt ends with, none when it logs in. */
  function AttemptFailure(a: Attempt): (r: Option<Failure>)
    ensures r.None? <==>
      a.login.Succeeded? && (a.probe.Succeeded? || (a.probe == Raised(LoginRequired) && a.freshLogin.Succeeded?))
    ensures a.login.Raised? ==> r == Some(a.login.failure)
    ensures a.login.Succeeded? && a.probe.Raised? && a.probe.failure != LoginRequired ==> r == Some(a.probe.failure)
    ensures StaleProbe(a) && a.freshLogin.Raised? ==> r == Some(a.freshLogin.failure)
  {
    if a.login.Raised? then Some(a.login.failure)
    else if a.probe.Succeeded? then None
    else if a.probe.failure == LoginRequired then
      (if a.freshLogin.Succeeded? then None else Some(a.freshLogin.failure))
    else Some(a.probe.failure)
  }

  /** The flag each failure class raises on the current session. */
  function FlagFor(f: Failure): (flag: Flag)
    ensures flag == Challenge <==> (f == LoginRequired || f == ChallengeRequired)
    ensures flag == TempBlock <==> (f.FeedbackRequired? || f == PleaseWaitFewMinutes)
    ensures flag == Block <==> f == Unclassified
  {
    match f
    case LoginRequired => Challenge
    case ChallengeRequired => Challenge
    case FeedbackRequired(_) => TempBlock
    case PleaseWaitFewMinutes => TempBlock
    case Unclassified => Block
  }

  /** The failure handler itself raises before flagging: `relogin` fails,
      the resolution raises a class the handler does not catch, or there
      is no feedback message to inspect. */
  predicate HandlerRaises(f: Failure, a: Attempt)
  {
    (f == LoginRequired && !a.relogin) ||
    (f == ChallengeRequired && a.resolution == ResolveFailed) ||
    (f.FeedbackRequired? && f.message.None?)
  }

  datatype LoginEnd = Ready | Escaped | NoSessionLeft

  /** One flag raised by the login flow on one session. */
  datatype Flagging = Flagging(sessionId: int, flag: Flag)

  function ApplyTrail(rows: seq<Session>, trail: seq<Flagging>): seq<Session>
  {
    if |trail| == 0 then rows
    else
      var last := trail[|trail| - 1];
      ChangeRows(ApplyTrail(rows, trail[..|trail| - 1]), last.sessionId, Raise(last.flag))
  }

  /** The `k`-th flag of the trail is the one the `k`-th attempt's
      failure calls for, and that failure's handler went through. */
  predicate TrailMatches(platform: nat -> Attempt, trail: seq<Flagging>)
  {
    forall k :: 0 <= k < |trail| ==>
      AttemptFailure(platform(k)).Some? && !HandlerRaises(AttemptFailure(platform(k)).value, platform(k)) &&
      trail[k].flag == FlagFor(AttemptFailure(platform(k)).value)
  }

  lemma TrailExtend(platform: nat -> Attempt, trail: seq<Flagging>, x: Flagging)
    requires TrailMatches(platform, trail)
    requires AttemptFailure(platform(|trail|)).Some?
    requires !HandlerRaises(AttemptFailure(platform(|trail|)).value, platform(|trail|))
    requires x.flag == FlagFor(AttemptFailure(platform(|trail|)).value)
    ensures TrailMatches(platform, trail + [x])
  {
  }

  /** The session bound once the flags of `trail` are raised, starting
      from `sid`: `sid` itself before any flag, afterwards the pool's
      choice, none when the pool has run dry. */
  function Rebound(rows: seq<Session>, sid: int, trail: seq<Flagging>): Option<int>
  {
    if |trail| == 0 then Some(sid)
    else match GetBestSession(ApplyTrail(rows, trail))
      case None => None
      case Some(s) => Some(s.id)
  }

  /** Every flag of the trail falls on the session bound at that point:
      the first on the starting session, each later one on the session
      the pool chose after the earlier flags. */
  predicate FollowsSelection(rows: seq<Session>, sid: int, trail: seq<Flagging>)
  {
    forall k :: 0 <= k < |trail| ==> Rebound(rows, sid, trail[..k]) == Some(trail[k].sessionId)
  }

  lemma FollowsSelectionExtend(rows: seq<Session>, sid: int, trail: seq<Flagging>, x: Flagging)
    requires FollowsSelection(rows, sid, trail)
    requires Rebound(rows, sid, trail) == Some(x.sessionId)
    ensures FollowsSelection(rows, sid, trail + [x])
  {
    var t := trail + [x];
    forall k | 0 <= k < |t|
      ensures Rebound(rows, sid, t[..k]) == Some(t[k].sessionId)
    {
      if k < |trail| {
        assert t[..k] == trail[..k];
      } else {
        assert t[..k] == trail;
      }
    }
  }

  /** How the construction of a fetcher fails: no session to start with
      (a `ValueError`), the pool running dry during login (the handler
      reads the settings of a missing session), or a failure handler
      raising. */
  datatype InitError = NoSessionFound | PoolExhausted | HandlerFailed

  /** With unique ids, the best session is the row its id finds. */
  lemma BestIsFound(rows: seq<Session>)
    requires UniqueIds(rows) && GetBestSession(rows).Some?
    ensures FindSession(rows, GetBestSession(rows).value.id).Some?
    ensures rows[FindSession(rows, GetBestSession(rows).value.id).value] == GetBestSession(rows).value
  {
    var b := GetBestSession(rows).value;
    var j :| 0 <= j < |rows| && rows[j] == b;
  }

  /** An eligible row makes the eligible count positive. */
  lemma {:induction false} EligibleCountPositive(rows: seq<Session>, i: nat)
    requires i < |rows| && Eligible(rows[i])
    ensures EligibleCount(rows) >= 1
  {
    if i > 0 {
      EligibleCountPositive(rows[1..], i - 1);
    }
  }

  /** The fetcher of one profile's posts: its database, the session it is
      bound to, the client's settings and whether a login went through. */
  class DataFetcher {
    const db: Store
    var sessionId: int
    var settings: Blob
    var loggedIn: bool

    ghost predicate Valid()
      reads this, db
    {
      db.Valid() && FindSession(db.sessions, sessionId).Some?
    }

    ghost function CurrentRow(): Session
      reads this, db
      requires Valid()
    {
      db.sessions[FindSession(db.sessions, sessionId).value]
    }

    constructor Bound(db: Store, sid: int, data: Blob)
      ensures this.db == db && sessionId == sid && settings == data && !loggedIn
    {
      this.db := db;
      sessionId := sid;
      settings := data;
      loggedIn := false;
    }

    /** `InstagramDataFetcher.__init__`: bind the best session, load its
        settings and log in. Fails with `NoSessionFound` exactly when the
        pool has no eligible session to start with. */
    static method Create(db: Store, platform: nat -> Attempt) returns (r: Result<DataFetcher, InitError>, ghost trail: seq<Flagging>)
      requires db.Valid()
      modifies db
      ensures db.Valid() && db.posts == old(db.posts)
      ensures db.sessions == ApplyTrail(old(db.sessions), trail) && TrailMatches(platform, trail)
      ensures |trail| <= EligibleCount(old(db.sessions))
      ensures r == Err(NoSessionFound) <==> GetBestSession(old(db.sessions)).None?
      ensures r == Err(NoSessionFound) ==> trail == []
      ensures GetBestSession(old(db.sessions)).Some? ==>
        FollowsSelection(old(db.sessions), GetBestSession(old(db.sessions)).value.id, trail)
      ensures r == Err(PoolExhausted) ==> EligibleCount(db.sessions) == 0
      ensures r.Ok? ==> fresh(r.value) && r.value.db == db && r.value.Valid() && r.value.loggedIn
      ensures r.Ok? ==>
        Eligible(r.value.CurrentRow()) &&
        Rebound(old(db.sessions), GetBestSession(old(db.sessions)).value.id, trail) == Some(r.value.sessionId)
    {
      var best := GetBestSession(db.sessions);
      if best.None? {
        return Err(NoSessionFound), [];
      }
      BestIsFound(db.sessions);
      var f := new DataFetcher.Bound(db, best.value.id, best.value.sessionData);
      var end, attempts, t := f.Login(platform);
      trail := t;
      match end
      case Ready => r := Ok(f);
      case NoSessionLeft => r := Err(PoolExhausted);
      case Escaped => r := Err(HandlerFailed);
    }

    /** `InstagramDataFetcher.login`, its recursive re-dispatch written as
        a loop. Every classified failure raises one flag on the current,
        eligible session and binds the next best session, so the eligible
        count drops by one per failed attempt: the number of attempts is at
        most the number of eligible sessions at the start. */
    method Login(platform: nat -> Attempt) returns (end: LoginEnd, attempts: nat, trail: seq<Flagging>)
      requires Valid() && Eligible(CurrentRow()) && settings == CurrentRow().sessionData
      modifies this, db
      ensures Valid() && db.posts == old(db.posts)
      ensures db.sessions == ApplyTrail(old(db.sessions), trail)
      ensures EligibleCount(db.sessions) == old(EligibleCount(db.sessions)) - |trail|
      ensures 1 <= attempts <= old(EligibleCount(db.sessions))
      ensures |trail| == if end == NoSessionLeft then attempts else attempts - 1
      ensures TrailMatches(platform, trail)
      ensures FollowsSelection(old(db.sessions), old(sessionId), trail)
      ensures end != NoSessionLeft ==> Rebound(old(db.sessions), old(sessionId), trail) == Some(sessionId)
      ensures end == NoSessionLeft <==> EligibleCount(db.sessions) == 0
      ensures end == Ready ==>
        loggedIn && Eligible(CurrentRow()) && AttemptFailure(platform(attempts - 1)).None? &&
        settings == if StaleProbe(platform(attempts - 1))
                    then Blob(CurrentRow().sessionData.uuids, EmptySettings.state)
                    else CurrentRow().sessionData
      ensures end == Escaped ==>
        Eligible(CurrentRow()) && AttemptFailure(platform(attempts - 1)).Some? &&
        HandlerRaises(AttemptFailure(platform(attempts - 1)).value, platform(attempts - 1))
    {
      attempts, trail := 0, [];
      ghost var count0 := EligibleCount(db.sessions);
      while true
        invariant Valid() && db.posts == old(db.posts)
        invariant db.sessions == ApplyTrail(old(db.sessions), trail)
        invariant EligibleCount(db.sessions) == count0 - |trail|
        invariant TrailMatches(platform, trail)
        invariant FollowsSelection(old(db.sessions), old(sessionId), trail)
        invariant Rebound(old(db.sessions), old(sessionId), trail) == Some(sessionId)
        invariant attempts == |trail| && Eligible(CurrentRow()) && settings == CurrentRow().sessionData
        decreases EligibleCount(db.sessions)
      {
        var a := platform(attempts);
        attempts := attempts + 1;
        EligibleCountPositive(db.sessions, FindSession(db.sessions, sessionId).value);
        var failure := RunAttempt(a);
        if failure.None? {
          return Ready, attempts, trail;
        }
        if HandlerRaises(failure.value, a) {
          return Escaped, attempts, trail;
        }
        // Flag the current session and re-dispatch with the best one.
        var flag := FlagFor(failure.value);
        ghost var before := trail;
        trail := trail + [Flagging(sessionId, flag)];
        assert trail[..|trail| - 1] == before;
        TrailExtend(platform, before, Flagging(sessionId, flag));
        FollowsSelectionExtend(old(db.sessions), old(sessionId), before, Flagging(sessionId, flag));
        var exhausted := FlagAndReselect(flag);
        if exhausted {
          return NoSessionLeft, attempts, trail;
        }
      }
    }

    /** The `try` part of one login attempt: the password login, then the
        liveness probe. A stale session gets cleared settings that keep the
        device ids and a fresh login. Answers the failure the attempt ends
        with. */
    method RunAttempt(a: Attempt) returns (failure: Option<Failure>)
      modifies this`settings, this`loggedIn
      ensures failure == AttemptFailure(a)
      ensures loggedIn == (old(loggedIn) || a.login.Succeeded?)
      ensures settings == if StaleProbe(a) then Blob(old(settings).uuids, EmptySettings.state) else old(settings)
    {
      failure := None;
      if a.login.Raised? {
        failure := Some(a.login.failure);
      } else {
        loggedIn := true;
        if a.probe.Raised? {
          if a.probe.failure == LoginRequired {
            settings := Blob(settings.uuids, EmptySettings.state);
            if a.freshLogin.Raised? {
              failure := Some(a.freshLogin.failure);
            }
          } else {
            failure := Some(a.probe.failure);
          }
        }
      }
    }

    /** The common tail of every failure handler: raise `flag` on the
        current session, bind the best remaining session and load its
        settings. `exhausted` when the pool has nothing left to give. */
    method FlagAndReselect(flag: Flag) returns (exhausted: bool)
      requires Valid() && Eligible(CurrentRow())
      modifies this`sessionId, this`settings, db
      ensures Valid() && db.posts == old(db.posts)
      ensures db.sessions == ChangeRows(old(db.sessions), old(sessionId), Raise(flag))
      ensures EligibleCount(db.sessions) == old(EligibleCount(db.sessions)) - 1
      ensures exhausted <==> EligibleCount(db.sessions) == 0
      ensures !exhausted ==> Eligible(CurrentRow()) && settings == CurrentRow().sessionData
      ensures !exhausted ==>
        GetBestSession(db.sessions).Some? && CurrentRow() == GetBestSession(db.sessions).value &&
        sessionId == GetBestSession(db.sessions).value.id
      ensures exhausted ==> sessionId == old(sessionId)
    {
      var i := FindSession(db.sessions, sessionId).value;
      RaiseCountsDown(db.sessions, flag, i);
      db.SetFlag(sessionId, flag);
      var best := GetBestSession(db.sessions);
      NoBestIffNoneEligible(db.sessions);
      if best.None? {
        return true;
      }
      BestIsFound(db.sessions);
      sessionId := best.value.id;
      settings := best.value.sessionData;
      return false;
    }

    /** `fetch_posts`: when logged in and the profile lookups succeed, it
        records one use of the session before any page, then requests
        pages while the remaining media count is positive, writing the
        posts gathered so far after every page. It answers true only when
        every page arrived; pages written before a failing one stay. */
    method FetchPosts(profile: string, src: ProfileSource) returns (ok: bool)
      requires Valid()
      modifies db
      ensures Valid()
      ensures !loggedIn || src.mediaCount.None? ==>
        !ok && db.sessions == old(db.sessions) && db.posts == old(db.posts)
      ensures loggedIn && src.mediaCount.Some? ==>
        var n := PageCount(src.mediaCount.value);
        var k := PagesFetched(src, n);
        db.sessions == ChangeRows(old(db.sessions), sessionId, Bump) &&
        db.posts == PersistPages(old(db.posts), profile, sessionId, src, k) &&
        (ok <==> k == n)
    {
      if !loggedIn || src.mediaCount.None? {
        return false;
      }
      db.IncrementUse(sessionId);
      ok := WalkPages(profile, src);
    }

    /** The page loop of `fetch_posts`, after the use was recorded. */
    method WalkPages(profile: string, src: ProfileSource) returns (ok: bool)
      requires Valid() && src.mediaCount.Some?
      modifies db
      ensures Valid() && db.sessions == old(db.sessions)
      ensures var n := PageCount(src.mediaCount.value);
        var k := PagesFetched(src, n);
        db.posts == PersistPages(old(db.posts), profile, sessionId, src, k) &&
        (ok <==> k == n)
    {
      var mediasCount := src.mediaCount.value;
      ghost var n := PageCount(mediasCount);
      var allPosts: seq<Post> := [];
      var page: nat := 0;
      RemainingPositive(mediasCount, 0);
      while mediasCount > 0
        invariant mediasCount == src.mediaCount.value - ItemsPerPage * page
        invariant page <= n && (mediasCount > 0 <==> page < n)
        invariant Arrived(src, page)
        invariant allPosts == PostsOfPages(src, page)
        invariant Valid() && db.sessions == old(db.sessions)
        invariant db.posts == PersistPages(old(db.posts), profile, sessionId, src, page)
        decreases mediasCount
      {
        var medias := src.page(page);
        if medias.None? {
          PagesFetchedAt(src, n, page);
          return false;
        }
        ArrivedNext(src, page);
        allPosts := AppendNormalized(allPosts, medias.value);
        mediasCount := mediasCount - ItemsPerPage;
        page := page + 1;
        RemainingPositive(src.mediaCount.value, page);
        SavePage(db, profile, sessionId, allPosts);
      }
      PagesFetchedAt(src, n, page);
      return true;
    }
  }

  /** The inner loop of a page: each media item of the page is normalised
      and appended, in order. */
  method AppendNormalized(all: seq<Post>, medias: seq<Media>) returns (r: seq<Post>)
    ensures r == all + NormalizeAll(medias)
  {
    r := all;
    for j := 0 to |medias|
      invariant r == all + NormalizeAll(medias[..j])
    {
      assert medias[..j + 1] == medias[..j] + [medias[j]];
      r := r + [NormalizePost(medias[j])];
    }
    assert medias[..|medias|] == medias;
  }

  /** The end of a page: get or create the record of the pair and, only
      when it already existed, replace its posts by `all`. */
  method SavePage(db: Store, profile: string, sid: int, all: seq<Post>)
    requires db.Valid()
    modifies db
    ensures db.Valid() && db.sessions == old(db.sessions)
    ensures db.posts == WritePage(old(db.posts), profile, sid, all)
  {
    var idx, created := GetOrCreateInstaPost(db, profile, sid);
    if !created {
      db.posts := db.posts[idx := db.posts[idx].(jsonPosts := Some(all))];
    }
    WritePageEffect(old(db.posts), profile, sid, all);
  }

  /** `fetch_instagram_data`: construct a fetcher and fetch the profile.
      Construction failures surface; otherwise it answers nothing, so a
      fetch that stopped at a failing page looks the same as a complete
      one. The fetch's own answer is kept only as the ghost `ok`; `trail`
      is the login run's flags and `sid` the session the fetch ran on. */
  method FetchInstagramData(db: Store, profile: string, platform: nat -> Attempt, src: ProfileSource)
    returns (r: Result<(), InitError>, ghost ok: bool, ghost trail: seq<Flagging>, ghost sid: int)
    requires db.Valid()
    modifies db
    ensures db.Valid() && TrailMatches(platform, trail)
    ensures r == Err(NoSessionFound) <==> GetBestSession(old(db.sessions)).None?
    ensures r == Err(NoSessionFound) ==> trail == []
    ensures GetBestSession(old(db.sessions)).Some? ==>
      FollowsSelection(old(db.sessions), GetBestSession(old(db.sessions)).value.id, trail)
    ensures r.Err? ==> db.sessions == ApplyTrail(old(db.sessions), trail) && db.posts == old(db.posts)
    ensures r.Ok? ==> Rebound(old(db.sessions), GetBestSession(old(db.sessions)).value.id, trail) == Some(sid)
    ensures r.Ok? && src.mediaCount.None? ==>
      !ok && db.sessions == ApplyTrail(old(db.sessions), trail) && db.posts == old(db.posts)
    ensures r.Ok? && src.mediaCount.Some? ==>
      var n := PageCount(src.mediaCount.value);
      var k := PagesFetched(src, n);
      db.sessions == ChangeRows(ApplyTrail(old(db.sessions), trail), sid, Bump) &&
      db.posts == PersistPages(old(db.posts), profile, sid, src, k) &&
      (ok <==> k == n)
  {
    var f;
    f, trail := DataFetcher.Create(db, platform);
    if f.Err? {
      return Err(f.error), false, trail, 0;
    }
    sid := f.value.sessionId;
    ok := f.value.FetchPosts(profile, src);
    return Ok(()), ok, trail, sid;
  }
}

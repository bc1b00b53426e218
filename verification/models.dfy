/** The two tables of the application (`instagram_sessions` and
    `insta_posts`), the pool's selection rule and the in-place updates the
    records offer. The database is a `Store` object whose two fields hold
    the tables in storage order; a commit is an assignment to a field. */
module Models {
  import opened Common
  import opened Platform

  /** One credential of the pool: the three health flags and the usage
      counter decide whether and when it is selected. */
  datatype Session = Session(
    id: int,
    username: string,
    password: string,
    sessionData: Blob,
    isBlock: bool,
    isChallenge: bool,
    isTempBlock: bool,
    numberOfUse: int)

  /** One image entry of a stored post. */
  datatype Image = Image(thumbnailUrl: string, videoUrl: string)

  /** One normalised post as kept in a record's `json_posts`. */
  datatype Post = Post(caption: string, likes: int, comments: int, reels: string, kind: int, imgs: seq<Image>)

  /** One row of `insta_posts`: the posts of `profile` fetched with the
      session `sessionId`. Both references and the list may be null. */
  datatype PostRecord = PostRecord(id: int, sessionId: Option<int>, jsonPosts: Option<seq<Post>>, profile: Option<string>)

  datatype Flag = Block | Challenge | TempBlock

  /** The in-place changes a session record undergoes: one flag raised
      (`block`, `hit_challenge`, `temp_block`) or one use recorded. */
  datatype RowChange = Raise(flag: Flag) | Bump

  /** A session the pool may hand out: no health flag set. */
  predicate Eligible(s: Session)
  {
    !s.isBlock && !s.isChallenge && !s.isTempBlock
  }

  /** A record as the column defaults create it. */
  function NewSession(id: int, username: string, password: string, data: Blob): (s: Session)
    ensures Eligible(s) && s.numberOfUse == 0
    ensures s.id == id && s.username == username && s.password == password && s.sessionData == data
  {
    Session(id, username, password, data, false, false, false, 0)
  }

  function Changed(s: Session, c: RowChange): (r: Session)
    ensures r.id == s.id && r.username == s.username
  {
    match c
    case Raise(Block) => s.(isBlock := true)
    case Raise(Challenge) => s.(isChallenge := true)
    case Raise(TempBlock) => s.(isTempBlock := true)
    case Bump => s.(numberOfUse := s.numberOfUse + 1)
  }

  /** The table after `c` is applied to every row whose id is `id`. */
  function ChangeRows(rows: seq<Session>, id: int, c: RowChange): (r: seq<Session>)
    ensures |r| == |rows|
    ensures forall i :: 0 <= i < |rows| ==> r[i] == if rows[i].id == id then Changed(rows[i], c) else rows[i]
  {
    if |rows| == 0 then []
    else [if rows[0].id == id then Changed(rows[0], c) else rows[0]] + ChangeRows(rows[1..], id, c)
  }

  /** `get_best_session`: a flag-free session with the smallest usage
      counter; none when no session is flag-free. Among equal counters the
      model takes the first in storage (rowid) order. That is the order
      SQLite happens to produce for this query, but SQL does not promise
      it, so the contract below leaves ties open. */
  function GetBestSession(rows: seq<Session>): (r: Option<Session>)
    ensures r.None? <==> forall i :: 0 <= i < |rows| ==> !Eligible(rows[i])
    ensures r.Some? ==> r.value in rows && Eligible(r.value)
    ensures r.Some? ==> forall i :: 0 <= i < |rows| && Eligible(rows[i]) ==> r.value.numberOfUse <= rows[i].numberOfUse
  {
    if |rows| == 0 then None
    else
      var rest := GetBestSession(rows[1..]);
      if !Eligible(rows[0]) then rest
      else if rest.Some? && rest.value.numberOfUse < rows[0].numberOfUse then rest
      else Some(rows[0])
  }

  /** Number of flag-free sessions in the table. */
  function EligibleCount(rows: seq<Session>): (n: nat)
    ensures n <= |rows|
  {
    if |rows| == 0 then 0
    else (if Eligible(rows[0]) then 1 else 0) + EligibleCount(rows[1..])
  }

  predicate UniqueIds(rows: seq<Session>)
  {
    forall i, j :: 0 <= i < j < |rows| ==> rows[i].id != rows[j].id
  }

  predicate UniqueUsernames(rows: seq<Session>)
  {
    forall i, j :: 0 <= i < j < |rows| ==> rows[i].username != rows[j].username
  }

  predicate UniquePostIds(posts: seq<PostRecord>)
  {
    forall i, j :: 0 <= i < j < |posts| ==> posts[i].id != posts[j].id
  }

  /** At most one record per (profile, session) pair that names a session. */
  predicate PostKeysUnique(posts: seq<PostRecord>)
  {
    forall i, j :: 0 <= i < j < |posts| && posts[i].sessionId.Some? ==>
      posts[i].sessionId != posts[j].sessionId || posts[i].profile != posts[j].profile
  }

  function FindSession(rows: seq<Session>, id: int): Option<nat>
  {
    FindFirst(rows, (s: Session) => s.id == id)
  }

  function FindByUsername(rows: seq<Session>, username: string): Option<nat>
  {
    FindFirst(rows, (s: Session) => s.username == username)
  }

  function FindPostById(posts: seq<PostRecord>, id: int): Option<nat>
  {
    FindFirst(posts, (p: PostRecord) => p.id == id)
  }

  /** The record of `profile` fetched with session `sid`, if any. */
  function FindPost(posts: seq<PostRecord>, profile: string, sid: int): Option<nat>
  {
    FindFirst(posts, (p: PostRecord) => p.profile == Some(profile) && p.sessionId == Some(sid))
  }

  /** The id the database gives the next inserted row: one more than the
      largest id in the table, or 1 in an empty table. */
  function NextId<T>(rows: seq<T>, key: T -> int): (r: int)
    ensures forall i :: 0 <= i < |rows| ==> key(rows[i]) < r
    ensures |rows| == 0 ==> r == 1
  {
    if |rows| == 0 then 1
    else if |rows| == 1 then key(rows[0]) + 1
    else Max(key(rows[0]) + 1, NextId(rows[1..], key))
  }

  function NextSessionId(rows: seq<Session>): (r: int)
    ensures forall i :: 0 <= i < |rows| ==> rows[i].id < r
  {
    NextId(rows, (s: Session) => s.id)
  }

  function NextPostId(posts: seq<PostRecord>): (r: int)
    ensures forall i :: 0 <= i < |posts| ==> posts[i].id < r
  {
    NextId(posts, (p: PostRecord) => p.id)
  }

  /** The database: both tables, in storage order. */
  class Store {
    var sessions: seq<Session>
    var posts: seq<PostRecord>

    /** What the schema's keys and the application's own writes keep true. */
    ghost predicate Valid()
      reads this
    {
      UniqueIds(sessions) && UniqueUsernames(sessions) && UniquePostIds(posts) && PostKeysUnique(posts)
    }

    constructor ()
      ensures Valid() && sessions == [] && posts == []
    {
      sessions := [];
      posts := [];
    }

    /** `InstagramSession.increment_use`: the counter of the record `id`
        goes up by one and nothing else changes. */
    method IncrementUse(id: int)
      requires Valid() && FindSession(sessions, id).Some?
      modifies this
      ensures Valid() && posts == old(posts)
      ensures sessions == ChangeRows(old(sessions), id, Bump)
    {
      var i := FindSession(sessions, id).value;
      var s := sessions[i];
      sessions := sessions[i := s.(numberOfUse := s.numberOfUse + 1)];
      ChangeOne(old(sessions), i, Bump);
    }

    /** The flag setters the login flow calls on a session record
        (`block`, `hit_challenge`, `temp_block`): one flag raised, the rest
        of the record and of the table unchanged. */
    method SetFlag(id: int, f: Flag)
      requires Valid() && FindSession(sessions, id).Some?
      modifies this
      ensures Valid() && posts == old(posts)
      ensures sessions == ChangeRows(old(sessions), id, Raise(f))
    {
      var i := FindSession(sessions, id).value;
      var s := sessions[i];
      match f {
        case Block => s := s.(isBlock := true);
        case Challenge => s := s.(isChallenge := true);
        case TempBlock => s := s.(isTempBlock := true);
      }
      sessions := sessions[i := s];
      ChangeOne(old(sessions), i, Raise(f));
    }

    /** `InstagramPosts.fill_object` on the stored record `postId`: the
        session reference is re-pointed only when a session with that id
        exists, and the posts are replaced wholesale. */
    method FillObject(postId: int, sessionId: int, json: seq<Post>)
      requires FindPostById(posts, postId).Some?
      modifies this
      ensures sessions == old(sessions)
      ensures |posts| == |old(posts)|
      ensures forall k :: 0 <= k < |posts| && old(posts)[k].id != postId ==> posts[k] == old(posts)[k]
      ensures var i := FindPostById(old(posts), postId).value;
        posts[i].id == postId && posts[i].profile == old(posts)[i].profile &&
        posts[i].jsonPosts == Some(json) &&
        posts[i].sessionId == if FindSession(sessions, sessionId).Some? then Some(sessionId) else old(posts)[i].sessionId
    {
      var i := FindPostById(posts, postId).value;
      var rec := posts[i];
      var found := FindSession(sessions, sessionId);
      if found.Some? {
        rec := rec.(sessionId := Some(sessions[found.value].id));
      }
      rec := rec.(jsonPosts := Some(json));
      posts := posts[i := rec];
    }
  }

  /** With unique ids, changing the row at index `i` in place is the same
      as changing every row carrying its id, and the keys stay unique. */
  lemma ChangeOne(rows: seq<Session>, i: nat, c: RowChange)
    requires UniqueIds(rows) && UniqueUsernames(rows) && i < |rows|
    ensures rows[i := Changed(rows[i], c)] == ChangeRows(rows, rows[i].id, c)
    ensures UniqueIds(ChangeRows(rows, rows[i].id, c)) && UniqueUsernames(ChangeRows(rows, rows[i].id, c))
  {
    var r := ChangeRows(rows, rows[i].id, c);
    forall k | 0 <= k < |rows|
      ensures r[k] == rows[i := Changed(rows[i], c)][k]
    {
      if k != i {
        assert rows[k].id != rows[i].id;
      }
    }
    assert forall k :: 0 <= k < |rows| ==> r[k].id == rows[k].id && r[k].username == rows[k].username;
  }

  /** Raising a flag on an eligible session removes exactly one session
      from the eligible part of the pool. */
  lemma {:induction false} RaiseCountsDown(rows: seq<Session>, f: Flag, i: nat)
    requires UniqueIds(rows) && i < |rows| && Eligible(rows[i])
    ensures EligibleCount(ChangeRows(rows, rows[i].id, Raise(f))) == EligibleCount(rows) - 1
  {
    var id := rows[i].id;
    var r := ChangeRows(rows, id, Raise(f));
    assert r[1..] == ChangeRows(rows[1..], id, Raise(f));
    if i == 0 {
      assert ChangeRows(rows[1..], id, Raise(f)) == rows[1..];
    } else {
      assert rows[0].id != id;
      RaiseCountsDown(rows[1..], f, i - 1);
    }
  }

  /** The pool has nothing to hand out exactly when no session is eligible. */
  lemma {:induction false} NoBestIffNoneEligible(rows: seq<Session>)
    ensures GetBestSession(rows).None? <==> EligibleCount(rows) == 0
  {
    if |rows| > 0 {
      NoBestIffNoneEligible(rows[1..]);
      if GetBestSession(rows).None? {
        assert !Eligible(rows[0]);
        assert forall i :: 0 <= i < |rows[1..]| ==> !Eligible(rows[1..][i]) by {
          forall i | 0 <= i < |rows[1..]| ensures !Eligible(rows[1..][i]) {
            assert rows[1..][i] == rows[i + 1];
          }
        }
      }
    }
  }

  /** Fairness of selection with use recording: after the best session
      records one use, the next selection has a counter no smaller than
      the previous selection's. */
  lemma BestThenUseIsFair(rows: seq<Session>)
    requires UniqueIds(rows) && GetBestSession(rows).Some?
    ensures var b := GetBestSession(rows).value;
      var next := GetBestSession(ChangeRows(rows, b.id, Bump));
      next.Some? && next.value.numberOfUse >= b.numberOfUse
  {
    var b := GetBestSession(rows).value;
    var r := ChangeRows(rows, b.id, Bump);
    var j :| 0 <= j < |rows| && rows[j] == b;
    assert Eligible(r[j]);
    var next := GetBestSession(r).value;
    var k :| 0 <= k < |r| && r[k] == next;
    assert r[k] == if rows[k].id == b.id then Changed(rows[k], Bump) else rows[k];
    assert Eligible(rows[k]) && r[k].numberOfUse >= rows[k].numberOfUse;
    assert rows[k].numberOfUse >= b.numberOfUse;
  }
}

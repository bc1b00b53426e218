/** The administration endpoints of the session pool: listing, reading
    one record, the partial update and the deletion of a record. */
module SessionViews {
  import opened Common
  import opened Platform
  import opened Models

  /** A session record as the endpoints answer it: everything but the
      password. */
  datatype SessionView = SessionView(
    id: int,
    username: string,
    isBlock: bool,
    isChallenge: bool,
    isTempBlock: bool,
    numberOfUse: int,
    sessionData: Blob)

  function View(s: Session): (v: SessionView)
    ensures v.id == s.id && v.username == s.username && v.numberOfUse == s.numberOfUse
    ensures v.isBlock == s.isBlock && v.isChallenge == s.isChallenge && v.isTempBlock == s.isTempBlock
    ensures v.sessionData == s.sessionData
  {
    SessionView(s.id, s.username, s.isBlock, s.isChallenge, s.isTempBlock, s.numberOfUse, s.sessionData)
  }

  const NotFound := HttpError(404, "Session not found")

  /** `get_sessions`: every record, in storage order. */
  function GetSessions(rows: seq<Session>): (r: seq<SessionView>)
    ensures |r| == |rows|
    ensures forall i :: 0 <= i < |rows| ==> r[i] == View(rows[i])
  {
    if |rows| == 0 then [] else [View(rows[0])] + GetSessions(rows[1..])
  }

  /** `get_session_detail`: the record with the id, or 404. */
  function GetSessionDetail(rows: seq<Session>, id: int): (r: Result<SessionView, HttpError>)
    ensures r.Err? <==> forall i :: 0 <= i < |rows| ==> rows[i].id != id
    ensures r.Err? ==> r.error == NotFound
    ensures r.Ok? ==> r.value.id == id && exists i :: 0 <= i < |rows| && r.value == View(rows[i])
  {
    match FindSession(rows, id)
    case None => Err(NotFound)
    case Some(i) => Ok(View(rows[i]))
  }

  /** The body of a partial update: every field is optional. */
  datatype SessionUpdate = SessionUpdate(
    username: Option<string>,
    isBlock: Option<bool>,
    isChallenge: Option<bool>,
    isTempBlock: Option<bool>,
    numberOfUse: Option<int>,
    sessionData: Option<Blob>)

  const NoChange := SessionUpdate(None, None, None, None, None, None)

  /** The record after the update: a supplied field overwrites the stored
      one (any counter value is accepted, a smaller one included), an
      unsupplied field is kept, and an empty username is ignored. The id
      and the password are never touched. */
  function Patched(s: Session, u: SessionUpdate): (r: Session)
    ensures r.id == s.id && r.password == s.password
    ensures (u.username.Some? && u.username.value != "") ==> r.username == u.username.value
    ensures (u.username.None? || u.username.value == "") ==> r.username == s.username
    ensures u.isBlock.Some? ==> r.isBlock == u.isBlock.value
    ensures u.isBlock.None? ==> r.isBlock == s.isBlock
    ensures u.isChallenge.Some? ==> r.isChallenge == u.isChallenge.value
    ensures u.isChallenge.None? ==> r.isChallenge == s.isChallenge
    ensures u.isTempBlock.Some? ==> r.isTempBlock == u.isTempBlock.value
    ensures u.isTempBlock.None? ==> r.isTempBlock == s.isTempBlock
    ensures u.numberOfUse.Some? ==> r.numberOfUse == u.numberOfUse.value
    ensures u.numberOfUse.None? ==> r.numberOfUse == s.numberOfUse
    ensures u.sessionData.Some? ==> r.sessionData == u.sessionData.value
    ensures u.sessionData.None? ==> r.sessionData == s.sessionData
  {
    Session(
      s.id,
      if u.username.Some? && u.username.value != "" then u.username.value else s.username,
      s.password,
      if u.sessionData.Some? then u.sessionData.value else s.sessionData,
      if u.isBlock.Some? then u.isBlock.value else s.isBlock,
      if u.isChallenge.Some? then u.isChallenge.value else s.isChallenge,
      if u.isTempBlock.Some? then u.isTempBlock.value else s.isTempBlock,
      if u.numberOfUse.Some? then u.numberOfUse.value else s.numberOfUse)
  }

  /** An update that supplies nothing leaves the record as it is. */
  lemma NoChangeIsIdentity(s: Session)
    ensures Patched(s, NoChange) == s
  {
    var r := Patched(s, NoChange);
    assert r.id == s.id && r.username == s.username && r.password == s.password;
  }

  /** Sending the same update twice has the effect of sending it once. */
  lemma PatchIdempotent(s: Session, u: SessionUpdate)
    ensures Patched(Patched(s, u), u) == Patched(s, u)
  {
    var once := Patched(s, u);
    var twice := Patched(once, u);
    assert twice.username == once.username && twice.sessionData == once.sessionData;
  }

  /** Updates of fields the other update does not supply commute. */
  lemma PatchesOfDisjointFieldsCommute(s: Session, u: SessionUpdate, w: SessionUpdate)
    requires u.username.None? || w.username.None?
    requires u.isBlock.None? || w.isBlock.None?
    requires u.isChallenge.None? || w.isChallenge.None?
    requires u.isTempBlock.None? || w.isTempBlock.None?
    requires u.numberOfUse.None? || w.numberOfUse.None?
    requires u.sessionData.None? || w.sessionData.None?
    ensures Patched(Patched(s, u), w) == Patched(Patched(s, w), u)
  {
    var a := Patched(Patched(s, u), w);
    var b := Patched(Patched(s, w), u);
    assert a.username == b.username && a.sessionData == b.sessionData;
  }

  /** Whether another record than the one at `i` already has `name`. */
  function UsernameTaken(rows: seq<Session>, i: nat, name: string): (r: bool)
    requires i < |rows| && UniqueUsernames(rows)
    ensures r <==> exists j :: 0 <= j < |rows| && j != i && rows[j].username == name
  {
    match FindByUsername(rows, name)
    case None => false
    case Some(j) => j != i
  }

  /** Writing a record back at its place keeps the keys unique when its id
      is kept and its name is not another record's. */
  lemma ReplaceKeepsKeys(rows: seq<Session>, i: nat, s: Session)
    requires UniqueIds(rows) && UniqueUsernames(rows) && i < |rows|
    requires s.id == rows[i].id && !UsernameTaken(rows, i, s.username)
    ensures UniqueIds(rows[i := s]) && UniqueUsernames(rows[i := s])
  {
    var r := rows[i := s];
    assert forall j :: 0 <= j < |rows| && j != i ==> r[j] == rows[j] && rows[j].username != s.username;
  }

  /** The field-by-field assignments of `update_session` on one record. */
  method ApplyUpdate(s0: Session, u: SessionUpdate) returns (s: Session)
    ensures s == Patched(s0, u)
  {
    var username, isBlock, isChallenge, isTempBlock := s0.username, s0.isBlock, s0.isChallenge, s0.isTempBlock;
    var numberOfUse, sessionData := s0.numberOfUse, s0.sessionData;
    if u.username.Some? && u.username.value != "" {
      username := u.username.value;
    }
    if u.isBlock.Some? {
      isBlock := u.isBlock.value;
    }
    if u.isChallenge.Some? {
      isChallenge := u.isChallenge.value;
    }
    if u.isTempBlock.Some? {
      isTempBlock := u.isTempBlock.value;
    }
    if u.numberOfUse.Some? {
      numberOfUse := u.numberOfUse.value;
    }
    if u.sessionData.Some? {
      sessionData := u.sessionData.value;
    }
    s := Session(s0.id, username, s0.password, sessionData, isBlock, isChallenge, isTempBlock, numberOfUse);
  }

  /** `update_session`: 404 for an unknown id; otherwise the supplied
      fields are written into the record one by one and committed. A
      username already held by another record violates the column's
      uniqueness: the commit fails and the request ends in a 500 with the
      table unchanged. Other records are never modified. */
  method UpdateSession(db: Store, id: int, u: SessionUpdate) returns (r: Result<SessionView, HttpError>)
    requires db.Valid()
    modifies db
    ensures db.Valid() && db.posts == old(db.posts)
    ensures FindSession(old(db.sessions), id).None? ==>
      r == Err(NotFound) && db.sessions == old(db.sessions)
    ensures FindSession(old(db.sessions), id).Some? ==>
      var i := FindSession(old(db.sessions), id).value;
      var s := Patched(old(db.sessions)[i], u);
      if UsernameTaken(old(db.sessions), i, s.username)
      then r == Err(ServerError) && db.sessions == old(db.sessions)
      else r == Ok(View(s)) && db.sessions == old(db.sessions)[i := s]
  {
    var found := FindSession(db.sessions, id);
    if found.None? {
      return Err(NotFound);
    }
    var i := found.value;
    var s := ApplyUpdate(db.sessions[i], u);
    if UsernameTaken(db.sessions, i, s.username) {
      return Err(ServerError);
    }
    ReplaceKeepsKeys(db.sessions, i, s);
    db.sessions := db.sessions[i := s];
    return Ok(View(s));
  }

  /** The posts table once session `id` is gone: records that referred to
      it lose their session reference and are otherwise kept. */
  function Unlinked(posts: seq<PostRecord>, id: int): (r: seq<PostRecord>)
    ensures |r| == |posts|
    ensures forall k :: 0 <= k < |posts| ==>
      r[k] == if posts[k].sessionId == Some(id) then posts[k].(sessionId := None) else posts[k]
  {
    if |posts| == 0 then []
    else [if posts[0].sessionId == Some(id) then posts[0].(sessionId := None) else posts[0]] + Unlinked(posts[1..], id)
  }

  /** After unlinking no record refers to the session, the ids, profiles
      and posts of all records are kept, and the keys stay unique. */
  lemma UnlinkedEffect(posts: seq<PostRecord>, id: int)
    requires UniquePostIds(posts) && PostKeysUnique(posts)
    ensures var r := Unlinked(posts, id);
      UniquePostIds(r) && PostKeysUnique(r) &&
      (forall k :: 0 <= k < |r| ==> r[k].sessionId != Some(id)) &&
      (forall k :: 0 <= k < |r| ==>
        r[k].id == posts[k].id && r[k].profile == posts[k].profile && r[k].jsonPosts == posts[k].jsonPosts)
  {
    var r := Unlinked(posts, id);
    assert forall k :: 0 <= k < |r| ==> r[k].id == posts[k].id && r[k].profile == posts[k].profile;
    assert forall k :: 0 <= k < |r| && r[k].sessionId.Some? ==> r[k].sessionId == posts[k].sessionId;
  }

  /** Removing the record at `i` leaves every other record, in order, and
      no record with its id. */
  lemma RemovedEffect(rows: seq<Session>, i: nat)
    requires UniqueIds(rows) && UniqueUsernames(rows) && i < |rows|
    ensures var r := rows[..i] + rows[i + 1..];
      UniqueIds(r) && UniqueUsernames(r) && |r| == |rows| - 1 &&
      FindSession(r, rows[i].id).None? &&
      (forall j :: 0 <= j < |rows| && j != i ==> rows[j] in r)
  {
    RemoveAt(rows, i);
  }

  /** `delete_session`: 404 for an unknown id; otherwise exactly that
      record is removed and the records fetched with it lose their
      session reference. */
  method DeleteSession(db: Store, id: int) returns (r: Result<string, HttpError>)
    requires db.Valid()
    modifies db
    ensures db.Valid()
    ensures FindSession(old(db.sessions), id).None? ==>
      r == Err(NotFound) && db.sessions == old(db.sessions) && db.posts == old(db.posts)
    ensures FindSession(old(db.sessions), id).Some? ==>
      var i := FindSession(old(db.sessions), id).value;
      r == Ok("Session deleted successfully") &&
      db.sessions == old(db.sessions)[..i] + old(db.sessions)[i + 1..] &&
      db.posts == Unlinked(old(db.posts), id)
  {
    var found := FindSession(db.sessions, id);
    if found.None? {
      return Err(NotFound);
    }
    var i := found.value;
    RemovedEffect(db.sessions, i);
    UnlinkedEffect(db.posts, id);
    db.sessions := db.sessions[..i] + db.sessions[i + 1..];
    db.posts := Unlinked(db.posts, id);
    return Ok("Session deleted successfully");
  }
}

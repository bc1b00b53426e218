/** Admission of a credential into the pool: the stored record of the
    username is checked for health flags, the client is brought to a
    logged-in state (reusing the stored settings when they still work) and
    the record is upserted with the client's exported settings. */
module SessionInit {
  import opened Common
  import opened Platform
  import opened Models

  /** Outcome of the timeline request that probes loaded settings. */
  datatype Probe = Alive | Stale | ProbeRaised

  /** Outcome of the client's login call: a truthy answer, after which the
      client exports `settings`; a falsy answer; or an exception. */
  datatype LoginCall = LoginOk(settings: Blob) | LoginFalsy | LoginRaised

  /** What the platform and the database do during one admission. */
  datatype AdmissionScript = AdmissionScript(probe: Probe, login: LoginCall, commitOk: bool)

  /** The exception that ended an admission: an HTTP error raised by the
      handler itself (a refusal or a falsy login), an exception from the
      client, or a failed commit. */
  datatype Cause = Http(status: int, detail: string) | ClientRaised | CommitFailed

  /** Every failure of the admission leaves as a 500 carrying its cause. */
  datatype AdmissionError = AdmissionError(status: int, cause: Cause)

  datatype AdmissionResponse = AdmissionResponse(status: string, message: string, username: string)

  /** Why a stored record is refused: block before challenge before
      temporary block; none for a flag-free record. */
  function Refusal(s: Session): (r: Option<string>)
    ensures r.None? <==> Eligible(s)
    ensures s.isBlock ==> r == Some("Account is blocked")
    ensures !s.isBlock && s.isChallenge ==> r == Some("Challenge required")
    ensures !s.isBlock && !s.isChallenge && s.isTempBlock ==> r == Some("Account is temporarily blocked")
  {
    if s.isBlock then Some("Account is blocked")
    else if s.isChallenge then Some("Challenge required")
    else if s.isTempBlock then Some("Account is temporarily blocked")
    else None
  }

  /** The settings a login call leaves the client with, or why it failed. */
  function LoginResult(c: LoginCall): (r: Result<Blob, Cause>)
    ensures r.Ok? <==> c.LoginOk?
    ensures c.LoginFalsy? ==> r == Err(Http(400, "Login failed"))
    ensures c.LoginRaised? ==> r == Err(ClientRaised)
  {
    match c
    case LoginOk(b) => Ok(b)
    case LoginFalsy => Err(Http(400, "Login failed"))
    case LoginRaised => Err(ClientRaised)
  }

  /** The settings the client exports once it is ready, or the cause that
      stopped the admission before the database step. A stored record is
      refused when flagged; otherwise its settings are reused when the
      probe succeeds and replaced by a fresh login when the probe reports
      a required login. A username without a record always logs in. */
  function Readiness(rows: seq<Session>, username: string, script: AdmissionScript): (r: Result<Blob, Cause>)
  {
    match FindByUsername(rows, username)
    case None => LoginResult(script.login)
    case Some(i) =>
      if Refusal(rows[i]).Some? then Err(Http(400, Refusal(rows[i]).value))
      else match script.probe
        case Alive => Ok(rows[i].sessionData)
        case Stale => LoginResult(script.login)
        case ProbeRaised => Err(ClientRaised)
  }

  /** The upsert by username: an existing record gets the new password and
      settings and its flags cleared, keeping its id and counter; otherwise
      a record with the column defaults is appended. */
  function Upsert(rows: seq<Session>, username: string, password: string, data: Blob): seq<Session>
  {
    match FindByUsername(rows, username)
    case Some(i) =>
      rows[i := rows[i].(password := password, sessionData := data,
                         isBlock := false, isChallenge := false, isTempBlock := false)]
    case None => rows + [NewSession(NextSessionId(rows), username, password, data)]
  }

  /** A flagged record is refused with its reason and never reaches the
      database step; every refusal carries a 400 inside the 500. */
  lemma RefusedIsNotAdmitted(rows: seq<Session>, username: string, script: AdmissionScript)
    requires FindByUsername(rows, username).Some?
    requires !Eligible(rows[FindByUsername(rows, username).value])
    ensures var s := rows[FindByUsername(rows, username).value];
      Readiness(rows, username, script) == Err(Http(400, Refusal(s).value))
  {
  }

  /** A client exception stops the admission exactly when the probe of a
      flag-free record raises anything but a required login, or the login
      that admission needs raises; the exception itself is then the
      cause carried by the 500. */
  lemma ClientErrorsSurface(rows: seq<Session>, username: string, script: AdmissionScript)
    ensures Readiness(rows, username, script) == Err(ClientRaised) <==>
      (FindByUsername(rows, username).None? && script.login.LoginRaised?) ||
      (FindByUsername(rows, username).Some? && Eligible(rows[FindByUsername(rows, username).value]) &&
        (script.probe.ProbeRaised? || (script.probe.Stale? && script.login.LoginRaised?)))
  {
    match FindByUsername(rows, username)
    case None =>
    case Some(i) =>
      assert Refusal(rows[i]).None? <==> Eligible(rows[i]);
  }

  /** The admission reaches the database step only for a flag-free record
      whose settings still work or after a truthy login, and then the
      settings stored are exactly what the client exports. */
  lemma ReadyCases(rows: seq<Session>, username: string, script: AdmissionScript)
    ensures Readiness(rows, username, script).Ok? <==>
      (FindByUsername(rows, username).None? && script.login.LoginOk?) ||
      (FindByUsername(rows, username).Some? && Eligible(rows[FindByUsername(rows, username).value]) &&
        (script.probe.Alive? || (script.probe.Stale? && script.login.LoginOk?)))
    ensures Readiness(rows, username, script).Ok? ==>
      Readiness(rows, username, script).value ==
        if FindByUsername(rows, username).Some? && script.probe.Alive?
        then rows[FindByUsername(rows, username).value].sessionData
        else script.login.settings
  {
    match FindByUsername(rows, username)
    case None =>
    case Some(i) =>
      assert Refusal(rows[i]).None? <==> Eligible(rows[i]);
  }

  /** After the upsert exactly one record carries the username. It is
      flag-free and holds the new password and settings; a record that
      existed keeps its id and counter, a new one starts at zero uses.
      Every other record is unchanged and the keys stay unique. */
  lemma UpsertEffect(rows: seq<Session>, username: string, password: string, data: Blob)
    requires UniqueIds(rows) && UniqueUsernames(rows)
    ensures var r := Upsert(rows, username, password, data);
      var i := FindByUsername(r, username);
      UniqueIds(r) && UniqueUsernames(r) &&
      i.Some? && Eligible(r[i.value]) &&
      r[i.value].password == password && r[i.value].sessionData == data &&
      (forall j :: 0 <= j < |r| && j != i.value ==> r[j].username != username) &&
      (forall j :: 0 <= j < |rows| && rows[j].username != username ==> r[j] == rows[j]) &&
      (FindByUsername(rows, username).Some? ==>
        |r| == |rows| &&
        r[i.value].id == rows[i.value].id && r[i.value].numberOfUse == rows[i.value].numberOfUse) &&
      (FindByUsername(rows, username).None? ==>
        |r| == |rows| + 1 && i.value == |rows| && r[i.value].numberOfUse == 0)
  {
    var r := Upsert(rows, username, password, data);
    match FindByUsername(rows, username)
    case Some(i) =>
      assert forall j :: 0 <= j < |r| ==> r[j].id == rows[j].id && r[j].username == rows[j].username;
      assert forall j :: 0 <= j < i ==> r[j].username != username;
    case None =>
      assert forall j :: 0 <= j < |rows| ==> r[j] == rows[j];
      assert forall j :: 0 <= j < |rows| ==> rows[j].id < r[|rows|].id && rows[j].username != username;
      assert FindByUsername(r, username) == Some(|rows|);
  }

  /** Admitting the same credential twice with the same settings stores
      the same table as admitting it once. */
  lemma UpsertIdempotent(rows: seq<Session>, username: string, password: string, data: Blob)
    requires UniqueIds(rows) && UniqueUsernames(rows)
    ensures var r := Upsert(rows, username, password, data);
      Upsert(r, username, password, data) == r
  {
    var r := Upsert(rows, username, password, data);
    UpsertEffect(rows, username, password, data);
    var i := FindByUsername(r, username).value;
    assert r[i := r[i].(password := password, sessionData := data,
                        isBlock := false, isChallenge := false, isTempBlock := false)] == r;
  }

  /** `InstagramSessionManager`: one admission request for a credential,
      with the platform client's settings as its mutable state. */
  class SessionManager {
    const username: string
    const password: string
    const db: Store
    var settings: Blob

    /** A manager with a newly configured client, whose settings are the
        client's generated defaults. */
    constructor (username: string, password: string, db: Store, defaults: Blob)
      ensures this.username == username && this.password == password && this.db == db
      ensures settings == defaults
    {
      this.username := username;
      this.password := password;
      this.db := db;
      settings := defaults;
    }

    /** `init_session`: refuse a flagged record, bring the client to a
        logged-in state, then upsert the record. Success answers with the
        requested username; every failure is a 500 carrying its cause and
        leaves the table as it was. */
    method InitSession(script: AdmissionScript) returns (r: Result<AdmissionResponse, AdmissionError>)
      requires db.Valid()
      modifies this`settings, db
      ensures db.Valid() && db.posts == old(db.posts)
      ensures var ready := Readiness(old(db.sessions), username, script);
        (r.Ok? <==> ready.Ok? && script.commitOk) &&
        (r.Ok? ==>
          r.value == AdmissionResponse("success", "Session initialized successfully", username) &&
          settings == ready.value &&
          db.sessions == Upsert(old(db.sessions), username, password, ready.value)) &&
        (r.Err? ==>
          db.sessions == old(db.sessions) &&
          r.error == AdmissionError(500, if ready.Err? then ready.error else CommitFailed))
    {
      var found := FindByUsername(db.sessions, username);
      if found.Some? {
        var existing := db.sessions[found.value];
        if existing.isBlock {
          return Err(AdmissionError(500, Http(400, "Account is blocked")));
        }
        if existing.isChallenge {
          return Err(AdmissionError(500, Http(400, "Challenge required")));
        }
        if existing.isTempBlock {
          return Err(AdmissionError(500, Http(400, "Account is temporarily blocked")));
        }
        settings := existing.sessionData;
        match script.probe {
          case Alive =>
          case ProbeRaised =>
            return Err(AdmissionError(500, ClientRaised));
          case Stale =>
            var failure := PerformLogin(script.login);
            if failure.Some? {
              return Err(AdmissionError(500, failure.value));
            }
        }
      } else {
        var failure := PerformLogin(script.login);
        if failure.Some? {
          return Err(AdmissionError(500, failure.value));
        }
      }
      var committed := UpdateDatabase(script.commitOk);
      if !committed {
        return Err(AdmissionError(500, CommitFailed));
      }
      return Ok(AdmissionResponse("success", "Session initialized successfully", username));
    }

    /** `_perform_login`: a truthy login leaves the client with the
        settings it exports; a falsy one is a 400 "Login failed"; an
        exception from the client propagates. */
    method PerformLogin(c: LoginCall) returns (failure: Option<Cause>)
      modifies this`settings
      ensures failure.None? <==> LoginResult(c).Ok?
      ensures failure.None? ==> settings == LoginResult(c).value
      ensures failure.Some? ==> failure.value == LoginResult(c).error && settings == old(settings)
    {
      match c {
        case LoginOk(b) =>
          settings := b;
          return None;
        case LoginFalsy =>
          return Some(Http(400, "Login failed"));
        case LoginRaised =>
          return Some(ClientRaised);
      }
    }

    /** `_update_database`: the upsert of the record of `username` with
        the client's current settings is committed, or on a failing commit
        rolled back so that the table is as before. */
    method UpdateDatabase(commitOk: bool) returns (committed: bool)
      requires db.Valid()
      modifies db
      ensures db.Valid() && db.posts == old(db.posts)
      ensures committed == commitOk
      ensures committed ==> db.sessions == Upsert(old(db.sessions), username, password, settings)
      ensures !committed ==> db.sessions == old(db.sessions)
    {
      var rows := db.sessions;
      var found := FindByUsername(rows, username);
      if found.Some? {
        var i := found.value;
        rows := rows[i := rows[i].(password := password, sessionData := settings,
                                   isBlock := false, isChallenge := false, isTempBlock := false)];
      } else {
        rows := rows + [NewSession(NextSessionId(rows), username, password, settings)];
      }
      if !commitOk {
        return false;
      }
      UpsertEffect(db.sessions, username, password, settings);
      db.sessions := rows;
      return true;
    }
  }
}

/** The hashtag reader over a client: recent media of a hashtag with the
    client's exceptions turned into HTTP errors, and two pass-through
    lookups. Each client call is given by its outcome. */
module HashtagFetcher {
  import opened Common
  import opened Platform

  /** The detail of the HTTP error raised for a failed media request. */
  datatype MediaError = MediaError(status: int, code: string, message: string, errorDetails: Option<string>)

  /** The `except` clauses of `get_hashtag_medias`, tried in order: the
      first class the exception is an instance of decides the answer. */
  function MediaErrorFor(e: ClientException): (r: MediaError)
    ensures LoginRequiredError in e.classes ==>
      r == MediaError(401, "LOGIN_REQUIRED", "Instagram session expired. Please login again.", None)
    ensures LoginRequiredError !in e.classes && ClientLoginRequiredError in e.classes ==>
      r == MediaError(401, "CLIENT_LOGIN_REQUIRED", "Instagram authentication required. Please login first.", None)
    ensures (LoginRequiredError !in e.classes && ClientLoginRequiredError !in e.classes &&
             RateLimitError in e.classes) ==>
      r == MediaError(429, "RATE_LIMIT", "Too many requests. Please try again later.", None)
    ensures (LoginRequiredError !in e.classes && ClientLoginRequiredError !in e.classes &&
             RateLimitError !in e.classes && ClientError in e.classes) ==>
      r == MediaError(400, "CLIENT_ERROR", e.text, None)
    ensures (LoginRequiredError !in e.classes && ClientLoginRequiredError !in e.classes &&
             RateLimitError !in e.classes && ClientError !in e.classes) ==>
      r == MediaError(500, "UNKNOWN_ERROR", "An unexpected error occurred while fetching hashtag data.", Some(e.text))
  {
    if LoginRequiredError in e.classes then
      MediaError(401, "LOGIN_REQUIRED", "Instagram session expired. Please login again.", None)
    else if ClientLoginRequiredError in e.classes then
      MediaError(401, "CLIENT_LOGIN_REQUIRED", "Instagram authentication required. Please login first.", None)
    else if RateLimitError in e.classes then
      MediaError(429, "RATE_LIMIT", "Too many requests. Please try again later.", None)
    else if ClientError in e.classes then
      MediaError(400, "CLIENT_ERROR", e.text, None)
    else
      MediaError(500, "UNKNOWN_ERROR", "An unexpected error occurred while fetching hashtag data.", Some(e.text))
  }

  /** Which status each exception gets, stated per status and in both
      directions: 401 exactly for a login class, 429 for a rate limit that
      is not a login class, 400 for the remaining client errors, 500 for
      everything else. */
  lemma StatusByClass(e: ClientException)
    ensures MediaErrorFor(e).status == 401 <==>
      (LoginRequiredError in e.classes || ClientLoginRequiredError in e.classes)
    ensures MediaErrorFor(e).status == 429 <==>
      (LoginRequiredError !in e.classes && ClientLoginRequiredError !in e.classes && RateLimitError in e.classes)
    ensures MediaErrorFor(e).status == 400 <==>
      (e.classes * {LoginRequiredError, ClientLoginRequiredError, RateLimitError} == {} && ClientError in e.classes)
    ensures MediaErrorFor(e).status == 500 <==>
      e.classes * {LoginRequiredError, ClientLoginRequiredError, RateLimitError, ClientError} == {}
  {
    var earlier := {LoginRequiredError, ClientLoginRequiredError, RateLimitError};
    var listed := earlier + {ClientError};
    forall x | x in e.classes && x in listed
      ensures x in e.classes * listed
    {
    }
    forall x | x in e.classes && x in earlier
      ensures x in e.classes * earlier
    {
    }
  }

  /** Only the classes listed before the first matching one matter: adding
      classes the exception does not reach changes nothing once a login
      class is present. */
  lemma LoginClassesWin(e: ClientException, extra: set<ErrorClass>)
    requires LoginRequiredError in e.classes || ClientLoginRequiredError in e.classes
    requires LoginRequiredError in extra ==> LoginRequiredError in e.classes
    ensures MediaErrorFor(e.(classes := e.classes + extra)) == MediaErrorFor(e)
  {
  }

  /** `get_hashtag_medias`: the client's list unchanged, or the error its
      exception maps to. */
  function GetHashtagMedias(outcome: Result<seq<Media>, ClientException>): (r: Result<seq<Media>, MediaError>)
    ensures r.Ok? <==> outcome.Ok?
    ensures r.Ok? ==> r.value == outcome.value
    ensures r.Err? ==> r.error == MediaErrorFor(outcome.error)
  {
    match outcome
    case Ok(ms) => Ok(ms)
    case Err(e) => Err(MediaErrorFor(e))
  }

  /** `get_hashtag_info` and `get_top_posts`: whatever the client answers
      or raises is passed on unchanged. */
  function PassThrough<T>(outcome: Result<T, ClientException>): (r: Result<T, ClientException>)
    ensures r == outcome
  {
    outcome
  }
}

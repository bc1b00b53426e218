/** The values the platform client library hands to the application: media
    items with their resources and author, and the settings document a
    client exports and imports. The client's network calls themselves are
    not modelled; each operation that uses them takes their outcome as a
    parameter. */
module Platform {
  import opened Common

  /** A client's settings document. Only its device identifiers (`uuids`)
      are looked at by the application; everything else is opaque. */
  datatype Blob = Blob(uuids: string, state: string)

  /** The settings of a client after `set_settings({})`. */
  const EmptySettings := Blob("", "")

  /** One image or video of a (possibly multi-part) media item. */
  datatype Resource = Resource(mediaType: int, thumbnailUrl: Option<string>, videoUrl: Option<string>)

  /** The author summary attached to a media item. */
  datatype UserShort = UserShort(pk: string, username: string, fullName: string, profilePicUrl: Option<string>)

  /** A media item as the client returns it; `takenAt` is a timestamp. */
  datatype Media = Media(
    id: string,
    code: string,
    takenAt: int,
    mediaType: int,
    thumbnailUrl: Option<string>,
    captionText: string,
    likeCount: int,
    commentCount: int,
    videoUrl: Option<string>,
    resources: seq<Resource>,
    user: UserShort)

  /** The client's exception classes the application tells apart. */
  datatype ErrorClass =
    | LoginRequiredError
    | ClientLoginRequiredError
    | RateLimitError
    | ClientError
    | ChallengeRequiredError

  /** An exception raised by the client: the set of the listed classes it
      is an instance of (empty for any other exception), its text, and the
      phone number a challenge's text carries, if any. */
  datatype ClientException = ClientException(classes: set<ErrorClass>, text: string, phoneNumber: Option<string>)

  /** Python's `str()` of an optional URL: an absent one reads "None". */
  function UrlText(u: Option<string>): string
  {
    if u.Some? then u.value else "None"
  }
}

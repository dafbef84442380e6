/** The rows of the five tables (Users, Songs, SwipeSessions, Swipes,
    Playlists), the track payloads that arrive from the search provider or
    from the client, and the constants both server files share. */
module Schema {
  import opened Wrappers

  type Id = string

  /** Seconds on an abstract UTC clock; `datetime.utcnow()` becomes a parameter. */
  type Time = int

  const LEFT: string := "LEFT"
  const RIGHT: string := "RIGHT"
  const UNKNOWN_ARTIST: string := "Unknown Artist"
  const UNKNOWN_TITLE: string := "Unknown Title"
  const UNKNOWN_ALBUM: string := "Unknown Album"

  const HTTP_OK: int := 200
  const HTTP_BAD_REQUEST: int := 400
  const HTTP_UNAUTHORIZED: int := 401
  const HTTP_NOT_FOUND: int := 404
  const HTTP_INTERNAL_SERVER_ERROR: int := 500

  /** Python truthiness of an optional string: present and not empty. */
  predicate Truthy(s: Option<string>) {
    s.Some? && s.value != ""
  }

  datatype Status = Active | Completed | Abandoned

  datatype UserRow = UserRow(
    displayName: Option<string>,
    email: Option<string>,
    accessToken: Option<string>,
    refreshToken: Option<string>,
    tokenExpiresAt: Option<Time>)

  /** A Songs row. Rows inserted by this server never set `spotifyUri`. */
  datatype SongRow = SongRow(
    songId: Id,
    spotifyId: Option<string>,
    spotifyUri: Option<string>,
    title: string,
    artist: string,
    previewUrl: Option<string>,
    albumCover: string,
    popularity: int,
    lastUpdated: Time)

  datatype SessionRow = SessionRow(
    userId: string,
    targetPlaylistLength: int,
    preferences: string,
    status: Status,
    creationDate: Time,
    completionDate: Option<Time>)

  /** A Swipes row; `direction` is the string the client sent. */
  datatype SwipeRow = SwipeRow(
    swipeId: Id,
    sessionId: Id,
    songId: Id,
    direction: string,
    order: nat,
    timestamp: Time)

  datatype PlaylistRow = PlaylistRow(
    userId: string,
    spotifyPlaylistId: string,
    name: string,
    description: string,
    creationDate: Time)

  // Track payloads. `None` stands for a key that is absent from the JSON
  // object; an absent `album` object behaves as `Album(None, None, [])`,
  // and an absent or empty `artists` list as `[]`.

  datatype Image = Image(url: Option<string>)

  /** The `album` value of a track: a JSON object, or something else (the
      album name string of a processed track, say), on which `.get` raises. */
  datatype Album =
    | Album(name: Option<string>, releaseDate: Option<string>, images: seq<Image>)
    | NotAnObject(text: string)

  datatype Artist = Artist(name: Option<string>)

  /** A track object: the keys the server reads from a search result, plus
      `spotifyId`, the key the client puts into the track it swipes. */
  datatype Track = Track(
    id: Option<string>,
    spotifyId: Option<string>,
    name: Option<string>,
    artists: seq<Artist>,
    album: Album,
    uri: Option<string>,
    popularity: Option<int>,
    explicit: Option<bool>,
    externalUrl: Option<string>,
    previewUrl: Option<string>)
}

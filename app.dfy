/** The request handlers of server/app.py that carry logic of their own:
    `get_fresh_spotify_token`, `get_song`, `record_swipe`,
    `create_swipe_session`, `check_auth` and `add_tracks_to_playlist`. Each
    handler is a method over one `Store`; the request body is a set of
    optional fields (None for a missing key), and every call into the
    identity provider, the search provider or the preview provider is an
    oracle parameter. */
module App {
  import opened Wrappers
  import opened Schema
  import opened Tables
  import opened Database
  import Tokens
  import Catalog
  import Batching

  /** `str(KeyError(key))`: what a handler answers for a missing key. */
  function MissingKey(key: string): string {
    "'" + key + "'"
  }

  // ------------------------------------------------------------------
  // get_fresh_spotify_token
  // ------------------------------------------------------------------

  /** `get_fresh_spotify_token(user_data)` for the user `spotifyId` whose
      row is `user`: the stored token while it is valid, else a refresh
      whose answer is written back to the Users table. */
  method FreshToken(db: Store, spotifyId: string, user: UserRow, now: Time, refresh: Tokens.Refresher)
    returns (r: Result<Option<string>>)
    requires db.Valid()
    modifies db`users
    ensures db.Valid()
    ensures r == Tokens.TokenOutcome(user, now, refresh, db.online)
    ensures r.Ok? && !Tokens.StillValid(user.tokenExpiresAt, now) && spotifyId in old(db.users) ==>
              var renewed := Tokens.Refreshed(user, Tokens.RefreshAnswer(user, refresh).value, now);
              db.users == old(db.users)[spotifyId := old(db.users)[spotifyId].(accessToken := renewed.accessToken,
                                          refreshToken := renewed.refreshToken, tokenExpiresAt := renewed.tokenExpiresAt)]
    ensures r.Ok? && !Tokens.StillValid(user.tokenExpiresAt, now) && old(db.GetUser(spotifyId)) == Some(user) ==>
              db.users[spotifyId] == Tokens.Refreshed(user, Tokens.RefreshAnswer(user, refresh).value, now)
    ensures r.Err? || Tokens.StillValid(user.tokenExpiresAt, now) || spotifyId !in old(db.users) ==>
              db.users == old(db.users)
  {
    if Tokens.StillValid(user.tokenExpiresAt, now) {
      return Ok(user.accessToken);
    }
    var answer := Tokens.RefreshAnswer(user, refresh);
    if answer.None? {
      return Err(Tokens.AUTH_REQUIRED);
    }
    var info := answer.value;
    var renewed := Tokens.Refreshed(user, info, now);
    var stored := db.UpdateUserTokens(spotifyId, info.accessToken, renewed.refreshToken, now + info.expiresIn);
    if stored.Err? {
      return Err(Tokens.AUTH_REQUIRED);
    }
    r := Ok(Some(info.accessToken));
  }

  /** The Users table after `get_fresh_spotify_token` for a user that
      exists: the renewed tokens written into the user's row when a
      refresh succeeded, and no change otherwise. */
  ghost predicate RenewedUsers(before: map<string, UserRow>, spotifyId: string, user: UserRow, now: Time,
                               refresh: Tokens.Refresher, online: bool, after: map<string, UserRow>)
  {
    var token := Tokens.TokenOutcome(user, now, refresh, online);
    if token.Ok? && !Tokens.StillValid(user.tokenExpiresAt, now) && spotifyId in before then
      var renewed := Tokens.Refreshed(user, Tokens.RefreshAnswer(user, refresh).value, now);
      after == before[spotifyId := before[spotifyId].(accessToken := renewed.accessToken,
                                      refreshToken := renewed.refreshToken, tokenExpiresAt := renewed.tokenExpiresAt)]
    else
      after == before
  }

  // ------------------------------------------------------------------
  // get_song
  // ------------------------------------------------------------------

  const ANONYMOUS: string := "anonymous"

  /** The query string of `get_song`. */
  datatype SongQuery = SongQuery(genre: Option<string>, limit: Option<int>, spotifyId: Option<string>,
                                 sessionId: Option<string>)

  /** The 200 reply with its tracks, or the 400 reply. */
  datatype SongsReply = SongsFound(tracks: seq<Catalog.ProcessedTrack>) | NoSongsFound(message: string)
  {
    function Code(): int {
      if SongsFound? then HTTP_OK else HTTP_BAD_REQUEST
    }
  }

  /** The provider ids to filter out: those of the session, when one is given. */
  function SeenFor(db: Store, q: SongQuery): set<string>
    reads db
  {
    if Truthy(q.sessionId) then db.SessionSeenSongs(q.spotifyId.GetOr(ANONYMOUS), q.sessionId.value) else {}
  }

  /** `get_song`: searches, filters, de-duplicates and truncates, then
      processes each selected track and, within a session, records it in
      the Songs table. `trackIds(i)` is the `uuid4` of the i-th selected
      track, `songIds(i)` the one its Songs row would get. */
  method GetSong(db: Store, q: SongQuery, search: string -> Catalog.SearchResult,
                 preview: (string, string) -> Option<string>, trackIds: nat -> string, songIds: nat -> Id, now: Time)
    returns (r: SongsReply)
    requires db.Valid()
    modifies db`songs
    ensures db.Valid()
    ensures var genres := Catalog.ParseGenres(q.genre);
            var served := Catalog.Served(genres, Catalog.EffectiveLimit(q.limit), search, old(SeenFor(db, q)),
                                         preview, trackIds);
            && (served.None? ==> r == NoSongsFound(Catalog.NoSongsMessage(genres)))
            && (served.Some? ==> r == SongsFound(served.value))
    ensures old(db.songs) <= db.songs
    ensures !Truthy(q.sessionId) || !db.online || r.NoSongsFound? ==> db.songs == old(db.songs)
    ensures Truthy(q.sessionId) && db.online && r.SongsFound? ==>
              var genres := Catalog.ParseGenres(q.genre);
              var selected := Catalog.Selected(genres, Catalog.EffectiveLimit(q.limit), search, old(SeenFor(db, q)));
              db.songs == Catalog.StoredSongs(old(db.songs), selected, songIds, now)
  {
    var genres := Catalog.ParseGenres(q.genre);
    var limit := Catalog.EffectiveLimit(q.limit);
    var seen := SeenFor(db, q);
    var all, _ := Catalog.CollectCandidates(genres, search, seen);
    var unique := Catalog.Dedup(all);
    if unique == [] {
      return NoSongsFound(Catalog.NoSongsMessage(genres));
    }
    var selected := Catalog.SliceTo(unique, limit);
    Catalog.SelectedProcessable(all, limit, seen);
    var processed := ProcessSelected(db, selected, q.sessionId, preview, trackIds, songIds, now);
    r := SongsFound(processed);
  }

  /** The processing loop of `get_song`: a track whose first artist has no
      name raises before anything else; within a session the track is then
      recorded in the Songs table; a missing image URL raises after that. */
  method ProcessSelected(db: Store, selected: seq<Track>, sessionId: Option<string>,
                         preview: (string, string) -> Option<string>, trackIds: nat -> string, songIds: nat -> Id,
                         now: Time)
    returns (processed: seq<Catalog.ProcessedTrack>)
    requires db.Valid()
    requires forall t :: t in selected ==> Catalog.Processable(t)
    modifies db`songs
    ensures db.Valid()
    ensures processed == Catalog.ProcessAll(selected, preview, trackIds)
    ensures old(db.songs) <= db.songs
    ensures !Truthy(sessionId) || !db.online ==> db.songs == old(db.songs)
    ensures Truthy(sessionId) && db.online ==> db.songs == Catalog.StoredSongs(old(db.songs), selected, songIds, now)
  {
    processed := [];
    for i := 0 to |selected|
      invariant db.Valid()
      invariant processed == Catalog.ProcessAll(selected[..i], preview, trackIds)
      invariant old(db.songs) <= db.songs
      invariant !Truthy(sessionId) || !db.online ==> db.songs == old(db.songs)
      invariant Truthy(sessionId) && db.online ==> db.songs == Catalog.StoredSongs(old(db.songs), selected[..i], songIds, now)
    {
      var track := selected[i];
      assert selected[..i + 1][..i] == selected[..i];
      assert selected[..i + 1][i] == track;
      assert track in selected;
      if track.artists[0].name.Some? {
        var previewUrl := Catalog.PreviewFor(track, preview);
        if Truthy(sessionId) {
          var _ := db.AddSongToSession(sessionId.value, track.id.value, track, songIds(i), now);
        }
        var step := Catalog.ProcessTrack(track, previewUrl, trackIds(i));
        if step.Some? {
          processed := processed + [step.value];
        }
      }
    }
    assert selected[..|selected|] == selected;
  }

  // ------------------------------------------------------------------
  // record_swipe
  // ------------------------------------------------------------------

  const ADD_SONG_FAILED: string := "Failed to add song to database"

  /** The 200 reply with the swipe id, or the 500 reply with `str(e)`. */
  datatype SwipeReply = SwipeRecorded(swipeId: Id) | SwipeFailed(message: string)
  {
    function Code(): int {
      if SwipeRecorded? then HTTP_OK else HTTP_INTERNAL_SERVER_ERROR
    }
  }

  /** The first key the handler reads and does not find, in the order it
      reads them. */
  function SwipeBodyError(sessionId: Option<Id>, songData: Option<Track>, direction: Option<string>)
    : (r: Option<string>)
    ensures r.None? <==> sessionId.Some? && songData.Some? && direction.Some? && songData.value.spotifyId.Some?
  {
    if sessionId.None? then Some(MissingKey("session_id"))
    else if songData.None? then Some(MissingKey("song_data"))
    else if direction.None? then Some(MissingKey("direction"))
    else if songData.value.spotifyId.None? then Some(MissingKey("spotify_id"))
    else None
  }

  /** The `record_swipe` handler: makes sure the swiped track has a Songs
      row, then records the swipe against that row. `songId` is the `uuid4`
      a new Songs row would get, `swipeId` the swipe's. */
  method RecordSwipeRoute(db: Store, sessionId: Option<Id>, songData: Option<Track>, direction: Option<string>,
                          songId: Id, swipeId: Id, now: Time)
    returns (r: SwipeReply)
    requires db.Valid()
    modifies db`songs, db`swipes
    ensures db.Valid()
    ensures SwipeBodyError(sessionId, songData, direction).Some? ==>
              && r == SwipeFailed(SwipeBodyError(sessionId, songData, direction).value)
              && db.songs == old(db.songs) && db.swipes == old(db.swipes)
    ensures SwipeBodyError(sessionId, songData, direction).None? && !db.online ==>
              r == SwipeFailed(ADD_SONG_FAILED) && db.songs == old(db.songs) && db.swipes == old(db.swipes)
    ensures SwipeBodyError(sessionId, songData, direction).None? && db.online ==>
              var u := SongUpsert(old(db.songs), songData.value.spotifyId.value, songData.value, songId, now);
              && db.songs == u.rows
              && (!Truthy(u.songId) ==> r == SwipeFailed(ADD_SONG_FAILED) && db.swipes == old(db.swipes))
              && (Truthy(u.songId) ==>
                    && (r.SwipeRecorded? <==> sessionId.value in db.sessions && !HasSwipeId(old(db.swipes), swipeId))
                    && (r.SwipeRecorded? ==>
                          && r.swipeId == swipeId
                          && db.swipes == WithSwipe(old(db.swipes), swipeId, sessionId.value, u.songId.value, direction.value, now))
                    && (r.SwipeFailed? ==> r.message == INSERT_REJECTED && db.swipes == old(db.swipes)))
    ensures SwipeBodyError(sessionId, songData, direction).None? && songData.value.album.NotAnObject?
            && SongIdFor(old(db.songs), BySpotifyId(songData.value.spotifyId.value)).None? ==>
              r == SwipeFailed(ADD_SONG_FAILED) && db.songs == old(db.songs) && db.swipes == old(db.swipes)
  {
    var bodyError := SwipeBodyError(sessionId, songData, direction);
    if bodyError.Some? {
      return SwipeFailed(bodyError.value);
    }
    var track := songData.value;
    ghost var u := SongUpsert(db.songs, track.spotifyId.value, track, songId, now);
    var added := db.AddSongToSession(sessionId.value, track.spotifyId.value, track, songId, now);
    assert db.online ==> added == u.songId && db.songs == u.rows;
    if !Truthy(added) {
      return SwipeFailed(ADD_SONG_FAILED);
    }
    r := SwipeOnSong(db, sessionId.value, added.value, direction.value, swipeId, now);
  }

  /** As written, a track the Songs table does not hold yet cannot be
      swiped in the shape `get_song` serves it: its `album` is the album
      name string, reading the cover from it raises inside
      `add_song_to_session`, and the upsert stores nothing and yields no
      id, so the route answers 'Failed to add song to database'. */
  lemma ServedTrackNotStoredOnSwipe(songs: seq<SongRow>, p: Catalog.ProcessedTrack, freshId: Id, now: Time)
    requires SongIdFor(songs, BySpotifyId(p.spotifyId)).None?
    ensures SwipeBodyError(Some(freshId), Some(Catalog.AsSongData(p)), Some(RIGHT)).None?
    ensures SongUpsert(songs, p.spotifyId, Catalog.AsSongData(p), freshId, now) == Upserted(songs, None)
  {
  }

  /** With the cover read from the album only when it is an object, the
      same swipe stores the track under the fresh id, with its title and
      an empty cover, and later lookups by its provider id find it. */
  lemma ServedTrackStoredOnSwipeCorrected(songs: seq<SongRow>, p: Catalog.ProcessedTrack, freshId: Id, now: Time)
    requires SongIdFor(songs, BySpotifyId(p.spotifyId)).None?
    requires !HasSongId(songs, freshId)
    ensures var u := SongUpsertCorrected(songs, p.spotifyId, Catalog.AsSongData(p), freshId, now);
            && u.songId == Some(freshId)
            && SongIdFor(u.rows, BySpotifyId(p.spotifyId)) == Some(freshId)
            && u.rows[|songs|].title == p.name && u.rows[|songs|].albumCover == ""
  {
    var t := Catalog.AsSongData(p);
    SongIdForAppend(songs, NewSongRow(freshId, p.spotifyId, t.(album := AlbumObject(t.album)), now),
                    BySpotifyId(p.spotifyId));
  }

  /** The second half of the `record_swipe` handler: the swipe on a song
      whose row exists; `str(e)` of a failed insert is the reply. */
  method SwipeOnSong(db: Store, sessionId: Id, songId: Id, direction: string, swipeId: Id, now: Time)
    returns (r: SwipeReply)
    requires db.Valid()
    requires db.online && HasSongId(db.songs, songId)
    modifies db`swipes
    ensures db.Valid()
    ensures r.SwipeRecorded? <==> sessionId in db.sessions && !HasSwipeId(old(db.swipes), swipeId)
    ensures r.SwipeRecorded? ==>
              && r.swipeId == swipeId
              && db.swipes == WithSwipe(old(db.swipes), swipeId, sessionId, songId, direction, now)
    ensures r.SwipeFailed? ==> r.message == INSERT_REJECTED && db.swipes == old(db.swipes)
  {
    var recorded := db.RecordSwipe(sessionId, songId, direction, swipeId, now);
    if recorded.Err? {
      return SwipeFailed(recorded.message);
    }
    r := SwipeRecorded(recorded.value);
  }

  // ------------------------------------------------------------------
  // create_swipe_session
  // ------------------------------------------------------------------

  const DEFAULT_TARGET: int := 20
  /** `json.dumps({})`, the default preferences. */
  const NO_PREFERENCES: string := "{}"
  const SPOTIFY_ID_REQUIRED: string := "Spotify ID is required"
  const CREATE_FAILED: string := "Failed to create swipe session: "

  /** The 200 reply with the new session, or an error reply. */
  datatype SessionReply =
    | SessionCreated(sessionId: Id, spotifyId: string, targetPlaylistLength: int)
    | SessionRejected(code: int, message: string)

  /** The `create_swipe_session` handler. `preferences` is the JSON text of
      `session_preferences`; `sessionId` is the new `uuid4`. */
  method CreateSwipeSession(db: Store, spotifyId: Option<string>, target: Option<int>, preferences: Option<string>,
                            sessionId: Id, now: Time)
    returns (r: SessionReply)
    requires db.Valid()
    modifies db`sessions
    ensures db.Valid()
    ensures !Truthy(spotifyId) ==>
              r == SessionRejected(HTTP_BAD_REQUEST, SPOTIFY_ID_REQUIRED) && db.sessions == old(db.sessions)
    ensures Truthy(spotifyId) ==>
              (r.SessionCreated? <==> db.online && sessionId !in old(db.sessions) && spotifyId.value in db.users)
    ensures r.SessionCreated? ==>
              && r == SessionCreated(sessionId, spotifyId.value, target.GetOr(DEFAULT_TARGET))
              && db.sessions == old(db.sessions)[sessionId := SessionRow(spotifyId.value, target.GetOr(DEFAULT_TARGET),
                                                      preferences.GetOr(NO_PREFERENCES), Active, now, None)]
    ensures Truthy(spotifyId) && r.SessionRejected? ==>
              r.code == HTTP_INTERNAL_SERVER_ERROR && db.sessions == old(db.sessions)
  {
    var targetLength := target.GetOr(DEFAULT_TARGET);
    var prefs := preferences.GetOr(NO_PREFERENCES);
    if !Truthy(spotifyId) {
      return SessionRejected(HTTP_BAD_REQUEST, SPOTIFY_ID_REQUIRED);
    }
    var inserted := db.InsertSession(sessionId, spotifyId.value, targetLength, prefs, now);
    if inserted.Err? {
      return SessionRejected(HTTP_INTERNAL_SERVER_ERROR, CREATE_FAILED + inserted.message);
    }
    r := SessionCreated(sessionId, spotifyId.value, targetLength);
  }

  // ------------------------------------------------------------------
  // check_auth
  // ------------------------------------------------------------------

  const USER_NOT_FOUND: string := "User not found"
  const AUTH_MISSING: string := "Authentication required"
  const AUTH_INVALID: string := "Authentication or permissions invalid"
  const AUTH_OK: string := "User is authenticated with playlist permissions"

  /** The reply of `check_auth`. */
  datatype AuthCheck = AuthCheck(code: int, needsAuth: bool, message: string)

  /** The `check_auth` handler. `playlistsReadable` is the provider's answer
      to the playlist listing made with the renewed token. */
  method CheckAuth(db: Store, spotifyId: string, now: Time, refresh: Tokens.Refresher, playlistsReadable: bool)
    returns (r: AuthCheck)
    requires db.Valid()
    modifies db`users
    ensures db.Valid()
    ensures old(db.GetUser(spotifyId)).None? ==>
              r == AuthCheck(HTTP_NOT_FOUND, true, USER_NOT_FOUND) && db.users == old(db.users)
    ensures old(db.GetUser(spotifyId)).Some? && !Tokens.HasTokens(old(db.GetUser(spotifyId)).value) ==>
              r == AuthCheck(HTTP_OK, true, AUTH_MISSING) && db.users == old(db.users)
    ensures old(db.GetUser(spotifyId)).Some? && Tokens.HasTokens(old(db.GetUser(spotifyId)).value) ==>
              var valid := Tokens.TokenOutcome(old(db.GetUser(spotifyId)).value, now, refresh, db.online).Ok?
                           && playlistsReadable;
              r == if valid then AuthCheck(HTTP_OK, false, AUTH_OK) else AuthCheck(HTTP_OK, true, AUTH_INVALID)
    ensures old(db.GetUser(spotifyId)).Some? && Tokens.HasTokens(old(db.GetUser(spotifyId)).value) ==>
              RenewedUsers(old(db.users), spotifyId, old(db.GetUser(spotifyId)).value, now, refresh, db.online, db.users)
  {
    var user := db.GetUser(spotifyId);
    if user.None? {
      return AuthCheck(HTTP_NOT_FOUND, true, USER_NOT_FOUND);
    }
    if !Tokens.HasTokens(user.value) {
      return AuthCheck(HTTP_OK, true, AUTH_MISSING);
    }
    var token := FreshToken(db, spotifyId, user.value, now, refresh);
    if token.Ok? && playlistsReadable {
      r := AuthCheck(HTTP_OK, false, AUTH_OK);
    } else {
      r := AuthCheck(HTTP_OK, true, AUTH_INVALID);
    }
  }

  // ------------------------------------------------------------------
  // add_tracks_to_playlist
  // ------------------------------------------------------------------

  const NO_TRACKS: string := "No tracks to add"

  /** The replies of `add_tracks_to_playlist`. */
  datatype TracksReply =
    | MalformedBody(message: string)
    | NoTracksToAdd
    | TracksUserNotFound
    | TokenRejected(message: string)
    | ProviderRejected
    | TracksAdded(added: nat)
  {
    function Code(): int {
      match this
      case MalformedBody(_) => HTTP_INTERNAL_SERVER_ERROR
      case NoTracksToAdd => HTTP_OK
      case TracksUserNotFound => HTTP_NOT_FOUND
      case TokenRejected(_) => HTTP_UNAUTHORIZED
      case ProviderRejected => HTTP_UNAUTHORIZED
      case TracksAdded(_) => HTTP_OK
    }
  }

  /** The `add_tracks_to_playlist` handler. `accepts(k)` is the provider's
      answer to the k-th batch; `sent` are the batches it took. */
  method AddTracksToPlaylist(db: Store, spotifyId: Option<string>, trackUris: Option<seq<string>>, now: Time,
                             refresh: Tokens.Refresher, accepts: nat -> bool)
    returns (r: TracksReply, sent: seq<seq<string>>)
    requires db.Valid()
    modifies db`users
    ensures db.Valid()
    ensures spotifyId.None? ==>
              r == MalformedBody(MissingKey("spotify_id")) && sent == [] && db.users == old(db.users)
    ensures spotifyId.Some? && trackUris.None? ==>
              r == MalformedBody(MissingKey("track_uris")) && sent == [] && db.users == old(db.users)
    ensures spotifyId.Some? && trackUris == Some([]) ==>
              r == NoTracksToAdd && sent == [] && db.users == old(db.users)
    ensures spotifyId.Some? && trackUris.Some? && trackUris.value != [] && old(db.GetUser(spotifyId.value)).None? ==>
              r == TracksUserNotFound && sent == [] && db.users == old(db.users)
    ensures spotifyId.Some? && trackUris.Some? && trackUris.value != [] && old(db.GetUser(spotifyId.value)).Some? ==>
              var token := Tokens.TokenOutcome(old(db.GetUser(spotifyId.value)).value, now, refresh, db.online);
              && (token.Err? ==> r == TokenRejected(token.message) && sent == [])
              && (token.Ok? ==> sent <= Batching.Batches(trackUris.value))
              && (token.Ok? ==> (r == TracksAdded(|trackUris.value|) <==> sent == Batching.Batches(trackUris.value)))
              && (token.Ok? && r != TracksAdded(|trackUris.value|) ==> r == ProviderRejected && !accepts(|sent|))
              && RenewedUsers(old(db.users), spotifyId.value, old(db.GetUser(spotifyId.value)).value, now, refresh,
                              db.online, db.users)
    ensures r.TracksAdded? ==> Batching.Flatten(sent) == trackUris.value
    ensures trackUris.Some? ==> Batching.Flatten(sent) <= trackUris.value
  {
    sent := [];
    if spotifyId.None? {
      return MalformedBody(MissingKey("spotify_id")), sent;
    }
    if trackUris.None? {
      return MalformedBody(MissingKey("track_uris")), sent;
    }
    var uris := trackUris.value;
    if uris == [] {
      return NoTracksToAdd, sent;
    }
    var user := db.GetUser(spotifyId.value);
    if user.None? {
      return TracksUserNotFound, sent;
    }
    var token := FreshToken(db, spotifyId.value, user.value, now, refresh);
    if token.Err? {
      return TokenRejected(token.message), sent;
    }
    var failed;
    sent, failed := Batching.SendBatches(uris, accepts);
    if failed {
      return ProviderRejected, sent;
    }
    Batching.BatchesFlatten(uris);
    r := TracksAdded(|uris|);
  }
}

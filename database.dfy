/** server/database.py: the `Database` class. The MySQL tables become the
    fields of `Store`; `online` says whether a connection can be opened, and
    each operation takes its own error path when it cannot. */
module Database {
  import opened Wrappers
  import opened Schema
  import opened Tables

  /** Stand-ins for `str(e)` of the exceptions the driver raises. */
  const CONNECTION_FAILED: string := "database connection failed"
  const INSERT_REJECTED: string := "insert violates a key constraint"
  const SESSION_NOT_FOUND: string := "Session not found"
  /** What Python raises when a `finally` clause reads a local that the
      failed `get_db_connection()` call never assigned. */
  const UNBOUND_CONN: string := "cannot access local variable 'conn' where it is not associated with a value"

  /** The dictionary `complete_session` returns. */
  datatype Completion = CompleteOk(stats: Stats) | CompleteFailed(error: string)

  class Store {
    var online: bool
    var users: map<string, UserRow>        // Users, keyed by spotify_id
    var sessions: map<Id, SessionRow>      // SwipeSessions, keyed by session_id
    var songs: seq<SongRow>                // Songs, in insertion order
    var swipes: seq<SwipeRow>              // Swipes, in insertion order
    var playlists: map<Id, PlaylistRow>    // Playlists, keyed by playlist_id

    ghost predicate Valid()
      reads this
    {
      Consistent(users, sessions, songs, swipes, playlists)
    }

    constructor (online: bool)
      ensures Valid() && this.online == online
      ensures users == map[] && sessions == map[] && songs == [] && swipes == [] && playlists == map[]
    {
      this.online := online;
      users, sessions, songs, swipes, playlists := map[], map[], [], [], map[];
    }

    /** `get_user`: the Users row, or None when it is missing or the
        database cannot be reached. */
    function GetUser(spotifyId: string): (r: Option<UserRow>)
      reads this
      ensures r.Some? <==> online && spotifyId in users
      ensures r.Some? ==> r.value == users[spotifyId]
    {
      if online && spotifyId in users then Some(users[spotifyId]) else None
    }

    /** `get_user` as written: when no connection can be opened the `except`
        clause returns None, but the `finally` clause then tests the unbound
        `conn` and raises, and that exception replaces the return value. */
    function GetUserAsWritten(spotifyId: string): (r: Result<Option<UserRow>>)
      reads this
      ensures r.Err? <==> !online
      ensures r.Ok? ==> r.value == GetUser(spotifyId)
    {
      if online then Ok(if spotifyId in users then Some(users[spotifyId]) else None)
      else Err(UNBOUND_CONN)
    }

    /** `add_song_to_session`: insert-if-absent keyed by the provider track
        id. `sessionId` is accepted and, as in the source, not used. */
    method AddSongToSession(sessionId: Id, spotifyId: string, track: Track, freshId: Id, now: Time)
      returns (r: Option<Id>)
      requires Valid()
      modifies this`songs
      ensures Valid()
      ensures !online ==> r.None? && songs == old(songs)
      ensures online ==> Upserted(songs, r) == SongUpsert(old(songs), spotifyId, track, freshId, now)
      ensures old(songs) <= songs
      ensures r.Some? ==> HasSongId(songs, r.value)
    {
      if !online {
        return None;
      }
      var u := SongUpsert(songs, spotifyId, track, freshId, now);
      SongUpsertKeepsRows(songs, spotifyId, track, freshId, now);
      assert forall id :: HasSongId(songs, id) ==> HasSongId(u.rows, id) by {
        forall id | HasSongId(songs, id) ensures HasSongId(u.rows, id) {
          var i :| 0 <= i < |songs| && songs[i].songId == id;
          assert u.rows[i] == songs[i];
        }
      }
      songs := u.rows;
      r := u.songId;
    }

    /** `record_swipe`: appends one row whose order is the session's
        `COALESCE(MAX(swipe_order), 0) + 1`. A failed INSERT (no connection,
        a duplicate swipe id, a session or song that does not exist) leaves
        the table as it was and is re-raised as an error. */
    method RecordSwipe(sessionId: Id, songId: Id, direction: string, swipeId: Id, now: Time)
      returns (r: Result<Id>)
      requires Valid()
      modifies this`swipes
      ensures Valid()
      ensures r.Ok? <==> online && sessionId in sessions && HasSongId(songs, songId) && !HasSwipeId(old(swipes), swipeId)
      ensures r.Ok? ==> r.value == swipeId
      ensures r.Ok? ==>
                swipes == WithSwipe(old(swipes), swipeId, sessionId, songId, direction, now)
      ensures r.Err? ==> swipes == old(swipes)
      ensures r.Err? ==> r.message == if online then INSERT_REJECTED else CONNECTION_FAILED
    {
      if !online {
        return Err(CONNECTION_FAILED);
      }
      if HasSwipeId(swipes, swipeId) || sessionId !in sessions || !HasSongId(songs, songId) {
        return Err(INSERT_REJECTED);
      }
      WithSwipeConsistent(users, sessions, songs, swipes, playlists, swipeId, sessionId, songId, direction, now);
      swipes := WithSwipe(swipes, swipeId, sessionId, songId, direction, now);
      r := Ok(swipeId);
    }

    /** The stats query of `complete_session`; the LEFT JOIN yields a row
        for every existing session. */
    function StatsQuery(sessionId: Id): (r: Option<Stats>)
      reads this
      ensures r.Some? <==> sessionId in sessions
      ensures r.Some? ==> r.value == SessionStats(sessions, swipes, sessionId)
    {
      if sessionId in sessions then Some(SessionStats(sessions, swipes, sessionId)) else None
    }

    /** `complete_session`: idempotent ACTIVE -> COMPLETED. Stats are
        returned whether or not the status changed. */
    method CompleteSession(sessionId: Id, now: Time) returns (r: Completion)
      requires Valid()
      modifies this`sessions
      ensures Valid()
      ensures !online ==> r == CompleteFailed(CONNECTION_FAILED) && sessions == old(sessions)
      ensures online && sessionId !in old(sessions) ==> r == CompleteFailed(SESSION_NOT_FOUND) && sessions == old(sessions)
      ensures online && sessionId in old(sessions) ==>
                && r == CompleteOk(SessionStats(old(sessions), swipes, sessionId))
                && sessions == old(sessions)[sessionId := Complete(old(sessions)[sessionId], now)]
    {
      if !online {
        return CompleteFailed(CONNECTION_FAILED);
      }
      if sessionId !in sessions {
        return CompleteFailed(SESSION_NOT_FOUND);
      }
      var info := sessions[sessionId];
      var stats := match StatsQuery(sessionId)
        case Some(s) => s
        case None => Stats(0, 0, info.targetPlaylistLength);
      if info.status != Completed {
        CompleteConsistent(users, sessions, songs, swipes, playlists, sessionId, now);
        sessions := sessions[sessionId := Complete(info, now)];
      }
      r := CompleteOk(stats);
    }

    /** `check_song_exists`: with neither argument it answers None without a
        query; otherwise it looks up by URI when one is given, else by id. */
    function CheckSongExists(spotifyUri: Option<string>, spotifyId: Option<string>): (r: Option<Id>)
      reads this
      ensures !Truthy(spotifyUri) && !Truthy(spotifyId) ==> r.None?
      ensures !online ==> r.None?
      ensures online && Truthy(spotifyUri) ==> r == SongIdFor(songs, ByUri(spotifyUri.value))
      ensures online && !Truthy(spotifyUri) && Truthy(spotifyId) ==> r == SongIdFor(songs, BySpotifyId(spotifyId.value))
    {
      if !Truthy(spotifyUri) && !Truthy(spotifyId) then None
      else if !online then None
      else if Truthy(spotifyUri) then SongIdFor(songs, ByUri(spotifyUri.value))
      else SongIdFor(songs, BySpotifyId(spotifyId.value))
    }

    /** `get_session_progress`, given the row its SQL file returns. */
    function SessionProgress(sessionId: Id, queried: Option<ProgressRow>): (r: Option<Progress>)
      reads this
      ensures !online ==> r.None?
      ensures online ==> r == ProgressOf(queried)
    {
      if online then ProgressOf(queried) else None
    }

    /** `get_session_seen_songs`: the distinct non-NULL provider ids of the
        songs swiped in the session; the empty set on a database error.
        `spotifyId` is accepted and, as in the source, not used. */
    function SessionSeenSongs(spotifyId: string, sessionId: Id): (r: set<string>)
      reads this
      ensures !online ==> r == {}
      ensures online ==> r == SeenIds(songs, swipes, sessionId)
    {
      if online then SeenIds(songs, swipes, sessionId) else {}
    }

    /** `get_session_songs`, given the rows its SQL file returns: the loop
        that adds the `is_liked` / `is_passed` flags. */
    method SessionSongs(sessionId: Id, queried: seq<SessionSongRow>) returns (out: seq<FlaggedSong>)
      ensures !online ==> out == []
      ensures online ==> |out| == |queried|
      ensures online ==> forall i :: 0 <= i < |out| ==>
                && out[i].row == queried[i]
                && (out[i].isLiked <==> queried[i].direction == RIGHT)
                && (out[i].isPassed <==> queried[i].direction == LEFT)
    {
      if !online {
        return [];
      }
      out := [];
      for i := 0 to |queried|
        invariant |out| == i
        invariant forall k :: 0 <= k < i ==>
          && out[k].row == queried[k]
          && (out[k].isLiked <==> queried[k].direction == RIGHT)
          && (out[k].isPassed <==> queried[k].direction == LEFT)
      {
        var row := queried[i];
        out := out + [FlaggedSong(row, row.direction == RIGHT, row.direction == LEFT)];
      }
    }

    /** `update_user_tokens`: an UPDATE of the user's row. A user that does
        not exist is not an error (no row matches); a database error is
        re-raised. */
    method UpdateUserTokens(spotifyId: string, accessToken: string, refreshToken: Option<string>, expiresAt: Time)
      returns (r: Result<()>)
      requires Valid()
      modifies this`users
      ensures Valid()
      ensures r.Ok? <==> online
      ensures r.Ok? && spotifyId in old(users) ==>
                users == old(users)[spotifyId := old(users)[spotifyId].(accessToken := Some(accessToken),
                                      refreshToken := refreshToken, tokenExpiresAt := Some(expiresAt))]
      ensures r.Err? || spotifyId !in old(users) ==> users == old(users)
    {
      if !online {
        return Err(CONNECTION_FAILED);
      }
      if spotifyId in users {
        users := users[spotifyId := users[spotifyId].(accessToken := Some(accessToken),
                                      refreshToken := refreshToken, tokenExpiresAt := Some(expiresAt))];
      }
      r := Ok(());
    }

    /** `save_playlist`: an INSERT into Playlists; a failure is re-raised. */
    method SavePlaylist(playlistId: Id, spotifyId: string, spotifyPlaylistId: string, name: string,
                        description: string, now: Time)
      returns (r: Result<()>)
      requires Valid()
      modifies this`playlists
      ensures Valid()
      ensures r.Ok? <==> online && playlistId !in old(playlists) && spotifyId in users
      ensures r.Ok? ==> playlists == old(playlists)[playlistId := PlaylistRow(spotifyId, spotifyPlaylistId, name, description, now)]
      ensures r.Err? ==> playlists == old(playlists)
    {
      if !online {
        return Err(CONNECTION_FAILED);
      }
      if playlistId in playlists || spotifyId !in users {
        return Err(INSERT_REJECTED);
      }
      playlists := playlists[playlistId := PlaylistRow(spotifyId, spotifyPlaylistId, name, description, now)];
      r := Ok(());
    }

    /** The INSERT into SwipeSessions that the `create_swipe_session` route
        issues; the new session starts ACTIVE. */
    method InsertSession(sessionId: Id, spotifyId: string, target: int, preferences: string, now: Time)
      returns (r: Result<()>)
      requires Valid()
      modifies this`sessions
      ensures Valid()
      ensures r.Ok? <==> online && sessionId !in old(sessions) && spotifyId in users
      ensures r.Ok? ==> sessions == old(sessions)[sessionId := SessionRow(spotifyId, target, preferences, Active, now, None)]
      ensures r.Err? ==> sessions == old(sessions)
    {
      if !online {
        return Err(CONNECTION_FAILED);
      }
      if sessionId in sessions || spotifyId !in users {
        return Err(INSERT_REJECTED);
      }
      sessions := sessions[sessionId := SessionRow(spotifyId, target, preferences, Active, now, None)];
      r := Ok(());
    }
  }

  /** The discrepancy: with the database unreachable, `get_user` as written
      raises where its documented result is None, so `check_auth` and
      `add_tracks_to_playlist` answer 500 instead of 404 "User not found". */
  lemma GetUserUnreachableRaises(db: Store, spotifyId: string)
    requires !db.online
    ensures db.GetUserAsWritten(spotifyId) == Err(UNBOUND_CONN)
    ensures db.GetUser(spotifyId) == None
  {
  }
}

/** Queries over the values of the tables, as the SQL in
    server/database.py states them, and the invariants the tables keep.
    The Store class in module Database updates its fields through these. */
module Tables {
  import opened Wrappers
  import opened Schema

  // ------------------------------------------------------------------
  // Songs
  // ------------------------------------------------------------------

  /** The column a Songs lookup filters on. */
  datatype SongKey = ByUri(uri: string) | BySpotifyId(spotifyId: string)

  /** SQL equality on a nullable column: a NULL cell matches nothing. */
  predicate Matches(row: SongRow, key: SongKey) {
    match key
    case ByUri(u) => row.spotifyUri == Some(u)
    case BySpotifyId(s) => row.spotifyId == Some(s)
  }

  /** `SELECT song_id FROM Songs WHERE <column> = %s`, then `fetchone()`. */
  function SongIdFor(songs: seq<SongRow>, key: SongKey): (r: Option<Id>)
    ensures r.None? <==> forall i :: 0 <= i < |songs| ==> !Matches(songs[i], key)
    ensures r.Some? ==> exists i :: 0 <= i < |songs| && Matches(songs[i], key) && songs[i].songId == r.value
  {
    if songs == [] then None
    else if Matches(songs[0], key) then Some(songs[0].songId)
    else
      var r := SongIdFor(songs[1..], key);
      assert forall i :: 1 <= i < |songs| ==> songs[i] == songs[1..][i - 1];
      r
  }

  /** Whether a Songs row with primary key `songId` exists. */
  predicate HasSongId(songs: seq<SongRow>, songId: Id) {
    exists i :: 0 <= i < |songs| && songs[i].songId == songId
  }

  /** The artist a new Songs row records: the first artist's `name`,
      falling back to 'Unknown Artist'. */
  function ArtistOf(t: Track): (a: string)
    ensures |t.artists| == 0 ==> a == UNKNOWN_ARTIST
    ensures |t.artists| > 0 && t.artists[0].name.None? ==> a == UNKNOWN_ARTIST
    ensures |t.artists| > 0 && t.artists[0].name.Some? ==> a == t.artists[0].name.value
  {
    if |t.artists| > 0 then t.artists[0].name.GetOr(UNKNOWN_ARTIST) else UNKNOWN_ARTIST
  }

  /** The album cover a new Songs row records: the first album image's
      `url`, falling back to ''. Defined for an album object only: on any
      other `album` value the lookup raises. */
  function CoverOf(t: Track): (c: string)
    requires t.album.Album?
    ensures |t.album.images| == 0 ==> c == ""
    ensures |t.album.images| > 0 ==> c == t.album.images[0].url.GetOr("")
  {
    if |t.album.images| > 0 then t.album.images[0].url.GetOr("") else ""
  }

  /** The row `add_song_to_session` inserts for a track seen for the first time. */
  function NewSongRow(songId: Id, spotifyId: string, t: Track, now: Time): (row: SongRow)
    requires t.album.Album?
    ensures row.songId == songId && row.spotifyId == Some(spotifyId) && row.spotifyUri.None?
    ensures row.title == t.name.GetOr(UNKNOWN_TITLE) && row.artist == ArtistOf(t)
    ensures row.albumCover == CoverOf(t) && row.previewUrl == t.previewUrl
    ensures row.popularity == t.popularity.GetOr(0) && row.lastUpdated == now
  {
    SongRow(songId, Some(spotifyId), None, t.name.GetOr(UNKNOWN_TITLE), ArtistOf(t),
            t.previewUrl, CoverOf(t), t.popularity.GetOr(0), now)
  }

  datatype Upserted = Upserted(rows: seq<SongRow>, songId: Option<Id>)

  /** Insert-if-absent keyed by the provider track id. An existing row is
      returned as it is; otherwise a row under the fresh id is appended,
      unless reading the cover raises (the `album` value is not an object)
      or the id is already a primary key (the INSERT fails); on either
      error the transaction is rolled back and the caller gets `None`. */
  function SongUpsert(songs: seq<SongRow>, spotifyId: string, t: Track, freshId: Id, now: Time): (u: Upserted)
    ensures SongIdFor(songs, BySpotifyId(spotifyId)).Some? ==>
              u == Upserted(songs, SongIdFor(songs, BySpotifyId(spotifyId)))
    ensures SongIdFor(songs, BySpotifyId(spotifyId)).None? && (t.album.NotAnObject? || HasSongId(songs, freshId)) ==>
              u == Upserted(songs, None)
    ensures SongIdFor(songs, BySpotifyId(spotifyId)).None? && t.album.Album? && !HasSongId(songs, freshId) ==>
              u == Upserted(songs + [NewSongRow(freshId, spotifyId, t, now)], Some(freshId))
  {
    match SongIdFor(songs, BySpotifyId(spotifyId))
    case Some(existing) => Upserted(songs, Some(existing))
    case None =>
      if t.album.NotAnObject? || HasSongId(songs, freshId) then Upserted(songs, None)
      else Upserted(songs + [NewSongRow(freshId, spotifyId, t, now)], Some(freshId))
  }

  /** The `album` value read as an object, a non-object counting as `{}`:
      what `add_song_to_session` evidently means by
      `track_data.get('album', {})`. */
  function AlbumObject(a: Album): (r: Album)
    ensures r.Album?
    ensures a.Album? ==> r == a
    ensures a.NotAnObject? ==> r.images == []
  {
    if a.Album? then a else Album(None, None, [])
  }

  /** The upsert with the cover read from `AlbumObject(t.album)`: the
      corrected `add_song_to_session`, which stores every new track whose
      id is free, whatever shape its `album` value has. */
  function SongUpsertCorrected(songs: seq<SongRow>, spotifyId: string, t: Track, freshId: Id, now: Time)
    : (u: Upserted)
    ensures t.album.Album? ==> u == SongUpsert(songs, spotifyId, t, freshId, now)
    ensures SongIdFor(songs, BySpotifyId(spotifyId)).Some? ==>
              u == Upserted(songs, SongIdFor(songs, BySpotifyId(spotifyId)))
    ensures SongIdFor(songs, BySpotifyId(spotifyId)).None? ==> (u.songId.Some? <==> !HasSongId(songs, freshId))
    ensures SongIdFor(songs, BySpotifyId(spotifyId)).None? && !HasSongId(songs, freshId) ==>
              && u.songId == Some(freshId)
              && u.rows == songs + [NewSongRow(freshId, spotifyId, t.(album := AlbumObject(t.album)), now)]
              && u.rows[|songs|].title == t.name.GetOr(UNKNOWN_TITLE)
              && (t.album.NotAnObject? ==> u.rows[|songs|].albumCover == "")
  {
    SongUpsert(songs, spotifyId, t.(album := AlbumObject(t.album)), freshId, now)
  }

  /** Song ids are primary keys, and no provider track id is stored twice. */
  ghost predicate UniqueSongs(songs: seq<SongRow>) {
    && (forall i, j :: 0 <= i < j < |songs| ==> songs[i].songId != songs[j].songId)
    && (forall i, j :: 0 <= i < j < |songs| && songs[i].spotifyId.Some? ==> songs[i].spotifyId != songs[j].spotifyId)
  }

  /** A lookup in rows with one more row at the end finds the old rows first. */
  lemma {:induction false} SongIdForAppend(songs: seq<SongRow>, row: SongRow, key: SongKey)
    ensures SongIdFor(songs + [row], key) ==
              if SongIdFor(songs, key).Some? then SongIdFor(songs, key)
              else if Matches(row, key) then Some(row.songId) else None
  {
    if songs != [] {
      assert (songs + [row])[1..] == songs[1..] + [row];
      SongIdForAppend(songs[1..], row, key);
    }
  }

  /** A lookup that succeeds still succeeds once rows are appended. */
  lemma SongIdForPrefix(songs: seq<SongRow>, more: seq<SongRow>, key: SongKey)
    requires songs <= more
    requires SongIdFor(songs, key).Some?
    ensures SongIdFor(more, key).Some?
  {
    var i :| 0 <= i < |songs| && Matches(songs[i], key) && songs[i].songId == SongIdFor(songs, key).value;
    assert more[i] == songs[i];
  }

  /** Upserting the same provider track id again returns the id of the first
      upsert and changes nothing, whatever payload the second call carries. */
  lemma SongUpsertIdempotent(songs: seq<SongRow>, spotifyId: string, t1: Track, t2: Track,
                             id1: Id, id2: Id, now1: Time, now2: Time)
    requires SongUpsert(songs, spotifyId, t1, id1, now1).songId.Some?
    ensures var u := SongUpsert(songs, spotifyId, t1, id1, now1);
            SongUpsert(u.rows, spotifyId, t2, id2, now2) == u
  {
    var u := SongUpsert(songs, spotifyId, t1, id1, now1);
    if SongIdFor(songs, BySpotifyId(spotifyId)).None? {
      SongIdForAppend(songs, NewSongRow(id1, spotifyId, t1, now1), BySpotifyId(spotifyId));
    }
  }

  /** The upsert keeps every existing row, and keeps song ids and provider
      track ids unique. */
  lemma SongUpsertKeepsRows(songs: seq<SongRow>, spotifyId: string, t: Track, freshId: Id, now: Time)
    requires UniqueSongs(songs)
    ensures var u := SongUpsert(songs, spotifyId, t, freshId, now);
            UniqueSongs(u.rows) && songs <= u.rows && |u.rows| <= |songs| + 1
    ensures var u := SongUpsert(songs, spotifyId, t, freshId, now);
            u.songId.Some? ==> HasSongId(u.rows, u.songId.value)
  {
    var u := SongUpsert(songs, spotifyId, t, freshId, now);
    if u.songId.Some? && SongIdFor(songs, BySpotifyId(spotifyId)).Some? {
      var i :| 0 <= i < |songs| && Matches(songs[i], BySpotifyId(spotifyId)) && songs[i].songId == u.songId.value;
    }
    if u.songId.Some? && SongIdFor(songs, BySpotifyId(spotifyId)).None? {
      assert u.rows[|songs|].songId == freshId;
    }
  }

  // ------------------------------------------------------------------
  // Swipes
  // ------------------------------------------------------------------

  /** `COUNT(sw.swipe_id)` over one session's swipes. */
  function CountIn(ws: seq<SwipeRow>, sid: Id): (n: nat)
    ensures n <= |ws|
  {
    if ws == [] then 0
    else CountIn(ws[..|ws| - 1], sid) + (if ws[|ws| - 1].sessionId == sid then 1 else 0)
  }

  /** `COUNT(CASE WHEN sw.direction = 'RIGHT' THEN 1 END)` over one session's swipes. */
  function LikedIn(ws: seq<SwipeRow>, sid: Id): (n: nat)
    ensures n <= CountIn(ws, sid)
  {
    if ws == [] then 0
    else LikedIn(ws[..|ws| - 1], sid) + (if ws[|ws| - 1].sessionId == sid && ws[|ws| - 1].direction == RIGHT then 1 else 0)
  }

  /** `COALESCE(MAX(swipe_order), 0)` over one session's swipes. */
  function MaxOrder(ws: seq<SwipeRow>, sid: Id): (m: nat)
    ensures forall i :: 0 <= i < |ws| && ws[i].sessionId == sid ==> ws[i].order <= m
    ensures m == 0 || exists i :: 0 <= i < |ws| && ws[i].sessionId == sid && ws[i].order == m
  {
    if ws == [] then 0
    else
      var prev := ws[..|ws| - 1];
      var m := MaxOrder(prev, sid);
      assert forall i :: 0 <= i < |prev| ==> prev[i] == ws[i];
      if ws[|ws| - 1].sessionId == sid && ws[|ws| - 1].order > m then ws[|ws| - 1].order else m
  }

  /** Each swipe's order is one more than the number of earlier swipes of
      the same session: per session the orders run 1, 2, 3, ... */
  ghost predicate Numbered(ws: seq<SwipeRow>) {
    forall i {:trigger ws[i].order} :: 0 <= i < |ws| ==> ws[i].order == CountIn(ws[..i], ws[i].sessionId) + 1
  }

  lemma NumberedPrefix(ws: seq<SwipeRow>, k: nat)
    requires Numbered(ws) && k <= |ws|
    ensures Numbered(ws[..k])
  {
    forall i | 0 <= i < k ensures ws[..k][i].order == CountIn(ws[..k][..i], ws[..k][i].sessionId) + 1 {
      assert ws[..k][..i] == ws[..i];
    }
  }

  /** Under the numbering, the next order `MAX + 1` is one more than the
      number of swipes the session already has. */
  lemma {:induction false} NumberedMaxIsCount(ws: seq<SwipeRow>, sid: Id)
    requires Numbered(ws)
    ensures MaxOrder(ws, sid) == CountIn(ws, sid)
  {
    if ws != [] {
      var prev := ws[..|ws| - 1];
      NumberedPrefix(ws, |ws| - 1);
      NumberedMaxIsCount(prev, sid);
    }
  }

  /** Appending a swipe with order `MAX + 1` keeps the numbering. */
  lemma WithSwipeNumbered(ws: seq<SwipeRow>, swipeId: Id, sid: Id, songId: Id, direction: string, now: Time)
    requires Numbered(ws)
    ensures Numbered(WithSwipe(ws, swipeId, sid, songId, direction, now))
  {
    NumberedMaxIsCount(ws, sid);
    var ws' := WithSwipe(ws, swipeId, sid, songId, direction, now);
    forall i | 0 <= i < |ws'| ensures ws'[i].order == CountIn(ws'[..i], ws'[i].sessionId) + 1 {
      if i < |ws| {
        assert ws'[..i] == ws[..i];
      } else {
        assert ws'[..i] == ws;
      }
    }
  }

  lemma {:induction false} CountInMonotone(ws: seq<SwipeRow>, sid: Id, a: nat, b: nat)
    requires a <= b <= |ws|
    ensures CountIn(ws[..a], sid) <= CountIn(ws[..b], sid)
  {
    if a < b {
      assert ws[..b][..b - 1] == ws[..b - 1];
      CountInMonotone(ws, sid, a, b - 1);
    }
  }

  /** Within a session, swipe orders start at 1 and strictly increase in
      the order the rows were written. */
  lemma NumberedIncreasing(ws: seq<SwipeRow>)
    requires Numbered(ws)
    ensures forall i :: 0 <= i < |ws| ==> ws[i].order >= 1
    ensures forall i, j :: 0 <= i < j < |ws| && ws[i].sessionId == ws[j].sessionId ==> ws[i].order < ws[j].order
  {
    forall i, j | 0 <= i < j < |ws| && ws[i].sessionId == ws[j].sessionId
      ensures ws[i].order < ws[j].order
    {
      var sid := ws[i].sessionId;
      assert ws[..i + 1][..i] == ws[..i];
      CountInMonotone(ws, sid, i + 1, j);
    }
  }

  /** The first swipe of a session gets order 1. */
  lemma FirstSwipeOrderIsOne(ws: seq<SwipeRow>, sid: Id)
    requires forall i :: 0 <= i < |ws| ==> ws[i].sessionId != sid
    ensures MaxOrder(ws, sid) + 1 == 1
  {
  }

  /** The Swipes table after `record_swipe` appends its row, numbered one
      past the session's largest order. */
  function WithSwipe(ws: seq<SwipeRow>, swipeId: Id, sid: Id, songId: Id, direction: string, now: Time): seq<SwipeRow> {
    ws + [SwipeRow(swipeId, sid, songId, direction, MaxOrder(ws, sid) + 1, now)]
  }

  /** Swipe ids are primary keys. */
  ghost predicate UniqueSwipeIds(ws: seq<SwipeRow>) {
    forall i, j :: 0 <= i < j < |ws| ==> ws[i].swipeId != ws[j].swipeId
  }

  predicate HasSwipeId(ws: seq<SwipeRow>, swipeId: Id) {
    exists i :: 0 <= i < |ws| && ws[i].swipeId == swipeId
  }

  // ------------------------------------------------------------------
  // Seen songs
  // ------------------------------------------------------------------

  /** The non-NULL provider ids of the Songs rows whose song_id is `songId`. */
  function JoinedIds(songs: seq<SongRow>, songId: Id): set<string> {
    set j | 0 <= j < |songs| && songs[j].songId == songId && songs[j].spotifyId.Some? :: songs[j].spotifyId.value
  }

  /** `SELECT DISTINCT s.spotify_id FROM Songs s JOIN Swipes sw ON
      s.song_id = sw.song_id WHERE sw.session_id = %s AND s.spotify_id IS NOT NULL`. */
  function SeenIds(songs: seq<SongRow>, ws: seq<SwipeRow>, sid: Id): (r: set<string>)
    ensures forall x :: x in r <==>
              exists i, j :: 0 <= i < |ws| && 0 <= j < |songs| && ws[i].sessionId == sid &&
                             ws[i].songId == songs[j].songId && songs[j].spotifyId == Some(x)
  {
    if ws == [] then {}
    else
      var prev := ws[..|ws| - 1];
      var last := ws[|ws| - 1];
      var r := SeenIds(songs, prev, sid) + (if last.sessionId == sid then JoinedIds(songs, last.songId) else {});
      assert forall i :: 0 <= i < |prev| ==> prev[i] == ws[i];
      assert forall x :: x in r ==>
        exists i, j :: 0 <= i < |ws| && 0 <= j < |songs| && ws[i].sessionId == sid &&
                       ws[i].songId == songs[j].songId && songs[j].spotifyId == Some(x) by {
        forall x | x in r && last.sessionId == sid && x in JoinedIds(songs, last.songId)
          ensures exists j :: 0 <= j < |songs| && songs[j].songId == last.songId && songs[j].spotifyId == Some(x)
        {
          var j :| 0 <= j < |songs| && songs[j].songId == last.songId && songs[j].spotifyId.Some? && songs[j].spotifyId.value == x;
        }
      }
      r
  }

  /** Recording a swipe adds the swiped song's provider id to that session's
      seen set and nothing else. */
  lemma SeenIdsAppend(songs: seq<SongRow>, ws: seq<SwipeRow>, w: SwipeRow, sid: Id)
    ensures SeenIds(songs, ws + [w], sid) ==
              SeenIds(songs, ws, sid) + (if w.sessionId == sid then JoinedIds(songs, w.songId) else {})
  {
    assert (ws + [w])[..|ws + [w]| - 1] == ws;
  }

  // ------------------------------------------------------------------
  // Sessions
  // ------------------------------------------------------------------

  /** The stats dictionary. Counts are `int` because the source's fallback
      dictionary fills them in without the aggregate. */
  datatype Stats = Stats(likedCount: int, totalSwipes: int, targetPlaylistLength: int)

  /** The LEFT JOIN aggregate `complete_session` reads: one row for any
      existing session, zero counts when it has no swipes. */
  function SessionStats(sessions: map<Id, SessionRow>, ws: seq<SwipeRow>, sid: Id): (st: Stats)
    requires sid in sessions
    ensures 0 <= st.likedCount <= st.totalSwipes
    ensures st.targetPlaylistLength == sessions[sid].targetPlaylistLength
    ensures (forall i :: 0 <= i < |ws| ==> ws[i].sessionId != sid) ==> st.likedCount == 0 && st.totalSwipes == 0
  {
    NoSwipesCountsZero(ws, sid);
    Stats(LikedIn(ws, sid), CountIn(ws, sid), sessions[sid].targetPlaylistLength)
  }

  lemma {:induction false} NoSwipesCountsZero(ws: seq<SwipeRow>, sid: Id)
    ensures (forall i :: 0 <= i < |ws| ==> ws[i].sessionId != sid) ==> CountIn(ws, sid) == 0
  {
    if ws != [] && (forall i :: 0 <= i < |ws| ==> ws[i].sessionId != sid) {
      var prev := ws[..|ws| - 1];
      assert forall i :: 0 <= i < |prev| ==> prev[i] == ws[i];
      NoSwipesCountsZero(prev, sid);
    }
  }

  /** The status update of `complete_session`: ACTIVE (or ABANDONED) becomes
      COMPLETED stamped with `now`; a COMPLETED row is left as it is. */
  function Complete(row: SessionRow, now: Time): (r: SessionRow)
    ensures r.status == Completed
    ensures row.status == Completed ==> r == row
    ensures row.status != Completed ==> r.completionDate == Some(now)
    ensures r.(status := row.status, completionDate := row.completionDate) == row
  {
    if row.status == Completed then row else row.(status := Completed, completionDate := Some(now))
  }

  /** Completing a session leaves the statistics of every session as they
      were: the counts come from the Swipes table and the target length
      is not touched. */
  lemma CompleteKeepsStats(sessions: map<Id, SessionRow>, ws: seq<SwipeRow>, sid: Id, other: Id, now: Time)
    requires sid in sessions && other in sessions
    ensures SessionStats(sessions[sid := Complete(sessions[sid], now)], ws, other) == SessionStats(sessions, ws, other)
  {
  }

  /** A second completion changes nothing: neither status nor date. */
  lemma CompleteIdempotent(row: SessionRow, t1: Time, t2: Time)
    ensures Complete(Complete(row, t1), t2) == Complete(row, t1)
  {
  }

  // ------------------------------------------------------------------
  // Progress and session songs (rows of SQL files this model does not have)
  // ------------------------------------------------------------------

  /** The row `get_session_progress.sql` returns. */
  datatype ProgressRow = ProgressRow(likedCount: int, totalSwipes: int, targetPlaylistLength: int)

  datatype Progress = Progress(likedCount: int, totalSwipes: int, targetPlaylistLength: int,
                               progressPercentage: real, isComplete: bool)

  /** The post-processing of `get_session_progress`: a missing row gives
      None, a target of 0 raises ZeroDivisionError and also gives None. */
  function ProgressOf(row: Option<ProgressRow>): (r: Option<Progress>)
    ensures r.Some? <==> row.Some? && row.value.targetPlaylistLength != 0
    ensures r.Some? ==> r.value.likedCount == row.value.likedCount && r.value.totalSwipes == row.value.totalSwipes
                        && r.value.targetPlaylistLength == row.value.targetPlaylistLength
    ensures r.Some? ==> (r.value.isComplete <==> row.value.likedCount >= row.value.targetPlaylistLength)
    ensures r.Some? ==> r.value.progressPercentage * (row.value.targetPlaylistLength as real)
                        == (row.value.likedCount as real) * 100.0
  {
    match row
    case None => None
    case Some(p) =>
      if p.targetPlaylistLength == 0 then None
      else
        var pct := (p.likedCount as real / p.targetPlaylistLength as real) * 100.0;
        Some(Progress(p.likedCount, p.totalSwipes, p.targetPlaylistLength, pct, p.likedCount >= p.targetPlaylistLength))
  }

  /** For a positive target, the session is complete exactly when the
      percentage has reached 100 (it may exceed 100). */
  lemma CompleteIffHundred(row: ProgressRow)
    requires row.targetPlaylistLength > 0
    ensures var r := ProgressOf(Some(row));
            r.Some? && (r.value.isComplete <==> r.value.progressPercentage >= 100.0)
  {
    var r := ProgressOf(Some(row));
    var t := row.targetPlaylistLength as real;
    var p := r.value.progressPercentage;
    assert p * t == (row.likedCount as real) * 100.0;
    if p >= 100.0 {
      assert p * t >= 100.0 * t;
    } else {
      assert p * t < 100.0 * t;
    }
  }

  /** A row of `get_session_songs.sql`: a song with the swipe made on it. */
  datatype SessionSongRow = SessionSongRow(song: SongRow, direction: string, swipeTimestamp: Option<Time>)

  datatype FlaggedSong = FlaggedSong(row: SessionSongRow, isLiked: bool, isPassed: bool)

  // ------------------------------------------------------------------
  // The whole store
  // ------------------------------------------------------------------

  /** Every swipe names an existing session and an existing song. */
  ghost predicate SwipesReference(sessions: map<Id, SessionRow>, songs: seq<SongRow>, ws: seq<SwipeRow>) {
    forall i :: 0 <= i < |ws| ==> ws[i].sessionId in sessions && HasSongId(songs, ws[i].songId)
  }

  /** Primary keys, the swipe numbering, and the foreign keys
      Swipes -> SwipeSessions, Swipes -> Songs, SwipeSessions -> Users and
      Playlists -> Users. */
  ghost predicate Consistent(users: map<string, UserRow>, sessions: map<Id, SessionRow>, songs: seq<SongRow>,
                             swipes: seq<SwipeRow>, playlists: map<Id, PlaylistRow>) {
    && UniqueSongs(songs)
    && UniqueSwipeIds(swipes)
    && Numbered(swipes)
    && SwipesReference(sessions, songs, swipes)
    && SessionsOwned(users, sessions)
    && (forall p :: p in playlists ==> playlists[p].userId in users)
  }

  /** Every session belongs to an existing user. */
  ghost predicate SessionsOwned(users: map<string, UserRow>, sessions: map<Id, SessionRow>) {
    forall s :: s in sessions ==> sessions[s].userId in users
  }

  lemma CompleteKeepsReferences(sessions: map<Id, SessionRow>, songs: seq<SongRow>, ws: seq<SwipeRow>, sid: Id, now: Time)
    requires SwipesReference(sessions, songs, ws) && sid in sessions
    ensures SwipesReference(sessions[sid := Complete(sessions[sid], now)], songs, ws)
  {
  }

  lemma CompleteKeepsOwners(users: map<string, UserRow>, sessions: map<Id, SessionRow>, sid: Id, now: Time)
    requires SessionsOwned(users, sessions) && sid in sessions
    ensures SessionsOwned(users, sessions[sid := Complete(sessions[sid], now)])
  {
    var s' := sessions[sid := Complete(sessions[sid], now)];
    forall s | s in s' ensures s'[s].userId in users {
      if s == sid {
        assert s'[s].userId == sessions[sid].userId;
      }
    }
  }

  /** Completing an existing session keeps the store consistent. */
  lemma CompleteConsistent(users: map<string, UserRow>, sessions: map<Id, SessionRow>, songs: seq<SongRow>,
                           ws: seq<SwipeRow>, playlists: map<Id, PlaylistRow>, sid: Id, now: Time)
    requires Consistent(users, sessions, songs, ws, playlists) && sid in sessions
    ensures Consistent(users, sessions[sid := Complete(sessions[sid], now)], songs, ws, playlists)
  {
    CompleteKeepsReferences(sessions, songs, ws, sid, now);
    CompleteKeepsOwners(users, sessions, sid, now);
  }


  lemma WithSwipeUniqueIds(ws: seq<SwipeRow>, swipeId: Id, sid: Id, songId: Id, direction: string, now: Time)
    requires UniqueSwipeIds(ws) && !HasSwipeId(ws, swipeId)
    ensures UniqueSwipeIds(WithSwipe(ws, swipeId, sid, songId, direction, now))
  {
    var ws' := WithSwipe(ws, swipeId, sid, songId, direction, now);
    forall i, j | 0 <= i < j < |ws'| ensures ws'[i].swipeId != ws'[j].swipeId {
      if j < |ws| {
        assert ws'[i] == ws[i] && ws'[j] == ws[j];
      } else {
        assert ws'[i] == ws[i];
      }
    }
  }

  lemma WithSwipeReferences(sessions: map<Id, SessionRow>, songs: seq<SongRow>, ws: seq<SwipeRow>,
                            swipeId: Id, sid: Id, songId: Id, direction: string, now: Time)
    requires SwipesReference(sessions, songs, ws)
    requires sid in sessions && HasSongId(songs, songId)
    ensures SwipesReference(sessions, songs, WithSwipe(ws, swipeId, sid, songId, direction, now))
  {
    var ws' := WithSwipe(ws, swipeId, sid, songId, direction, now);
    forall i | 0 <= i < |ws'| ensures ws'[i].sessionId in sessions && HasSongId(songs, ws'[i].songId) {
      if i < |ws| {
        assert ws'[i] == ws[i];
      }
    }
  }

  /** A swipe on an existing session and song under a new swipe id, numbered
      `MAX + 1`, keeps the store consistent. */
  lemma WithSwipeConsistent(users: map<string, UserRow>, sessions: map<Id, SessionRow>, songs: seq<SongRow>,
                            ws: seq<SwipeRow>, playlists: map<Id, PlaylistRow>,
                            swipeId: Id, sid: Id, songId: Id, direction: string, now: Time)
    requires Consistent(users, sessions, songs, ws, playlists)
    requires sid in sessions && HasSongId(songs, songId) && !HasSwipeId(ws, swipeId)
    ensures Consistent(users, sessions, songs, WithSwipe(ws, swipeId, sid, songId, direction, now), playlists)
  {
    WithSwipeNumbered(ws, swipeId, sid, songId, direction, now);
    WithSwipeUniqueIds(ws, swipeId, sid, songId, direction, now);
    WithSwipeReferences(sessions, songs, ws, swipeId, sid, songId, direction, now);
  }
}

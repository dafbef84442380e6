# TuneSwipe server core in Dafny

TuneSwipe is a Flask server. It serves music tracks from a search
provider to a client that swipes them left (pass) or right (like). Each swipe
is recorded in a *swipe session*, and a session is complete once the user has
liked as many songs as the session's target playlist length. The liked songs
can then be added to a playlist at the provider. This project models the
bookkeeping and decision rules of the server:

- **The store** (`server/database.py`). The `Database` class becomes the class
  `Database.Store`. Its fields are the Users, SwipeSessions, Songs, Swipes and
  Playlists tables. Songs and Swipes are sequences in insertion order. The
  other three are maps keyed by primary key. The flag `online` says whether a
  connection can be opened.
  - Each operation is a method that changes only its own table
    (`modifies this\`songs`, …).
  - Its invariant `Valid()` covers three things: the primary keys, the swipe
    numbering (per session the orders run 1, 2, 3, …) and the foreign keys.
  - The queries the store issues are pure functions over the table values, in
    module `Tables`.
- **The request handlers** (`server/app.py`). Each handler is a method over a
  `Store` in module `App`.
  - The pure decision rules have their own modules:
    - `Catalog`: genre parsing, the limit clamp, the track filter, the fallback
      search, de-duplication by id, truncation and the per-track defaults of
      `get_song`.
    - `Tokens`: the token freshness and refresh decision of
      `get_fresh_spotify_token`, and the token-presence check of `check_auth`.
    - `Batching`: the slicing of track URIs into batches of 100 in
      `add_tracks_to_playlist`.
  - `Text` holds Python's `str.split`, `str.strip` and `str.join`, as the genre
    parameter uses them.
- **Outside services are parameters.**
  - The search provider is a function from query string to result.
  - The preview lookup is a function from (title, artist) to an optional URL.
  - The identity provider's refresh call is a function from refresh token to
    an optional answer.
  - Each playlist call is answered by a boolean.
  - The clock is a `Time` argument in seconds.
  - Every `uuid4` is an argument. A fresh id that collides with an existing
    primary key makes the INSERT fail, and the operation takes its error path.
- **Request bodies** are optional fields: `None` stands for a missing key.
  Python truthiness of optional strings is the predicate `Schema.Truthy`.

Two of the stated properties are about sequences of calls:
- **Swipe orders.** Every successful `RecordSwipe` appends a row numbered
  `MAX + 1` and keeps `Valid()`. So within a session, swipe orders start at 1
  and strictly increase (`Tables.NumberedIncreasing`, `Tables.WithSwipeNumbered`).
- **Idempotence.** A repeated song upsert returns the first id and changes
  nothing (`Tables.SongUpsertIdempotent`). A repeated completion changes
  nothing (`Tables.CompleteIdempotent`).

Two behaviours that follow from the code:
- **Negative limit.** `get_song` clamps `limit` only from above. A negative
  limit is a Python slice from the end, so it can return more than 50 tracks.
  `Catalog.SliceTo` models that slice, and `Catalog.ServedSound` bounds the
  answer only for a non-negative limit.
- **Swipes from a client track.** The client posts back the track that
  `get_song` served it (`Catalog.AsSongData`). In that object `album` is the
  album name, a string, and the artist and cover sit under keys that a track
  object does not use.
  - If the Songs table already holds the track's provider id, the swipe finds
    that row and is recorded.
  - If it does not, `add_song_to_session` calls `.get('images')` on the
    string and raises AttributeError. It rolls back and returns None, and the
    route answers 500 'Failed to add song to database'. Neither a song nor a
    swipe is written (`App.ServedTrackNotStoredOnSwipe`,
    `App.RecordSwipeRoute`). See "Findings".
  - Within a session this does not happen: `get_song` first stores every
    track it serves (`Catalog.StoredSongsCover`). It does happen for a track
    served without a session, or one whose insert failed.
  - The routes keep the code as written. `Tables.SongUpsertCorrected` states
    the evident intent.

## Model

| member | source | states |
|---|---|---|
| Database.Store.constructor | server/database.py:37-48 | a `Database()` over a freshly created schema: every table is empty, and the key, numbering and reference invariant holds |
| Database.Store.GetUser | server/database.py:517-536 | the Users row of the given id when it exists and the database is reachable, otherwise None |
| Database.Store.GetUserAsWritten | server/database.py:529-539 | as written: an unreachable database makes the `finally` clause read an unbound `conn` and raise, instead of returning None |
| Database.GetUserUnreachableRaises | server/database.py:529-539 | with the database unreachable, the as-written lookup raises while the documented result is None |
| Database.Store.AddSongToSession | server/database.py:357-423 | the Songs table becomes the insert-if-absent result keyed by provider id; old rows stay a prefix; a returned id has a row; offline returns None and changes nothing |
| Database.Store.RecordSwipe | server/database.py:425-477 | succeeds iff the database is reachable, the session and song exist and the swipe id is new; then it appends exactly one row numbered MAX+1 for its session and returns its id; any failure leaves Swipes unchanged |
| Database.Store.StatsQuery | server/database.py:212-224 | the LEFT JOIN aggregate: a row exists iff the session exists, with that session's counts |
| Database.Store.CompleteSession | server/database.py:178-253 | unreachable database or unknown session gives the error and no change; otherwise stats are returned and the row becomes Complete(row, now), all other sessions untouched |
| Database.Store.CheckSongExists | server/database.py:255-287 | no argument gives None without a query; otherwise lookup by URI when given, else by provider id; None on error |
| Database.Store.SessionProgress | server/database.py:289-320 | the progress of the queried row, None on a database error |
| Database.Store.SessionSeenSongs | server/database.py:322-350 | the set of distinct non-NULL provider ids of the songs swiped in the session; the empty set on error |
| Database.Store.SessionSongs | server/database.py:612-649 | one output per queried row, with is_liked iff direction is RIGHT and is_passed iff direction is LEFT; [] when the database is unreachable |
| Database.Store.UpdateUserTokens | server/database.py:541-572 | on success the user's access token, refresh token and expiry are replaced and nothing else; a missing user is no error; offline is an error with no change |
| Database.Store.SavePlaylist | server/database.py:574-610 | inserts exactly the new Playlists row iff reachable, the id is new and the user exists; otherwise no change |
| Database.Store.InsertSession | server/app.py:595-611 | inserts an ACTIVE session row iff reachable, the id is new and the user exists; otherwise no change |
| Tables.SongIdFor | server/database.py:373-375 | None iff no row matches the key; otherwise the id of a matching row |
| Tables.ArtistOf | server/database.py:385-388 | first artist's name, else 'Unknown Artist' |
| Tables.CoverOf | server/database.py:390-393 | for an album object, the first album image URL, else '' |
| Tables.NewSongRow | server/database.py:383-409 | the inserted row: given id and provider id, title defaulting to 'Unknown Title', artist, cover, preview, popularity defaulting to 0, timestamp |
| Tables.SongUpsert | server/database.py:372-418 | an existing provider id returns its row's id and inserts nothing; otherwise the new row is appended under the fresh id; an `album` value that is not an object, or a taken id, gives None and no change |
| Tables.SongUpsertCorrected | server/database.py:390-393 | corrected: reading the cover treats a non-object album as `{}`, so a new track is stored, with an empty cover, whenever its id is free; for an album object it equals SongUpsert |
| Tables.SongIdForPrefix | server/database.py:373-375 | a lookup that succeeds still succeeds once rows are appended |
| Tables.SongUpsertIdempotent | server/database.py:372-380 | a second upsert of the same provider id, with any payload, returns the same id and changes nothing |
| Tables.SongUpsertKeepsRows | server/database.py:372-412 | the upsert keeps old rows as a prefix, adds at most one, keeps ids unique, and the returned id has a row |
| Tables.SongIdForAppend | server/database.py:373-375 | a lookup after an append finds an old match first, else the new row |
| Tables.CountIn | server/database.py:217 | the number of a session's swipes |
| Tables.LikedIn | server/database.py:216 | the RIGHT swipes of a session, never more than its swipes |
| Tables.MaxOrder | server/database.py:447-451 | an upper bound on the session's orders that is 0 or attained |
| Tables.NumberedMaxIsCount | server/database.py:447-451 | under the numbering invariant, MAX(order) equals the session's swipe count |
| Tables.WithSwipeNumbered | server/database.py:447-466 | appending a swipe numbered MAX+1 keeps the numbering invariant |
| Tables.NumberedIncreasing | server/database.py:447-466 | within a session swipe orders are at least 1 and strictly increase in insertion order |
| Tables.WithSwipeConsistent | server/database.py:447-466 | a swipe on an existing session and song under a new swipe id, numbered MAX+1, keeps keys, numbering and foreign keys intact |
| Tables.FirstSwipeOrderIsOne | server/database.py:447-451 | the first swipe of a session is numbered 1 |
| Tables.SeenIds | server/database.py:339-346 | x is seen iff some swipe of the session joins a Songs row whose provider id is x |
| Tables.SeenIdsAppend | server/database.py:339-346 | recording a swipe adds exactly the swiped song's provider id to that session's seen set |
| Tables.SessionStats | server/database.py:213-245 | liked <= total, the session's target, zero counts for a session without swipes |
| Tables.NoSwipesCountsZero | server/database.py:241-245 | a session without swipes has count 0 |
| Tables.Complete | server/database.py:226-232 | status becomes COMPLETED; an already COMPLETED row is unchanged; otherwise the date is now; no other column changes |
| Tables.CompleteConsistent | server/database.py:226-232 | completing an existing session keeps every swipe's and session's references intact |
| Tables.CompleteKeepsStats | server/database.py:212-232 | completing a session leaves the statistics of every session unchanged, so stats read before the update are those after it |
| Tables.CompleteIdempotent | server/database.py:208-232 | completing twice equals completing once |
| Tables.ProgressOf | server/database.py:308-320 | None iff no row or a zero target; is_complete iff liked >= target; percentage times target equals liked times 100 |
| Tables.CompleteIffHundred | server/database.py:313-314 | for a positive target, is_complete iff the percentage is at least 100 |
| Text.Strip | server/app.py:333 | the result is an infix s[a..b] with only white space outside it, has no white space at either end, and a trimmed string is left as it is |
| Text.Split | server/app.py:332 | at least one part, no part contains the separator, and joining the parts gives the input back |
| Text.SplitJoin | server/app.py:332 | splitting the join of separator-free parts gives the parts back |
| Catalog.StripNonEmpty | server/app.py:333 | every kept part is non-empty and trimmed, and comma-free parts stay comma-free |
| Catalog.StripNonEmptyAppend | server/app.py:333 | the comprehension over a concatenation is the concatenation of the two comprehensions |
| Catalog.StripNonEmptyMembers | server/app.py:333 | a part appears, stripped, iff it is not blank, and every kept genre is a stripped part |
| Catalog.ParseGenres | server/app.py:332-335 | at least one genre, each non-empty, trimmed and comma-free |
| Catalog.ParseGenresMembers | server/app.py:332-335 | only blank parts give ['pop']; otherwise the genres are exactly the non-blank parts, stripped |
| Catalog.ParseGenresJoin | server/app.py:332-335 | a comma-joined list of normalized genres parses back to that list |
| Catalog.EffectiveLimit | server/app.py:337 | at most 50, at most the requested (default 20) value, and equal to one of the two |
| Catalog.Kept | server/app.py:389-394 | exactly the items with truthy id, name and artists whose id is not seen, in order |
| Catalog.KeptAppend | server/app.py:389-394 | filtering a concatenation concatenates the filtered halves, so kept tracks keep their order |
| Catalog.FromGenres | server/app.py:369-399 | a track is collected iff it is kept from some genre's search result |
| Catalog.Candidates | server/app.py:369-421 | the genre results when any were kept, else the kept fallback results; all pass the filter |
| Catalog.AppendKept | server/app.py:389-394 | the filtering loop appends exactly the kept tracks |
| Catalog.SearchGenres | server/app.py:368-399 | the genre loop builds FromGenres, genre after genre |
| Catalog.CollectCandidates | server/app.py:368-421 | the loops build Candidates, and the fallback runs iff the genre searches kept nothing |
| Catalog.Dedup | server/app.py:424 | not longer than the input, non-empty for a non-empty input |
| Catalog.DedupDistinct | server/app.py:424 | after de-duplication no two tracks share an id |
| Catalog.DedupKeepsIds | server/app.py:424 | every id of the input survives |
| Catalog.DedupLaterWins | server/app.py:424 | each kept track is the last input track with its id |
| Catalog.SliceTo | server/app.py:435 | a prefix of the input, of length min(stop, n) for a non-negative stop and n+stop for a negative one |
| Catalog.ProcessTrack | server/app.py:462-483 | None iff indexing the artist name or image URL raises or the album is not an object; otherwise the defaults 'Unknown Album', uri '', popularity 0, explicit false and the first image URL or '' |
| Catalog.ProcessAll | server/app.py:438-487 | at most one output per selected track, each with the provider id of a selected track |
| Catalog.ProcessAllKeepsEach | server/app.py:438-487 | every selected track that does not raise is answered, processed with its preview and the fresh id of its position |
| Catalog.ProcessAllSnoc | server/app.py:438-487 | one more selected track appends its processed object, or nothing when it raises, so the answer keeps the selection order |
| Catalog.StoredSongs | server/app.py:438-461 | the Songs table after the loop: old rows stay a prefix, at most one row is added per selected track, each under a song id of the selection |
| Catalog.StoredSongsCover | server/app.py:438-461 | with fresh, distinct song ids, every track served within a session has a Songs row found by its provider id |
| Catalog.AsSongData | server/app.py:464-477 | the `song_data` a client posts back: the served provider id and name, the album as a non-object string, no artists |
| Catalog.ProcessAllDistinct | server/app.py:438-487 | processing distinct tracks gives distinct provider ids |
| Catalog.ProcessedAgreesWithSongRow | server/app.py:448-481 | the served track and the Songs row stored for it agree on provider id, title, artist and cover |
| Catalog.Selected | server/app.py:424-435 | every selected track is a candidate and can be processed |
| Catalog.Served | server/app.py:424-487 | the 400 reply happens iff no candidate was kept |
| Catalog.ServedSound | server/app.py:424-487 | the answer has distinct ids, no seen track, at most `limit` tracks for a non-negative limit, and only kept search results |
| Tokens.RefreshAnswer | server/app.py:108-121 | an answer only with a truthy refresh token, and then the provider's |
| Tokens.Refreshed | server/app.py:124-130 | the written row: new access token, expiry now + expires_in, the old refresh token kept when none is sent |
| Tokens.TokenOutcome | server/app.py:103-135 | the stored token iff the expiry is set and more than 5 minutes ahead; otherwise the new token iff a refresh succeeds and is stored; every failure is 'Authentication required. Please sign in again.' |
| Tokens.RefreshThenValid | server/app.py:103-130 | after a refresh longer than 5 minutes the next call at the same time uses the new token |
| Tokens.RefreshedCanRefreshAgain | server/app.py:124-130 | keeping the old refresh token lets an expired token be refreshed again |
| Tokens.RefreshedHasTokens | server/app.py:835-839 | a stored refresh keeps all three tokens present |
| Batching.Batches | server/app.py:1012-1014 | ceil(n/100) batches; the first is the first min(n,100) URIs |
| Batching.BatchesFlatten | server/app.py:1012-1014 | the batches concatenated give the URIs in order |
| Batching.BatchesShape | server/app.py:1012-1014 | each batch holds 1 to 100 URIs and all but the last hold 100 |
| Batching.SendBatches | server/app.py:1011-1016 | the batches taken are a prefix of Batches, so the URIs sent are a prefix of the input; all of them iff no call is rejected; otherwise the next call was rejected |
| Batching.FlattenPrefix | server/app.py:1011-1014 | the items of a prefix of the batches are a prefix of all the items |
| Batching.SentPrefix | server/app.py:1011-1014 | the URIs in the batches taken are a prefix of the URIs, in order |
| App.FreshToken | server/app.py:87-135 | returns TokenOutcome; after a refresh the user's row holds the Refreshed tokens; otherwise Users is unchanged |
| App.GetSong | server/app.py:308-505 | the reply is NoSongsMessage with the parsed genres iff nothing was kept, else the Served tracks; within a reachable session Songs becomes StoredSongs of the selected tracks, otherwise it is unchanged |
| App.ProcessSelected | server/app.py:438-487 | the loop returns ProcessAll of the selected tracks; within a reachable session Songs becomes StoredSongs of them, otherwise it is unchanged |
| App.SwipeBodyError | server/app.py:532-538 | the first missing key among session_id, song_data, direction and spotify_id |
| App.RecordSwipeRoute | server/app.py:507-556 | a missing key or an unstored song answers 500 before any swipe; a new track whose album is not an object answers 'Failed to add song to database' and writes nothing; otherwise the swipe is recorded against the upserted song's id with order MAX+1 |
| App.ServedTrackNotStoredOnSwipe | server/database.py:390-418 | as written: a served track posted back, and not yet in Songs, passes the key checks but its upsert yields no id and stores nothing |
| App.ServedTrackStoredOnSwipeCorrected | server/database.py:390-418 | corrected: the same swipe stores the track under the fresh id, with its title and an empty cover, and a lookup by provider id finds it |
| App.SwipeOnSong | server/app.py:545-552 | the swipe on an existing song, with the insert's error text as the reply |
| App.CreateSwipeSession | server/app.py:558-628 | missing or empty spotify_id gives 400 and no insert; target defaults to 20 and preferences to '{}'; a failed insert gives 500 and no change |
| App.CheckAuth | server/app.py:804-875 | 404 for an unknown user; needs_auth with 'Authentication required' when a token is missing; otherwise needs_auth false iff a fresh token is obtained and the playlists can be read, and Users changes only by the renewed tokens of a refresh |
| App.AddTracksToPlaylist | server/app.py:965-1035 | missing keys give 500, an empty list succeeds without calls, an unknown user gives 404, a token failure gives 401, otherwise batches are sent, the URIs sent are a prefix of the list and `added` is n iff all are taken; Users changes only by the renewed tokens of a refresh |

## Left out

- Network clients are not modelled. The provider's OAuth flow, the search
  client and the preview lookup (server/app.py:48-85, 150-306) become oracle
  parameters.
- The MySQL engine, connection handling, schema creation and SQL file loading
  are not modelled. The table-creation script is not part of this model.
  The model assumes a foreign key from each Swipes row to its session and its
  song, from each session to its user, and from each playlist to its user.
  An INSERT that would break one of them fails.
- Tables.Matches, Tables.LikedIn, Tables.SeenIds: compare `spotify_id`,
  `spotify_uri` and `direction` exactly. MySQL's default `_ci` collations
  compare them case-insensitively and ignore trailing spaces. So a lookup, a
  RIGHT count or a seen set can include rows that the model leaves out.
- The result rows of `get_session_progress.sql` and `get_session_songs.sql`
  are inputs, because those SQL files are not part of this model.
- Randomness is left out. The random search offset is folded into the search
  oracle, and `random.shuffle` is taken to return its input order, which is
  one of its outcomes.
- `uuid4`, `datetime.utcnow` and the ISO date formatting are left out.
  Fresh ids and times are arguments.
- `progress_percentage` is a real-valued division here, not a float.
- JSON (de)serialisation of `session_preferences` is left out. The
  preferences are the already serialised text.
- JSON `null` values inside track objects are not modelled, except that an
  `album` value that is not an object, `null` included, is
  `Schema.NotAnObject`. Request bodies that are not JSON objects are not
  modelled.
- `int()` of a non-numeric `limit` is not modelled. The limit arrives as an
  integer.
- The race between concurrent `MAX + 1` reads in `record_swipe` is left out.
  The model is sequential.
- Five routes are not modelled as handlers.
  - `create_playlist` (server/app.py:877-962) looks up the user (404 when
    absent) and gets a fresh token. It creates the playlist at the provider
    and saves it with `save_playlist`. Any failure after the lookup answers
    401. Its parts are modelled as `Database.Store.GetUser`, `App.FreshToken`
    and `Database.Store.SavePlaylist`.
  - `get_swipe_sessions` (server/app.py:630-712) runs its own aggregate query
    over all of a user's sessions. It is not modelled.
  - `session_progress`, `complete_session` and `session_songs`
    (server/app.py:714-802, 1037-1076) wrap one store method each in JSON.
    Those store methods are modelled.
- App.CheckAuth: uses the corrected `get_user` (`Database.Store.GetUser`). With
  the database unreachable it answers 404 'User not found'. The code as
  written answers 500 'Server error' (server/app.py:870-875); see "Findings".
- App.AddTracksToPlaylist: uses the corrected `get_user` as well. With the
  database unreachable it answers 404. The code as written answers 500 with
  the exception text (server/app.py:1033-1035).
- Database.Store.AddSongToSession: returns None when the database is
  unreachable, as documented. As written, its `except` and `finally` clauses
  read the unbound `conn` and `cursor` and raise UnboundLocalError. Both of
  its callers catch that exception. The only visible difference is the
  message of the 500 reply from `record_swipe`.
- Database.Store.SessionSeenSongs: returns the empty set when the database is
  unreachable, as documented. As written, the `finally` clause reads the
  unbound `cursor` and raises. Its only caller, `get_song`, catches the
  exception and also uses the empty set.
- Batching.SendBatches: the provider's answer to a batch is indexed by its
  position only. The playlist id and the token are not inputs to it.

## Findings

| source | as written | input that shows it | evidently intended | confidence | as-written member | corrected member |
|---|---|---|---|---|---|---|
| server/database.py:529-539 | when `get_db_connection()` raises, `conn` is never bound; the `except` clause returns None but the `finally` clause evaluates `if conn` and raises UnboundLocalError, which replaces the return value | any lookup while the database is unreachable: `check_auth` and `add_tracks_to_playlist` then answer 500 'Server error' / the exception text instead of 404 'User not found' | return None, as the docstring states | high (not executed) | Database.Store.GetUserAsWritten, Database.GetUserUnreachableRaises | Database.Store.GetUser |
| server/database.py:390-393 | a new song's cover is read with `track_data.get('album', {}).get('images')`; the track `record_swipe` receives is the one `get_song` served, whose `album` is the album name string, so `.get` raises AttributeError, the insert is rolled back and None is returned | call `get_song` without `session_id`, then swipe one of the served tracks: `record_swipe` answers 500 'Failed to add song to database' and records no swipe | store the song (with an empty cover) and record the swipe | high (not executed) | Tables.SongUpsert, App.ServedTrackNotStoredOnSwipe | Tables.SongUpsertCorrected, App.ServedTrackStoredOnSwipeCorrected |

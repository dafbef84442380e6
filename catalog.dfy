/** The deterministic rules inside the `get_song` route of server/app.py:
    genre parsing and the limit clamp, the track filter, the fallback
    search, de-duplication by id, truncation, and the per-track defaults.
    The search provider is an oracle from query string to result. */
module Catalog {
  import opened Wrappers
  import opened Schema
  import opened Text
  import Tables

  const DEFAULT_GENRE: string := "pop"
  const DEFAULT_LIMIT: int := 20
  const MAX_LIMIT: int := 50

  // ------------------------------------------------------------------
  // Parameters
  // ------------------------------------------------------------------

  /** A genre as `get_song` passes it on: not empty, no comma, no white
      space at either end. */
  predicate Normalized(g: string) {
    g != "" && ',' !in g && Trimmed(g)
  }

  /** `[g.strip() for g in parts if g.strip()]`. */
  function StripNonEmpty(parts: seq<string>): (r: seq<string>)
    ensures |r| <= |parts|
    ensures forall g :: g in r ==> g != "" && Trimmed(g)
    ensures (forall p :: p in parts ==> ',' !in p) ==> forall g :: g in r ==> ',' !in g
  {
    if parts == [] then []
    else
      var g := Strip(parts[0]);
      var rest := StripNonEmpty(parts[1..]);
      assert forall p :: p in parts[1..] ==> p in parts;
      (if g != "" then [g] else []) + rest
  }

  /** The comprehension works part by part: on a concatenation it is the
      concatenation of its results. */
  lemma {:induction false} StripNonEmptyAppend(a: seq<string>, b: seq<string>)
    ensures StripNonEmpty(a + b) == StripNonEmpty(a) + StripNonEmpty(b)
  {
    if a == [] {
      assert a + b == b;
    } else {
      var g := Strip(a[0]);
      assert (a + b)[0] == a[0];
      assert (a + b)[1..] == a[1..] + b;
      StripNonEmptyAppend(a[1..], b);
      assert StripNonEmpty(a + b) == (if g != "" then [g] else []) + StripNonEmpty(a[1..] + b);
    }
  }

  /** A part is kept, stripped, exactly when it is not blank: every
      non-blank part appears stripped, and every kept genre is a stripped
      part. */
  lemma {:induction false} StripNonEmptyMembers(parts: seq<string>)
    ensures forall p :: p in parts && Strip(p) != "" ==> Strip(p) in StripNonEmpty(parts)
    ensures forall g :: g in StripNonEmpty(parts) ==> exists p :: p in parts && g == Strip(p)
  {
    if parts != [] {
      var rest := parts[1..];
      StripNonEmptyMembers(rest);
      var g0 := Strip(parts[0]);
      assert StripNonEmpty(parts) == (if g0 != "" then [g0] else []) + StripNonEmpty(rest);
      forall p | p in parts && Strip(p) != "" ensures Strip(p) in StripNonEmpty(parts) {
        if p != parts[0] {
          assert p in rest;
        }
      }
      forall g | g in StripNonEmpty(parts) ensures exists p :: p in parts && g == Strip(p) {
        if g in StripNonEmpty(rest) {
          var p :| p in rest && g == Strip(p);
          assert p in parts;
        } else {
          assert parts[0] in parts && g == g0;
        }
      }
    }
  }

  /** `request.args.get('genre', 'pop')` split on ',', stripped, empties
      dropped, and `['pop']` when nothing is left. */
  function ParseGenres(param: Option<string>): (genres: seq<string>)
    ensures |genres| >= 1
    ensures forall g :: g in genres ==> Normalized(g)
  {
    DefaultGenreNormalized();
    var gs := StripNonEmpty(Split(param.GetOr(DEFAULT_GENRE), ','));
    if gs == [] then [DEFAULT_GENRE] else gs
  }

  /** A parameter made only of blank parts gives `['pop']`; otherwise the
      genres are exactly the non-blank parts, stripped. */
  lemma ParseGenresMembers(param: Option<string>)
    ensures var parts := Split(param.GetOr(DEFAULT_GENRE), ',');
            (forall p :: p in parts ==> Strip(p) == "") ==> ParseGenres(param) == [DEFAULT_GENRE]
    ensures var parts := Split(param.GetOr(DEFAULT_GENRE), ',');
            (exists p :: p in parts && Strip(p) != "") ==>
              && (forall p :: p in parts && Strip(p) != "" ==> Strip(p) in ParseGenres(param))
              && (forall g :: g in ParseGenres(param) ==> exists p :: p in parts && g == Strip(p))
  {
    var parts := Split(param.GetOr(DEFAULT_GENRE), ',');
    StripNonEmptyMembers(parts);
    if StripNonEmpty(parts) != [] {
      assert StripNonEmpty(parts)[0] in StripNonEmpty(parts);
    }
  }

  lemma DefaultGenreNormalized()
    ensures Normalized(DEFAULT_GENRE)
  {
  }

  lemma {:induction false} StripNonEmptyNormalized(gs: seq<string>)
    requires forall g :: g in gs ==> Normalized(g)
    ensures StripNonEmpty(gs) == gs
  {
    if gs != [] {
      assert Normalized(gs[0]);
      assert Strip(gs[0]) == gs[0];
      forall g | g in gs[1..] ensures Normalized(g) {
        assert g in gs;
      }
      StripNonEmptyNormalized(gs[1..]);
      assert StripNonEmpty(gs) == [gs[0]] + StripNonEmpty(gs[1..]);
      assert [gs[0]] + gs[1..] == gs;
    }
  }

  /** A comma-joined list of normalized genres parses back to that list. */
  lemma ParseGenresJoin(gs: seq<string>)
    requires |gs| >= 1
    requires forall g :: g in gs ==> Normalized(g)
    ensures ParseGenres(Some(Join(gs, ","))) == gs
  {
    SplitJoin(gs, ',');
    StripNonEmptyNormalized(gs);
  }

  /** `min(int(request.args.get('limit', 20)), 50)`; no lower bound. */
  function EffectiveLimit(requested: Option<int>): (limit: int)
    ensures limit <= MAX_LIMIT
    ensures limit <= requested.GetOr(DEFAULT_LIMIT)
    ensures limit == requested.GetOr(DEFAULT_LIMIT) || limit == MAX_LIMIT
  {
    var n := requested.GetOr(DEFAULT_LIMIT);
    if n < MAX_LIMIT then n else MAX_LIMIT
  }

  // ------------------------------------------------------------------
  // Search results and the filter
  // ------------------------------------------------------------------

  /** One call to the search provider: it raised, or it answered with the
      list at `results['tracks']['items']` (missing keys read as []). */
  datatype SearchResult = SearchFailed | Items(tracks: seq<Track>)

  function ItemsOf(res: SearchResult): seq<Track> {
    match res
    case SearchFailed => []
    case Items(ts) => ts
  }

  function GenreQuery(genre: string): string {
    "genre:\"" + genre + "\""
  }

  /** The fallback query: the genres joined by ' OR '. */
  function FallbackQuery(genres: seq<string>): string {
    Join(genres, " OR ")
  }

  /** A candidate is kept when its `id`, `name` and `artists` are truthy
      and its id has not been seen in the session. */
  predicate KeepTrack(t: Track, seen: set<string>) {
    Truthy(t.id) && t.id.value !in seen && Truthy(t.name) && |t.artists| > 0
  }

  /** The kept tracks of one result list, in order. */
  function Kept(items: seq<Track>, seen: set<string>): (r: seq<Track>)
    ensures |r| <= |items|
    ensures forall t :: t in r <==> t in items && KeepTrack(t, seen)
  {
    if items == [] then []
    else
      var prev := items[..|items| - 1];
      var last := items[|items| - 1];
      assert items == prev + [last];
      Kept(prev, seen) + (if KeepTrack(last, seen) then [last] else [])
  }

  /** The filter works item by item: filtering a concatenation
      concatenates the filtered halves, so the kept tracks keep their order. */
  lemma {:induction false} KeptAppend(a: seq<Track>, b: seq<Track>, seen: set<string>)
    ensures Kept(a + b, seen) == Kept(a, seen) + Kept(b, seen)
  {
    if b == [] {
      assert a + b == a;
    } else {
      var prev := b[..|b| - 1];
      assert (a + b)[..|a + b| - 1] == a + prev;
      assert (a + b)[|a + b| - 1] == b[|b| - 1];
      KeptAppend(a, prev, seen);
    }
  }

  /** What the genre searches contribute, genre after genre. */
  function FromGenres(genres: seq<string>, search: string -> SearchResult, seen: set<string>): (r: seq<Track>)
    ensures forall t :: t in r ==> KeepTrack(t, seen)
    ensures forall t :: t in r <==> exists i :: 0 <= i < |genres| && t in Kept(ItemsOf(search(GenreQuery(genres[i]))), seen)
  {
    if genres == [] then []
    else
      var prev := genres[..|genres| - 1];
      var g := genres[|genres| - 1];
      var r := FromGenres(prev, search, seen) + Kept(ItemsOf(search(GenreQuery(g))), seen);
      assert forall i :: 0 <= i < |prev| ==> prev[i] == genres[i];
      r
  }

  /** One more genre searched adds its kept tracks at the end. */
  lemma FromGenresStep(genres: seq<string>, i: nat, search: string -> SearchResult, seen: set<string>)
    requires i < |genres|
    ensures FromGenres(genres[..i + 1], search, seen)
              == FromGenres(genres[..i], search, seen) + Kept(ItemsOf(search(GenreQuery(genres[i]))), seen)
  {
    assert genres[..i + 1][..i] == genres[..i];
  }

  /** `all_tracks`: the genre results, or the fallback results when the
      genre searches kept nothing. */
  function Candidates(genres: seq<string>, search: string -> SearchResult, seen: set<string>): (r: seq<Track>)
    ensures forall t :: t in r ==> KeepTrack(t, seen)
    ensures FromGenres(genres, search, seen) != [] ==> r == FromGenres(genres, search, seen)
    ensures FromGenres(genres, search, seen) == [] ==> r == Kept(ItemsOf(search(FallbackQuery(genres))), seen)
  {
    var fromGenres := FromGenres(genres, search, seen);
    if fromGenres != [] then fromGenres else Kept(ItemsOf(search(FallbackQuery(genres))), seen)
  }

  /** One filtering loop: appends the kept tracks of `tracks` to `all`. */
  method AppendKept(all: seq<Track>, tracks: seq<Track>, seen: set<string>) returns (out: seq<Track>)
    ensures out == all + Kept(tracks, seen)
  {
    out := all;
    for j := 0 to |tracks|
      invariant out == all + Kept(tracks[..j], seen)
    {
      var track := tracks[j];
      assert tracks[..j + 1][..j] == tracks[..j];
      if KeepTrack(track, seen) {
        out := out + [track];
      }
    }
    assert tracks[..|tracks|] == tracks;
  }

  /** The genre loop of `get_song`: one search per genre, its kept tracks
      appended in genre order. */
  method SearchGenres(genres: seq<string>, search: string -> SearchResult, seen: set<string>)
    returns (all: seq<Track>)
    ensures all == FromGenres(genres, search, seen)
  {
    all := [];
    for i := 0 to |genres|
      invariant all == FromGenres(genres[..i], search, seen)
    {
      all := AppendKept(all, ItemsOf(search(GenreQuery(genres[i]))), seen);
      FromGenresStep(genres, i, search, seen);
    }
    assert genres[..|genres|] == genres;
  }

  /** The genre loop of `get_song`, then the fallback search when it kept
      nothing. */
  method CollectCandidates(genres: seq<string>, search: string -> SearchResult, seen: set<string>)
    returns (all: seq<Track>, usedFallback: bool)
    ensures usedFallback <==> FromGenres(genres, search, seen) == []
    ensures all == Candidates(genres, search, seen)
  {
    all := SearchGenres(genres, search, seen);
    usedFallback := all == [];
    if usedFallback {
      all := AppendKept(all, ItemsOf(search(FallbackQuery(genres))), seen);
    }
  }

  // ------------------------------------------------------------------
  // De-duplication and truncation
  // ------------------------------------------------------------------

  /** The position of the first track with this id, or |ts|. */
  function IndexOfId(ts: seq<Track>, id: Option<string>): (k: nat)
    ensures k <= |ts|
    ensures k < |ts| ==> ts[k].id == id
    ensures forall i :: 0 <= i < k ==> ts[i].id != id
  {
    if ts == [] then 0
    else if ts[0].id == id then 0
    else 1 + IndexOfId(ts[1..], id)
  }

  /** `t` occurs in `ts` and no later track of `ts` has its id. */
  ghost predicate LastWithId(ts: seq<Track>, t: Track) {
    exists i :: 0 <= i < |ts| && ts[i] == t && forall j :: i < j < |ts| ==> ts[j].id != t.id
  }

  /** `list({t['id']: t for t in ts}.values())`: one track per id, a
      repeated id keeps its first position and takes the later track. */
  function Dedup(ts: seq<Track>): (r: seq<Track>)
    ensures |r| <= |ts|
    ensures ts != [] ==> r != []
  {
    if ts == [] then []
    else
      var d := Dedup(ts[..|ts| - 1]);
      var last := ts[|ts| - 1];
      var k := IndexOfId(d, last.id);
      if k < |d| then d[k := last] else d + [last]
  }

  /** No two tracks share an id. */
  ghost predicate DistinctIds(ts: seq<Track>) {
    forall i, j :: 0 <= i < j < |ts| ==> ts[i].id != ts[j].id
  }

  /** After de-duplication no two tracks share an id. */
  lemma {:induction false} DedupDistinct(ts: seq<Track>)
    ensures DistinctIds(Dedup(ts))
  {
    if ts != [] {
      var prev := ts[..|ts| - 1];
      var last := ts[|ts| - 1];
      DedupDistinct(prev);
      var d := Dedup(prev);
      assert DistinctIds(d);
      var k := IndexOfId(d, last.id);
      var r := Dedup(ts);
      assert r == if k < |d| then d[k := last] else d + [last];
      forall i, j | 0 <= i < j < |r| ensures r[i].id != r[j].id {
        if k < |d| {
          assert r[i].id == d[i].id;
          assert r[j].id == d[j].id;
          assert d[i].id != d[j].id;
        } else if j == |d| {
          assert r[i] == d[i];
          assert r[j] == last;
          assert d[i].id != last.id;
        } else {
          assert r[i] == d[i] && r[j] == d[j];
          assert d[i].id != d[j].id;
        }
      }
    }
  }

  /** Some track of `ts` carries `id`. */
  ghost predicate HasId(ts: seq<Track>, id: Option<string>) {
    exists k :: 0 <= k < |ts| && ts[k].id == id
  }

  /** Every id of the input survives de-duplication. */
  lemma {:induction false} DedupKeepsIds(ts: seq<Track>)
    ensures forall t :: t in ts ==> HasId(Dedup(ts), t.id)
  {
    if ts != [] {
      var prev := ts[..|ts| - 1];
      var last := ts[|ts| - 1];
      DedupKeepsIds(prev);
      var d := Dedup(prev);
      assert forall t :: t in prev ==> HasId(d, t.id);
      var k := IndexOfId(d, last.id);
      var r := Dedup(ts);
      assert r == if k < |d| then d[k := last] else d + [last];
      forall t | t in ts ensures HasId(r, t.id) {
        if t == last {
          assert r[if k < |d| then k else |d|].id == t.id;
        } else {
          assert t in prev by {
            var i :| 0 <= i < |ts| && ts[i] == t;
            assert i < |prev| && prev[i] == t;
          }
          var m :| 0 <= m < |d| && d[m].id == t.id;
          assert r[m].id == t.id;
        }
      }
    }
  }

  /** Every track of `r` is the last track of `ts` carrying its id. */
  ghost predicate AllLastWithId(ts: seq<Track>, r: seq<Track>) {
    forall k :: 0 <= k < |r| ==> LastWithId(ts, r[k])
  }

  /** For a repeated id the later track wins: every track kept is the last
      track of the input carrying its id. */
  lemma {:induction false} DedupLaterWins(ts: seq<Track>)
    ensures AllLastWithId(ts, Dedup(ts))
  {
    if ts != [] {
      var prev := ts[..|ts| - 1];
      var last := ts[|ts| - 1];
      DedupLaterWins(prev);
      DedupDistinct(prev);
      var d := Dedup(prev);
      assert AllLastWithId(prev, d);
      assert DistinctIds(d);
      var k := IndexOfId(d, last.id);
      var r := Dedup(ts);
      assert r == if k < |d| then d[k := last] else d + [last];
      forall m | 0 <= m < |r| ensures LastWithId(ts, r[m]) {
        if (k < |d| && m == k) || (k == |d| && m == |d|) {
          assert ts[|ts| - 1] == r[m];
        } else {
          assert r[m] == d[m];
          if k < |d| {
            assert d[k].id == last.id && d[m].id != d[k].id;
          }
          assert d[m].id != last.id;
          assert LastWithId(prev, d[m]);
          var i :| 0 <= i < |prev| && prev[i] == d[m] && forall j :: i < j < |prev| ==> prev[j].id != d[m].id;
          assert ts[i] == r[m];
          assert forall j :: i < j < |ts| ==> ts[j].id != r[m].id by {
            forall j | i < j < |ts| ensures ts[j].id != r[m].id {
              if j < |prev| {
                assert ts[j] == prev[j];
              }
            }
          }
        }
      }
    }
  }

  /** De-duplication only keeps tracks of its input. */
  lemma DedupFromInput(ts: seq<Track>)
    ensures forall t :: t in Dedup(ts) ==> t in ts
  {
    DedupLaterWins(ts);
    var r := Dedup(ts);
    forall t | t in r ensures t in ts {
      var k :| 0 <= k < |r| && r[k] == t;
      assert LastWithId(ts, r[k]);
    }
  }

  /** `xs[:stop]` with Python's slice semantics: a negative stop counts
      from the end. */
  function SliceTo<T>(xs: seq<T>, stop: int): (r: seq<T>)
    ensures r <= xs
    ensures stop >= 0 ==> |r| == if stop < |xs| then stop else |xs|
    ensures stop < 0 ==> |r| == if |xs| + stop > 0 then |xs| + stop else 0
  {
    if stop >= 0 then (if stop < |xs| then xs[..stop] else xs)
    else if |xs| + stop > 0 then xs[..|xs| + stop]
    else []
  }

  // ------------------------------------------------------------------
  // Per-track processing
  // ------------------------------------------------------------------

  /** The track object `get_song` returns to the client. */
  datatype ProcessedTrack = ProcessedTrack(
    id: string,
    spotifyId: string,
    name: string,
    artist: string,
    previewUrl: Option<string>,
    imageUrl: string,
    uri: string,
    popularity: int,
    album: string,
    releaseDate: Option<string>,
    externalUrl: string,
    isExplicit: bool)

  /** What the processing loop assumes of a track, and the filter ensures. */
  predicate Processable(t: Track) {
    t.id.Some? && t.name.Some? && |t.artists| > 0
  }

  /** Indexing `track['artists'][0]['name']` or `album_images[0]['url']`
      raises KeyError, and `.get` on an `album` value that is not an object
      raises AttributeError; the loop then skips the track. */
  predicate ProcessingRaises(t: Track)
    requires Processable(t)
  {
    || t.artists[0].name.None?
    || t.album.NotAnObject?
    || (|t.album.images| > 0 && t.album.images[0].url.None?)
  }

  /** The processed object for one selected track, given the preview URL
      and the fresh `uuid4` id; None when building it raises. */
  function ProcessTrack(t: Track, previewUrl: Option<string>, newId: string): (r: Option<ProcessedTrack>)
    requires Processable(t)
    ensures r.None? <==> ProcessingRaises(t)
    ensures r.Some? ==> t.album.Album?
    ensures r.Some? ==> r.value.id == newId && r.value.spotifyId == t.id.value && r.value.name == t.name.value
    ensures r.Some? ==> r.value.artist == t.artists[0].name.value && r.value.previewUrl == previewUrl
    ensures r.Some? ==> r.value.imageUrl == (if |t.album.images| > 0 then t.album.images[0].url.value else "")
    ensures r.Some? ==> r.value.uri == t.uri.GetOr("") && r.value.popularity == t.popularity.GetOr(0)
    ensures r.Some? ==> r.value.album == t.album.name.GetOr(UNKNOWN_ALBUM) && r.value.releaseDate == t.album.releaseDate
    ensures r.Some? ==> r.value.externalUrl == t.externalUrl.GetOr("") && r.value.isExplicit == t.explicit.GetOr(false)
  {
    if ProcessingRaises(t) then None
    else
      Some(ProcessedTrack(
        newId, t.id.value, t.name.GetOr(UNKNOWN_TITLE),
        t.artists[0].name.value,
        previewUrl,
        if |t.album.images| > 0 then t.album.images[0].url.value else "",
        t.uri.GetOr(""), t.popularity.GetOr(0), t.album.name.GetOr(UNKNOWN_ALBUM),
        t.album.releaseDate, t.externalUrl.GetOr(""), t.explicit.GetOr(false)))
  }

  /** The preview lookup the loop makes: the secondary provider is an
      oracle from (track name, artist name) to a preview URL; it never raises. */
  function PreviewFor(t: Track, preview: (string, string) -> Option<string>): Option<string>
    requires Processable(t)
  {
    if t.artists[0].name.Some? then preview(t.name.value, t.artists[0].name.value) else None
  }

  /** `processed`: the selected tracks that did not raise, in order; the
      i-th selected track gets the i-th fresh id. */
  function ProcessAll(selected: seq<Track>, preview: (string, string) -> Option<string>, newIds: nat -> string)
    : (r: seq<ProcessedTrack>)
    requires forall t :: t in selected ==> Processable(t)
    ensures |r| <= |selected|
    ensures forall p :: p in r ==> exists i :: 0 <= i < |selected| && selected[i].id == Some(p.spotifyId)
  {
    if selected == [] then []
    else
      var prev := selected[..|selected| - 1];
      var last := selected[|selected| - 1];
      assert forall t :: t in prev ==> t in selected;
      assert forall i :: 0 <= i < |prev| ==> prev[i] == selected[i];
      var before := ProcessAll(prev, preview, newIds);
      var step := ProcessTrack(last, PreviewFor(last, preview), newIds(|selected| - 1));
      if step.Some? then before + [step.value] else before
  }

  /** Every selected track that does not raise is answered, processed
      with its own preview URL and the fresh id of its position. */
  lemma {:induction false} ProcessAllKeepsEach(selected: seq<Track>, preview: (string, string) -> Option<string>,
                                              newIds: nat -> string)
    requires forall t :: t in selected ==> Processable(t)
    ensures forall i :: 0 <= i < |selected| && !ProcessingRaises(selected[i]) ==>
              ProcessTrack(selected[i], PreviewFor(selected[i], preview), newIds(i)).value
                in ProcessAll(selected, preview, newIds)
  {
    if selected != [] {
      var n := |selected| - 1;
      var prev := selected[..n];
      var last := selected[n];
      assert forall t :: t in prev ==> t in selected;
      ProcessAllKeepsEach(prev, preview, newIds);
      var before := ProcessAll(prev, preview, newIds);
      var step := ProcessTrack(last, PreviewFor(last, preview), newIds(n));
      var all := ProcessAll(selected, preview, newIds);
      assert all == if step.Some? then before + [step.value] else before;
      forall i | 0 <= i < |selected| && !ProcessingRaises(selected[i])
        ensures ProcessTrack(selected[i], PreviewFor(selected[i], preview), newIds(i)).value in all
      {
        if i < n {
          assert selected[i] == prev[i];
          assert ProcessTrack(prev[i], PreviewFor(prev[i], preview), newIds(i)).value in before;
        } else {
          assert selected[i] == last && step.Some?;
        }
      }
    }
  }

  /** One more selected track adds its processed object at the end, or
      nothing when processing it raises: the output keeps the selection's
      order. */
  lemma ProcessAllSnoc(selected: seq<Track>, t: Track, preview: (string, string) -> Option<string>,
                       newIds: nat -> string)
    requires forall u :: u in selected ==> Processable(u)
    requires Processable(t)
    ensures forall u :: u in selected + [t] ==> Processable(u)
    ensures ProcessAll(selected + [t], preview, newIds)
              == ProcessAll(selected, preview, newIds)
                 + (if ProcessingRaises(t) then [] else [ProcessTrack(t, PreviewFor(t, preview), newIds(|selected|)).value])
  {
    assert (selected + [t])[..|selected|] == selected;
  }

  /** The Songs table after the processing loop, within a session and
      with the database reachable: each selected track whose first artist
      has a name goes through `add_song_to_session`, in order, under the
      fresh song id of its position. */
  function StoredSongs(songs: seq<SongRow>, selected: seq<Track>, songIds: nat -> Id, now: Time)
    : (r: seq<SongRow>)
    requires forall t :: t in selected ==> Processable(t)
    ensures songs <= r && |r| <= |songs| + |selected|
    ensures forall k :: |songs| <= k < |r| ==> exists i :: 0 <= i < |selected| && r[k].songId == songIds(i)
  {
    if selected == [] then songs
    else
      var n := |selected| - 1;
      var prev := selected[..n];
      var last := selected[n];
      assert forall t :: t in prev ==> t in selected;
      assert last in selected;
      assert Processable(last);
      var before := StoredSongs(songs, prev, songIds, now);
      if last.artists[0].name.Some? then
        var u := Tables.SongUpsert(before, last.id.value, last, songIds(n), now);
        assert u.rows == before || (u.rows == before + [u.rows[|before|]] && u.rows[|before|].songId == songIds(n));
        u.rows
      else before
  }

  /** With song ids that are fresh and distinct, every track `get_song`
      answers within a session has a Songs row afterwards, found by its
      provider id: a swipe on it finds that row. */
  lemma {:induction false} StoredSongsCover(songs: seq<SongRow>, selected: seq<Track>, songIds: nat -> Id, now: Time,
                                           preview: (string, string) -> Option<string>, newIds: nat -> string)
    requires forall t :: t in selected ==> Processable(t)
    requires forall i :: 0 <= i < |selected| ==> !Tables.HasSongId(songs, songIds(i))
    requires forall i, j :: 0 <= i < j < |selected| ==> songIds(i) != songIds(j)
    ensures forall p :: p in ProcessAll(selected, preview, newIds) ==>
              Tables.SongIdFor(StoredSongs(songs, selected, songIds, now), Tables.BySpotifyId(p.spotifyId)).Some?
  {
    if selected != [] {
      var n := |selected| - 1;
      var prev := selected[..n];
      var last := selected[n];
      assert forall t :: t in prev ==> t in selected;
      StoredSongsCover(songs, prev, songIds, now, preview, newIds);
      var before := StoredSongs(songs, prev, songIds, now);
      var after := StoredSongs(songs, selected, songIds, now);
      forall p | p in ProcessAll(prev, preview, newIds)
        ensures Tables.SongIdFor(after, Tables.BySpotifyId(p.spotifyId)).Some?
      {
        Tables.SongIdForPrefix(before, after, Tables.BySpotifyId(p.spotifyId));
      }
      var step := ProcessTrack(last, PreviewFor(last, preview), newIds(n));
      if step.Some? {
        var key := Tables.BySpotifyId(last.id.value);
        if Tables.SongIdFor(before, key).None? {
          assert !Tables.HasSongId(before, songIds(n)) by {
            forall k | 0 <= k < |before| ensures before[k].songId != songIds(n) {
              if k < |songs| {
                assert before[k] == songs[k];
              } else {
                var i :| 0 <= i < n && before[k].songId == songIds(i);
              }
            }
          }
          Tables.SongIdForAppend(before, Tables.NewSongRow(songIds(n), last.id.value, last, now), key);
        }
        assert Tables.SongIdFor(after, key).Some?;
      }
    }
  }

  /** The `song_data` the client posts to `record_swipe`: the processed
      track it was served, read with the keys of a track object. Its
      `album` is the album name string, and `artist`, `image_url`,
      `previewUrl`, `external_url` and `isExplicit` are not keys a track
      object uses. */
  function AsSongData(p: ProcessedTrack): (t: Track)
    ensures t.spotifyId == Some(p.spotifyId) && t.name == Some(p.name)
    ensures t.album == NotAnObject(p.album) && t.artists == []
  {
    Track(Some(p.id), Some(p.spotifyId), Some(p.name), [], NotAnObject(p.album), Some(p.uri), Some(p.popularity),
          None, None, None)
  }

  /** No two processed tracks share a provider id. */
  ghost predicate DistinctSpotifyIds(ps: seq<ProcessedTrack>) {
    forall i, j :: 0 <= i < j < |ps| ==> ps[i].spotifyId != ps[j].spotifyId
  }

  /** Processing preserves distinct ids: the returned tracks never repeat a
      provider id when the selected tracks do not. */
  lemma {:induction false} ProcessAllDistinct(selected: seq<Track>, preview: (string, string) -> Option<string>,
                                             newIds: nat -> string)
    requires forall t :: t in selected ==> Processable(t)
    requires DistinctIds(selected)
    ensures DistinctSpotifyIds(ProcessAll(selected, preview, newIds))
  {
    if selected != [] {
      var prev := selected[..|selected| - 1];
      var last := selected[|selected| - 1];
      assert forall t :: t in prev ==> t in selected;
      assert DistinctIds(prev) by {
        forall i, j | 0 <= i < j < |prev| ensures prev[i].id != prev[j].id {
          assert prev[i] == selected[i] && prev[j] == selected[j];
        }
      }
      ProcessAllDistinct(prev, preview, newIds);
      var before := ProcessAll(prev, preview, newIds);
      assert DistinctSpotifyIds(before);
      assert last in selected;
      forall p | p in before ensures Some(p.spotifyId) != last.id {
        var i :| 0 <= i < |prev| && prev[i].id == Some(p.spotifyId);
        assert selected[i] == prev[i];
      }
      var r := ProcessAll(selected, preview, newIds);
      var step := ProcessTrack(last, PreviewFor(last, preview), newIds(|selected| - 1));
      if step.Some? {
        assert r == before + [step.value];
        assert Some(step.value.spotifyId) == last.id;
        forall i, j | 0 <= i < j < |r| ensures r[i].spotifyId != r[j].spotifyId {
          if j == |before| {
            assert r[j] == step.value && r[i] == before[i];
            assert before[i] in before;
          } else {
            assert r[i] == before[i] && r[j] == before[j];
          }
        }
      } else {
        assert r == before;
      }
    }
  }

  /** The processed track and the Songs row inserted for the same track
      agree on title, artist and cover image. */
  lemma ProcessedAgreesWithSongRow(t: Track, previewUrl: Option<string>, newId: string, songId: Id, now: Time)
    requires Processable(t)
    requires ProcessTrack(t, previewUrl, newId).Some?
    ensures var p := ProcessTrack(t, previewUrl, newId).value;
            var row := Tables.NewSongRow(songId, t.id.value, t, now);
            row.spotifyId == Some(p.spotifyId) && row.title == p.name && row.artist == p.artist && row.albumCover == p.imageUrl
  {
  }

  /** The error `get_song` answers with when nothing is left. */
  function NoSongsMessage(genres: seq<string>): string {
    "No songs found for genres: " + Join(genres, ", ")
  }

  /** Every selected track passed the filter, so processing may index its
      id, name and first artist. */
  lemma SelectedProcessable(all: seq<Track>, limit: int, seen: set<string>)
    requires forall t :: t in all ==> KeepTrack(t, seen)
    ensures forall t :: t in SliceTo(Dedup(all), limit) ==> t in all && Processable(t)
  {
    DedupFromInput(all);
    var unique := Dedup(all);
    var selected := SliceTo(unique, limit);
    forall t | t in selected ensures t in all && Processable(t) {
      var i :| 0 <= i < |selected| && selected[i] == t;
      assert selected[i] == unique[i];
    }
  }

  /** `selected_tracks`: the de-duplicated candidates cut to `limit`; each
      passed the filter, so processing may index it. */
  function Selected(genres: seq<string>, limit: int, search: string -> SearchResult, seen: set<string>)
    : (selected: seq<Track>)
    ensures forall t :: t in selected ==> t in Candidates(genres, search, seen) && Processable(t)
  {
    SelectedProcessable(Candidates(genres, search, seen), limit, seen);
    SliceTo(Dedup(Candidates(genres, search, seen)), limit)
  }

  /** What `get_song` answers once the search is done: the processed tracks,
      or None for its 400 reply when no candidate is left. */
  function Served(genres: seq<string>, limit: int, search: string -> SearchResult, seen: set<string>,
                  preview: (string, string) -> Option<string>, newIds: nat -> string)
    : (r: Option<seq<ProcessedTrack>>)
    ensures r.None? <==> Candidates(genres, search, seen) == []
  {
    if Dedup(Candidates(genres, search, seen)) == [] then None
    else Some(ProcessAll(Selected(genres, limit, search, seen), preview, newIds))
  }

  /** The answer of `get_song` never repeats a track, never contains a
      track already swiped in the session, keeps within a non-negative
      limit, and only contains tracks some search returned and kept. */
  lemma ServedSound(genres: seq<string>, limit: int, search: string -> SearchResult, seen: set<string>,
                    preview: (string, string) -> Option<string>, newIds: nat -> string)
    requires Served(genres, limit, search, seen, preview, newIds).Some?
    ensures var ps := Served(genres, limit, search, seen, preview, newIds).value;
            && DistinctSpotifyIds(ps)
            && (forall p :: p in ps ==> p.spotifyId !in seen)
            && (limit >= 0 ==> |ps| <= limit)
            && (forall p :: p in ps ==> exists t :: t in Candidates(genres, search, seen) && t.id == Some(p.spotifyId))
  {
    var all := Candidates(genres, search, seen);
    var unique := Dedup(all);
    DedupFromInput(all);
    DedupDistinct(all);
    var selected := SliceTo(unique, limit);
    assert forall i :: 0 <= i < |selected| ==> selected[i] == unique[i];
    assert forall t :: t in selected ==> t in all;
    assert DistinctIds(selected);
    ProcessAllDistinct(selected, preview, newIds);
    var ps := ProcessAll(selected, preview, newIds);
    forall p | p in ps
      ensures p.spotifyId !in seen
      ensures exists t :: t in all && t.id == Some(p.spotifyId)
    {
      var i :| 0 <= i < |selected| && selected[i].id == Some(p.spotifyId);
      assert selected[i] in all;
      assert KeepTrack(selected[i], seen);
    }
  }
}

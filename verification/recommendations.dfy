/**
 * Building song lists from Spotify replies: `get_top_tracks` and
 * `get_recommendation_by_genres`.
 */
module Recommendations {
  import opened Common
  import opened PySeq
  import opened SpotifyData

  /** The text of the ZeroDivisionError that `limit // len([])` raises. */
  const ZeroDivisionMessage := "integer division or modulo by zero"

  /** `random.randint(0, 950)` draws the search offset from this range. */
  const MaxOffset := 950

  /** The result dictionary of `get_recommendation_by_genres`. */
  datatype Recommendation = Recommendation(tracks: seq<RecTrack>, genresUsed: seq<string>, totalCount: int)

  /** `random.shuffle`, seen from outside: whatever order it picks, it only reorders. */
  ghost predicate IsShuffle(shuffle: seq<RecTrack> -> seq<RecTrack>) {
    forall s :: multiset(shuffle(s)) == multiset(s)
  }

  /** Every random offset lies in the range `random.randint(0, 950)` draws from. */
  ghost predicate OffsetsInRange(offsetOf: nat -> int) {
    forall i :: 0 <= offsetOf(i) <= MaxOffset
  }

  /**
   * What `get_top_tracks` returns for a top-tracks reply: [] when the call
   * raises (`reply` is None) or some item has no artist (the IndexError is
   * caught around the whole loop); otherwise one song per item, in order.
   */
  function TopTracksOf(reply: Option<seq<TrackItem>>): (songs: seq<Song>)
    ensures reply.Some? && (forall k :: 0 <= k < |reply.value| ==> HasArtist(reply.value[k])) ==>
      |songs| == |reply.value| && forall k :: 0 <= k < |songs| ==> songs[k] == ToSong(reply.value[k])
    ensures reply.None? || (exists k :: 0 <= k < |reply.value| && !HasArtist(reply.value[k])) ==> songs == []
  {
    if reply.None? || exists k :: 0 <= k < |reply.value| && !HasArtist(reply.value[k]) then []
    else seq(|reply.value|, k requires 0 <= k < |reply.value| => ToSong(reply.value[k]))
  }

  /** `get_top_tracks`: reshape the top-track items into songs. */
  method GetTopTracks(reply: Option<seq<TrackItem>>) returns (songs: seq<Song>)
    ensures songs == TopTracksOf(reply)
    ensures |songs| == 0 || (reply.Some? && |songs| == |reply.value|)
    ensures forall k :: 0 <= k < |songs| ==>
      reply.Some? && songs[k].name == reply.value[k].name && songs[k].artist == reply.value[k].artists[0]
      && songs[k].albumArt == AlbumArt(reply.value[k])
  {
    if reply.None? {
      return [];
    }
    var items := reply.value;
    songs := [];
    for i := 0 to |items|
      invariant forall k :: 0 <= k < i ==> HasArtist(items[k])
      invariant |songs| == i && forall k :: 0 <= k < i ==> songs[k] == ToSong(items[k])
    {
      if !HasArtist(items[i]) {
        return [];
      }
      songs := songs + [ToSong(items[i])];
    }
  }

  /** The tracks one search reply adds; a failed search (None) adds none. */
  function Contribution(reply: Option<seq<TrackItem>>): seq<RecTrack> {
    match reply
    case None => []
    case Some(items) => UntilMissingArtist(items)
  }

  /**
   * What the genre at position `i` contributes: it is searched with
   * `limit = target` at its own random offset.
   */
  function GenreContribution(genres: seq<string>, i: nat, target: int, offsetOf: nat -> int,
                             search: SearchRequest -> Option<seq<TrackItem>>): seq<RecTrack>
    requires i < |genres|
  {
    Contribution(search(GenreQuery(genres[i], target, offsetOf(i))))
  }

  /** All tracks the first `n` genres collect, genre after genre. */
  function CollectedUpTo(genres: seq<string>, n: nat, target: int, offsetOf: nat -> int,
                         search: SearchRequest -> Option<seq<TrackItem>>): seq<RecTrack>
    requires n <= |genres|
  {
    if n == 0 then []
    else CollectedUpTo(genres, n - 1, target, offsetOf, search) + GenreContribution(genres, n - 1, target, offsetOf, search)
  }

  /** All tracks collected before the shuffle. */
  function Collected(genres: seq<string>, target: int, offsetOf: nat -> int,
                     search: SearchRequest -> Option<seq<TrackItem>>): seq<RecTrack>
  {
    CollectedUpTo(genres, |genres|, target, offsetOf, search)
  }

  /** Appending keeps every element, as often as it occurred. */
  lemma MultisetAppend<T>(a: seq<T>, b: seq<T>, c: seq<T>)
    requires multiset(c) <= multiset(a) || c == b
    ensures multiset(c) <= multiset(a + b)
  {
    assert multiset(a + b) == multiset(a) + multiset(b);
  }

  lemma {:induction false} CollectedUpToIncludes(genres: seq<string>, n: nat, target: int, offsetOf: nat -> int,
                                                 search: SearchRequest -> Option<seq<TrackItem>>, i: nat)
    requires i < n <= |genres|
    ensures multiset(GenreContribution(genres, i, target, offsetOf, search))
      <= multiset(CollectedUpTo(genres, n, target, offsetOf, search))
  {
    if i < n - 1 {
      CollectedUpToIncludes(genres, n - 1, target, offsetOf, search, i);
    }
    MultisetAppend(CollectedUpTo(genres, n - 1, target, offsetOf, search),
                   GenreContribution(genres, n - 1, target, offsetOf, search),
                   GenreContribution(genres, i, target, offsetOf, search));
  }

  /**
   * A genre whose search fails or raises does not stop the others: every
   * track a genre's reply contributes is among the collected tracks.
   */
  lemma CollectedIncludesEveryGenre(genres: seq<string>, target: int, offsetOf: nat -> int,
                                    search: SearchRequest -> Option<seq<TrackItem>>, i: nat)
    requires i < |genres|
    ensures multiset(Contribution(search(GenreQuery(genres[i], target, offsetOf(i)))))
      <= multiset(Collected(genres, target, offsetOf, search))
  {
    CollectedUpToIncludes(genres, |genres|, target, offsetOf, search, i);
  }

  /** `limit // len(user_genres) + 1`, Python's floor division (`len` is positive here). */
  function TargetPerGenre(limit: int, genreCount: nat): int
    requires genreCount > 0
  {
    limit / genreCount + 1
  }

  /** What `get_recommendation_by_genres` returns or raises. */
  function RecommendationsOf(userGenres: seq<string>, limit: int, offsetOf: nat -> int,
                             search: SearchRequest -> Option<seq<TrackItem>>,
                             shuffle: seq<RecTrack> -> seq<RecTrack>): (r: Result<Recommendation, string>)
    ensures r.Err? <==> userGenres == []
    ensures r.Err? ==> r.error == ZeroDivisionMessage
    ensures r.Ok? ==> r.value.genresUsed == userGenres && r.value.totalCount == |r.value.tracks|
    ensures r.Ok? && 0 <= limit ==> |r.value.tracks| <= limit
  {
    if userGenres == [] then Err(ZeroDivisionMessage)
    else
      var songs := Collected(userGenres, TargetPerGenre(limit, |userGenres|), offsetOf, search);
      var tracks := PyTake(shuffle(songs), limit);
      Ok(Recommendation(tracks, userGenres, |tracks|))
  }

  /**
   * The recommendation result: it raises exactly when there are no genres;
   * otherwise as many tracks as `all[:limit]` holds, a prefix of a reordering of the
   * collected tracks, the genres echoed back, and the count equal to the
   * number of tracks.
   */
  lemma RecommendationsShape(userGenres: seq<string>, limit: int, offsetOf: nat -> int,
                             search: SearchRequest -> Option<seq<TrackItem>>,
                             shuffle: seq<RecTrack> -> seq<RecTrack>)
    requires IsShuffle(shuffle)
    ensures var r := RecommendationsOf(userGenres, limit, offsetOf, search, shuffle);
      && (r.Err? <==> userGenres == [])
      && (r.Err? ==> r.error == ZeroDivisionMessage)
      && (r.Ok? ==>
            var all := Collected(userGenres, TargetPerGenre(limit, |userGenres|), offsetOf, search);
            && r.value.genresUsed == userGenres
            && r.value.totalCount == |r.value.tracks|
            && (0 <= limit ==> |r.value.tracks| <= limit)
            && |r.value.tracks| <= |all|
            // exactly as many tracks as `all[:limit]` would hold
            && |r.value.tracks| == |PyTake(all, limit)|
            && (0 <= limit ==> |r.value.tracks| == if limit < |all| then limit else |all|)
            && multiset(r.value.tracks) <= multiset(all))
  {
    if userGenres != [] {
      var all := Collected(userGenres, TargetPerGenre(limit, |userGenres|), offsetOf, search);
      var shuffled := shuffle(all);
      var tracks := PyTake(shuffled, limit);
      assert shuffled == tracks + shuffled[|tracks|..];
      assert multiset(shuffled) == multiset(tracks) + multiset(shuffled[|tracks|..]);
      assert |shuffled| == |multiset(all)| == |all|;
    }
  }

  /**
   * The inner loop of `get_recommendation_by_genres`: append the reshaped
   * items one by one until an item without artists raises.
   */
  method AppendTracks(songs: seq<RecTrack>, items: seq<TrackItem>) returns (out: seq<RecTrack>)
    ensures out == songs + UntilMissingArtist(items)
  {
    out := songs;
    var j := 0;
    while j < |items| && HasArtist(items[j])
      invariant j <= |items|
      invariant forall k :: 0 <= k < j ==> HasArtist(items[k])
      invariant out == songs + seq(j, k requires 0 <= k < j => ToRecTrack(items[k]))
    {
      out := out + [ToRecTrack(items[j])];
      j := j + 1;
    }
    UntilMissingArtistIs(items, j);
  }

  /** The loop over the genres: search each one and append what its reply contributes. */
  method CollectTracks(genres: seq<string>, target: int, offsetOf: nat -> int,
                       search: SearchRequest -> Option<seq<TrackItem>>)
    returns (songs: seq<RecTrack>)
    ensures songs == Collected(genres, target, offsetOf, search)
  {
    songs := [];
    for i := 0 to |genres|
      invariant songs == CollectedUpTo(genres, i, target, offsetOf, search)
    {
      var reply := search(GenreQuery(genres[i], target, offsetOf(i)));
      if reply.Some? {
        songs := AppendTracks(songs, reply.value);
      }
    }
  }

  /** `get_recommendation_by_genres`. */
  method GetRecommendationByGenres(userGenres: seq<string>, limit: int, offsetOf: nat -> int,
                                   search: SearchRequest -> Option<seq<TrackItem>>,
                                   shuffle: seq<RecTrack> -> seq<RecTrack>)
    returns (r: Result<Recommendation, string>)
    requires OffsetsInRange(offsetOf) && IsShuffle(shuffle)
    ensures r == RecommendationsOf(userGenres, limit, offsetOf, search, shuffle)
    ensures r.Err? <==> userGenres == []
    ensures r.Ok? ==> r.value.genresUsed == userGenres && r.value.totalCount == |r.value.tracks|
    ensures r.Ok? && 0 <= limit ==> |r.value.tracks| <= limit
    ensures r.Ok? ==>
      var all := Collected(userGenres, TargetPerGenre(limit, |userGenres|), offsetOf, search);
      && |r.value.tracks| == |PyTake(all, limit)|
      && multiset(r.value.tracks) <= multiset(all)
  {
    if |userGenres| == 0 {
      return Err(ZeroDivisionMessage);
    }
    var target := limit / |userGenres| + 1;
    var songs := CollectTracks(userGenres, target, offsetOf, search);
    songs := shuffle(songs);
    songs := PyTake(songs, limit);
    r := Ok(Recommendation(songs, userGenres, |songs|));
    assert r == RecommendationsOf(userGenres, limit, offsetOf, search, shuffle);
    RecommendationsShape(userGenres, limit, offsetOf, search, shuffle);
  }
}

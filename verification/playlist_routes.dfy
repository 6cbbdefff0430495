/**
 * The `/me` routes of the playlist blueprint: `create_playlist`,
 * `get_top_songs` and `test_genres`. Each asks `get_spotify_client` for a
 * client first, outside its `try`, then combines the helper functions.
 */
module PlaylistRoutes {
  import opened Common
  import opened PySeq
  import opened SpotifyData
  import opened GenreMatching
  import opened TopGenres
  import opened Recommendations
  import opened AuthHelpers

  const NotLoggedIn := "User not logged in"
  const PlaylistMessage := "Recommendations generated!"
  /** `create_playlist` asks for 30 recommendations and shows the first 10. */
  const PlaylistLimit := 30
  const PlaylistShown := 10
  /** `get_top_songs` asks for 20 recommendations. */
  const FavoritesLimit := 20
  /** `test_genres` reports at most this many genres. */
  const GenresShown := 15
  const ServerErrorPrefix := "Server error: "

  /** One entry of `matching_results`: a top genre and what it normalises to. */
  datatype GenreMatch = GenreMatch(original: string, matched: Option<string>)

  /** The JSON bodies the three routes send. */
  datatype Body =
    | ErrorBody(error: string)
    | PlaylistBody(message: string, recommendations: seq<RecTrack>, genresUsed: seq<string>, totalAvailable: int)
    | FavoritesBody(favoriteSongs: seq<Song>, recommendations: seq<RecTrack>, genresUsed: seq<string>)
    | GenreTestBody(yourTopGenres: seq<string>, matchingResults: seq<GenreMatch>)

  /**
   * A route's outcome: a JSON body with a status, or the KeyError of a token
   * without `access_token`, which `get_spotify_client` raises outside the
   * route's `try` and so leaves the route uncaught.
   */
  datatype Response = Json(status: int, body: Body) | Uncaught

  /** `create_playlist` (POST /me/playlist). */
  method CreatePlaylist(sp: ClientOutcome, artistsReply: Option<seq<Artist>>, offsetOf: nat -> int,
                        search: SearchRequest -> Option<seq<TrackItem>>,
                        shuffle: seq<RecTrack> -> seq<RecTrack>)
    returns (resp: Response)
    requires OffsetsInRange(offsetOf) && IsShuffle(shuffle)
    ensures sp.NoClient? ==> resp == Json(401, ErrorBody(NotLoggedIn))
    ensures sp.AccessTokenMissing? ==> resp == Uncaught
    // no top genres: `limit // 0` raises, and the route reports it
    ensures sp.Ready? && TopGenresOf(artistsReply) == [] ==> resp == Json(500, ErrorBody(ZeroDivisionMessage))
    ensures sp.Ready? && TopGenresOf(artistsReply) != [] ==>
      var genres := TopGenresOf(artistsReply);
      var rec := RecommendationsOf(genres, PlaylistLimit, offsetOf, search, shuffle);
      var all := Collected(genres, TargetPerGenre(PlaylistLimit, |genres|), offsetOf, search);
      && rec.Ok?
      && resp == Json(200, PlaylistBody(PlaylistMessage, PyTake(rec.value.tracks, PlaylistShown), genres, |rec.value.tracks|))
      && resp.body.totalAvailable <= PlaylistLimit
      // `total_available` is every collected track, up to the thirty asked for
      && resp.body.totalAvailable == (if |all| < PlaylistLimit then |all| else PlaylistLimit)
      && |resp.body.recommendations| == (if resp.body.totalAvailable < PlaylistShown then resp.body.totalAvailable else PlaylistShown)
      && multiset(resp.body.recommendations) <= multiset(all)
  {
    match sp {
      case NoClient => return Json(401, ErrorBody(NotLoggedIn));
      case AccessTokenMissing => return Uncaught;
      case Ready(_) =>
    }
    var topGenres := GetTopGenres(artistsReply);
    var recommendations := GetRecommendationByGenres(topGenres, PlaylistLimit, offsetOf, search, shuffle);
    match recommendations {
      case Err(e) =>
        resp := Json(500, ErrorBody(e));
      case Ok(rec) =>
        var shown := PyTake(rec.tracks, PlaylistShown);
        PyTakeMultiset(rec.tracks, PlaylistShown);
        resp := Json(200, PlaylistBody(PlaylistMessage, shown, rec.genresUsed, rec.totalCount));
    }
  }

  /** `get_top_songs` (GET /me/favorite-songs). */
  method GetTopSongs(sp: ClientOutcome, tracksReply: Option<seq<TrackItem>>, artistsReply: Option<seq<Artist>>,
                     offsetOf: nat -> int, search: SearchRequest -> Option<seq<TrackItem>>,
                     shuffle: seq<RecTrack> -> seq<RecTrack>)
    returns (resp: Response)
    requires OffsetsInRange(offsetOf) && IsShuffle(shuffle)
    ensures sp.NoClient? ==> resp == Json(401, ErrorBody(NotLoggedIn))
    ensures sp.AccessTokenMissing? ==> resp == Uncaught
    // the ZeroDivisionError is not a SpotifyException: it is reported as a server error
    ensures sp.Ready? && TopGenresOf(artistsReply) == [] ==>
      resp == Json(500, ErrorBody(ServerErrorPrefix + ZeroDivisionMessage))
    ensures sp.Ready? && TopGenresOf(artistsReply) != [] ==>
      var genres := TopGenresOf(artistsReply);
      var rec := RecommendationsOf(genres, FavoritesLimit, offsetOf, search, shuffle);
      var all := Collected(genres, TargetPerGenre(FavoritesLimit, |genres|), offsetOf, search);
      && rec.Ok?
      && resp == Json(200, FavoritesBody(TopTracksOf(tracksReply), rec.value.tracks, genres))
      && |resp.body.recommendations| == (if |all| < FavoritesLimit then |all| else FavoritesLimit)
      && multiset(resp.body.recommendations) <= multiset(all)
  {
    match sp {
      case NoClient => return Json(401, ErrorBody(NotLoggedIn));
      case AccessTokenMissing => return Uncaught;
      case Ready(_) =>
    }
    var songs := GetTopTracks(tracksReply);
    var topGenres := GetTopGenres(artistsReply);
    var recommendations := GetRecommendationByGenres(topGenres, FavoritesLimit, offsetOf, search, shuffle);
    match recommendations {
      case Err(e) =>
        resp := Json(500, ErrorBody(ServerErrorPrefix + e));
      case Ok(rec) =>
        resp := Json(200, FavoritesBody(songs, rec.tracks, rec.genresUsed));
    }
  }

  /** The loop of `test_genres`: one result per genre, in order. */
  method MatchEach(genres: seq<string>, valid: seq<string>) returns (results: seq<GenreMatch>)
    ensures |results| == |genres|
    ensures forall k :: 0 <= k < |genres| ==>
      && results[k] == GenreMatch(genres[k], NormalizeGenre(genres[k], valid))
      && (results[k].matched.Some? ==> results[k].matched.value in valid)
  {
    results := [];
    for i := 0 to |genres|
      invariant |results| == i
      invariant forall k :: 0 <= k < i ==> results[k] == GenreMatch(genres[k], NormalizeGenre(genres[k], valid))
    {
      var matched := NormalizeGenre(genres[i], valid);
      results := results + [GenreMatch(genres[i], matched)];
    }
  }

  /** `test_genres` (GET /me/test-genres): how each top genre normalises. */
  method TestGenres(sp: ClientOutcome, artistsReply: Option<seq<Artist>>, seedsReply: Option<seq<string>>)
    returns (resp: Response)
    ensures sp.NoClient? ==> resp == Json(401, ErrorBody(NotLoggedIn))
    ensures sp.AccessTokenMissing? ==> resp == Uncaught
    // nothing inside the `try` raises, so a client always gets a 200
    ensures sp.Ready? ==>
      && resp.Json? && resp.status == 200 && resp.body.GenreTestBody?
      // at most ten genres come back, so the cut to fifteen keeps them all
      && resp.body.yourTopGenres == TopGenresOf(artistsReply)
      && |resp.body.yourTopGenres| <= GenresShown
      && |resp.body.matchingResults| == |resp.body.yourTopGenres|
    ensures sp.Ready? && resp.Json? && resp.body.GenreTestBody? ==>
      var genres := resp.body.yourTopGenres;
      var valid := ValidSeeds(seedsReply);
      forall k :: 0 <= k < |genres| ==>
        && resp.body.matchingResults[k] == GenreMatch(genres[k], NormalizeGenre(genres[k], valid))
        && (resp.body.matchingResults[k].matched.Some? ==> resp.body.matchingResults[k].matched.value in valid)
  {
    match sp {
      case NoClient => return Json(401, ErrorBody(NotLoggedIn));
      case AccessTokenMissing => return Uncaught;
      case Ready(_) =>
    }
    var topGenres := GetTopGenres(artistsReply);
    var valid := ValidSeeds(seedsReply);
    var shown := PyTake(topGenres, GenresShown);
    assert shown == topGenres;
    var results := MatchEach(shown, valid);
    resp := Json(200, GenreTestBody(shown, results));
  }
}

/**
 * The mood lookup and playlist reshaping of `get_playlist_for_mood`.
 */
module MoodService {
  import opened Common
  import opened PyStr
  import opened SpotifyData

  /** `MOOD_GENRE_MAP`. */
  const MoodGenreMap: map<string, string> := map[
    "happy" := "pop", "sad" := "acoustic", "chill" := "lofi", "focus" := "classical",
    "angry" := "metal", "romantic" := "r&b", "energetic" := "edm"
  ]

  /** The genre used for a mood that is not in the table. */
  const DefaultGenre := "pop"

  /** `MOOD_GENRE_MAP.get(mood.lower(), "pop")`. */
  function GenreForMood(mood: string): (genre: string)
    ensures Lower(mood) in MoodGenreMap ==> genre == MoodGenreMap[Lower(mood)]
    ensures Lower(mood) !in MoodGenreMap ==> genre == DefaultGenre
    ensures genre in MoodGenreMap.Values
  {
    assert MoodGenreMap["happy"] == DefaultGenre;
    if Lower(mood) in MoodGenreMap then MoodGenreMap[Lower(mood)] else DefaultGenre
  }

  /** The lookup ignores case: a mood and its lower-case form get the same genre. */
  lemma GenreForMoodIgnoresCase(mood: string)
    ensures GenreForMood(Lower(mood)) == GenreForMood(mood)
  {
    LowerIdempotent(mood);
  }

  /** One playlist entry as `get_playlist_for_mood` builds it. */
  datatype MoodEntry = MoodEntry(track: string, artist: string, previewUrl: Option<string>, albumArt: Option<string>)

  /** The result dictionary: the mood as the caller wrote it, and the entries. */
  datatype MoodPlaylist = MoodPlaylist(mood: string, playlist: seq<MoodEntry>)

  /** The two ways `get_playlist_for_mood` can raise. */
  datatype MoodError = SearchFailed | ArtistMissing

  function ToMoodEntry(item: TrackItem): (entry: MoodEntry)
    requires HasArtist(item)
    ensures entry.track == item.name && entry.artist == item.artists[0]
    ensures entry.previewUrl == item.previewUrl && entry.albumArt == AlbumArt(item)
  {
    MoodEntry(item.name, item.artists[0], item.previewUrl, AlbumArt(item))
  }

  /** The search `get_playlist_for_mood` makes: offset 0, Spotify's default. */
  function MoodSearch(mood: string, limit: int): (req: SearchRequest)
    ensures req.query == "genre:" + GenreForMood(mood) && req.limit == limit
  {
    GenreQuery(GenreForMood(mood), limit, 0)
  }

  /**
   * `get_playlist_for_mood`. The search oracle answers None when the call
   * raises; an item without artists raises IndexError. Neither is caught.
   */
  method GetPlaylistForMood(mood: string, limit: int, search: SearchRequest -> Option<seq<TrackItem>>)
    returns (r: Result<MoodPlaylist, MoodError>)
    ensures search(MoodSearch(mood, limit)).None? ==> r == Err(SearchFailed)
    ensures search(MoodSearch(mood, limit)).Some? ==>
      var items := search(MoodSearch(mood, limit)).value;
      && (r.Err? <==> exists k :: 0 <= k < |items| && !HasArtist(items[k]))
      && (r.Err? ==> r.error == ArtistMissing)
      && (r.Ok? ==>
            && r.value.mood == mood && |r.value.playlist| == |items|
            && forall k :: 0 <= k < |items| ==> HasArtist(items[k]) && r.value.playlist[k] == ToMoodEntry(items[k]))
  {
    var genre := GenreForMood(mood);
    var results := search(GenreQuery(genre, limit, 0));
    if results.None? {
      return Err(SearchFailed);
    }
    var items := results.value;
    var playlist: seq<MoodEntry> := [];
    for i := 0 to |items|
      invariant forall k :: 0 <= k < i ==> HasArtist(items[k])
      invariant |playlist| == i && forall k :: 0 <= k < i ==> playlist[k] == ToMoodEntry(items[k])
    {
      if !HasArtist(items[i]) {
        return Err(ArtistMissing);
      }
      playlist := playlist + [ToMoodEntry(items[i])];
    }
    r := Ok(MoodPlaylist(mood, playlist));
  }
}

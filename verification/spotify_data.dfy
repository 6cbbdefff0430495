/**
 * The shapes of the Spotify Web API replies the backend reads, and the
 * dictionaries it builds from them for the client.
 */
module SpotifyData {
  import opened Common

  /** One entry of `items` in a track reply; only the fields the backend reads. */
  datatype TrackItem = TrackItem(
    name: string,
    artists: seq<string>,       // the artists' names, in Spotify's order
    previewUrl: Option<string>, // `preview_url`, which Spotify may send as null
    albumImages: seq<string>,   // the URLs of `album.images`, in Spotify's order
    spotifyUrl: string,         // `external_urls.spotify`
    uri: string)

  /** One entry of `items` in a top-artists reply. */
  datatype Artist = Artist(name: string, genres: seq<string>)

  /** The arguments of one `sp.search(q=…, limit=…, type=…, offset=…)` call. */
  datatype SearchRequest = SearchRequest(query: string, limit: int, kind: string, offset: int)

  /** A favourite song as `get_top_tracks` reports it. */
  datatype Song = Song(name: string, artist: string, preview: Option<string>, albumArt: Option<string>)

  /** A recommended track as `get_recommendation_by_genres` reports it. */
  datatype RecTrack = RecTrack(
    name: string, artist: string, preview: Option<string>, albumArt: Option<string>,
    spotifyUrl: string, uri: string)

  /** `item["artists"][0]` is defined: indexing an empty artist list raises IndexError. */
  predicate HasArtist(item: TrackItem) {
    |item.artists| > 0
  }

  /** The `album_art` field: the first album image, or None when the album has none. */
  function AlbumArt(item: TrackItem): (art: Option<string>)
    ensures art.None? <==> item.albumImages == []
    ensures art.Some? ==> art.value == item.albumImages[0]
  {
    if |item.albumImages| > 0 then Some(item.albumImages[0]) else None
  }

  /** The dictionary `get_top_tracks` builds for one item: the first artist stands for all. */
  function ToSong(item: TrackItem): (song: Song)
    requires HasArtist(item)
    ensures song.name == item.name && song.artist == item.artists[0]
    ensures song.preview == item.previewUrl && song.albumArt == AlbumArt(item)
  {
    Song(item.name, item.artists[0], item.previewUrl, AlbumArt(item))
  }

  /** The dictionary `get_recommendation_by_genres` appends for one search item. */
  function ToRecTrack(item: TrackItem): (track: RecTrack)
    requires HasArtist(item)
    ensures track.name == item.name && track.artist == item.artists[0]
    ensures track.preview == item.previewUrl && track.albumArt == AlbumArt(item)
    ensures track.spotifyUrl == item.spotifyUrl && track.uri == item.uri
  {
    RecTrack(item.name, item.artists[0], item.previewUrl, AlbumArt(item), item.spotifyUrl, item.uri)
  }

  /** The search a genre is looked up with: the query `genre:<name>` for tracks. */
  function GenreQuery(genre: string, limit: int, offset: int): (req: SearchRequest)
    ensures req.query == "genre:" + genre && req.kind == "track"
  {
    SearchRequest("genre:" + genre, limit, "track", offset)
  }

  /**
   * What one reply contributes when its items are appended one by one until
   * an item without artists raises: every item before that one, reshaped.
   */
  function UntilMissingArtist(items: seq<TrackItem>): (tracks: seq<RecTrack>)
    ensures |tracks| <= |items|
    ensures forall k :: 0 <= k < |tracks| ==> HasArtist(items[k]) && tracks[k] == ToRecTrack(items[k])
    ensures |tracks| < |items| ==> !HasArtist(items[|tracks|])
  {
    if items == [] || !HasArtist(items[0]) then []
    else [ToRecTrack(items[0])] + UntilMissingArtist(items[1..])
  }

  /** The contribution is fixed by the first item without artists, if any. */
  lemma {:induction false} UntilMissingArtistIs(items: seq<TrackItem>, j: nat)
    requires j <= |items|
    requires forall k :: 0 <= k < j ==> HasArtist(items[k])
    requires j == |items| || !HasArtist(items[j])
    ensures UntilMissingArtist(items) == seq(j, k requires 0 <= k < j => ToRecTrack(items[k]))
  {
    var t := UntilMissingArtist(items);
    assert |t| == j;
  }
}

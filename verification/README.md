# Moodify backend — a Dafny model

Moodify is a small Flask backend over the Spotify Web API. Its logic does three things:

- It turns a user's listening history into recommendations. It takes the genres of their top artists and keeps the most common ones. It searches Spotify for tracks of each genre, mixes the results and trims them to a limit. It can also map free-text artist genres onto Spotify's list of seed genres.
- It guards every Spotify call with a token-freshness check. The OAuth token kept in the session is refreshed 60 seconds before it expires, and a missing client becomes a 401.
- It looks a mood up in a fixed mood-to-genre table and turns one genre search into a playlist.

This project models that logic and proves what it promises. The Spotify Web API, the OAuth refresh, the clock and the random choices are parameters of the model:

- A reply is an `Option` value; `None` means the call raised.
- The search is a function from a `SearchRequest` to such a reply.
- The random offsets are a function from the genre's position to an offset in 0..950.
- The shuffle is any function that only reorders its input (`IsShuffle`).

Modules:

| module | file | models |
|---|---|---|
| `Common` | common.dfy | `Option`, `Result` |
| `PyStr` | pystr.dfy | `str.lower`, `str.strip`, the substring test `a in b` |
| `PySeq` | pyseq.dfy | slicing `s[:n]`, `list(dict.fromkeys(s))` |
| `SpotifyData` | spotify_data.dfy | the reply items read and the dictionaries built from them |
| `GenreMatching` | genre_matching.dfy | `get_valid_seeds`, `normalize_genre`, `match_genres_to_spotify` |
| `TopGenres` | top_genres.dfy | `get_top_genres`, including `Counter.most_common` |
| `Recommendations` | recommendations.dfy | `get_top_tracks`, `get_recommendation_by_genres` |
| `PlaylistRoutes` | playlist_routes.dfy | the routes `create_playlist`, `get_top_songs`, `test_genres` |
| `AuthHelpers` | auth_helpers.dfy | `get_spotify_client` on a `Session` object, `require_auth` |
| `MoodService` | mood_service.dfy | `MOOD_GENRE_MAP`, `get_playlist_for_mood` |

Behaviour of the code that the model keeps as written:

- `get_top_genres` returns `[]` when the user has no top artists or the call fails. `get_recommendation_by_genres` then computes `limit // 0` and raises ZeroDivisionError. The playlist routes answer with a 500 whose error text is the exception's message. `CreatePlaylist` and `GetTopSongs` state this case.
- `create_playlist` never reads the mood the client sends. It always recommends from the user's top genres.
- In `get_top_songs`, no helper lets a `SpotifyException` escape. So the "Spotify API error" branch cannot be reached, and the division by zero is reported as "Server error: …".
- The routes do not pass their genres through `match_genres_to_spotify`. They search with the raw top genres.
- An item without artists raises IndexError at `item["artists"][0]`. The effect differs by function:
  - In `get_recommendation_by_genres`, it ends that genre's loop. The tracks already appended for the genre stay (`UntilMissingArtist`).
  - In `get_top_tracks`, the whole result becomes `[]`.
  - In `get_playlist_for_mood`, it propagates to the caller.
- `if matched:` also skips a match that is the empty string.
- routes/auth_helpers.py:6 imports `sp_oauth` from `services.spotify_service`, but services/spotify_service.py defines no `sp_oauth`; it is defined in routes/auth_routes.py:8. Read as written, that import fails, and with it every module that imports `get_spotify_client`. The model treats the token refresh as a parameter, so it cannot show this.

## Model

| member | source | states |
|---|---|---|
| `PyStr.Lower` | services/play_list.py:39 | same length; each upper-case letter becomes its lower-case form and every other character is kept |
| `PyStr.Strip` | services/play_list.py:39 | the result is a contiguous slice of the input, everything removed is white space, and neither end of the result is white space |
| `PySeq.PyTake` | services/play_list.py:103 | `s[:n]` is a prefix of `s`, of length `n` clamped to `len(s)`, or `len(s) + n` (clamped at 0) for negative `n` |
| `PySeq.Dedup` | services/play_list.py:103 | `list(dict.fromkeys(s))` has no duplicates and holds exactly the values of `s` |
| `PySeq.DedupOrder` | services/play_list.py:103 | the deduplicated values are listed in the order of their first occurrence in `s` |
| `PySeq.PyTakeMultiset` | services/play_list.py:205 | a slice prefix holds no element more often than the whole list |
| `SpotifyData.AlbumArt` | services/play_list.py:21 | `album_art` is None exactly when the album has no images, else the first image's URL |
| `SpotifyData.ToSong` | services/play_list.py:17-22 | a favourite song carries the item's name, first artist, preview URL and album art |
| `SpotifyData.ToRecTrack` | services/play_list.py:164-172 | a recommended track carries the item's name, first artist, preview URL, album art, Spotify URL and URI |
| `SpotifyData.GenreQuery` | services/play_list.py:149-161 | a genre is searched for tracks with the query `genre:<name>` |
| `SpotifyData.UntilMissingArtist` | services/play_list.py:163-172 | the tracks a reply contributes are the reshaped items before the first item without artists, in order |
| `SpotifyData.UntilMissingArtistIs` | services/play_list.py:163-172 | the contribution is exactly the reshaped items up to the first item without artists |
| `GenreMatching.ValidSeeds` | services/play_list.py:28-35 | the seed genres Spotify reports, or the fallback `pop, rock, hip-hop, electronic, indie` when the call raises; an empty list only when Spotify reports none |
| `GenreMatching.FirstPartialMatch` | services/play_list.py:82-86 | None exactly when no valid genre contains or is contained in the text; else the first such valid genre in list order |
| `GenreMatching.NormalizeGenre` | services/play_list.py:37-86 | every non-None result is a member of the valid genres |
| `GenreMatching.NormalizePrecedence` | services/play_list.py:39-79 | an exact match wins; the alias target is returned only when it is valid; otherwise the substring fallback decides |
| `GenreMatching.EmptyIsNoAlias` | services/play_list.py:46-73 | the empty string is not a key of the alias table |
| `GenreMatching.NormalizeBlankGenre` | services/play_list.py:82-86 | an empty or all-white-space genre matches `""` if it is valid, else the first valid genre |
| `GenreMatching.NormalizeAll` | services/play_list.py:94-95 | one `normalize_genre` result per input genre, in order; every non-None result is valid |
| `GenreMatching.KeepTruthy` | services/play_list.py:96-97 | `if matched:` keeps only non-empty values, each one among the results |
| `GenreMatching.KeepTruthyAppend` | services/play_list.py:94-97 | keeping distributes over concatenation, so the kept values stay in input order and keep their multiplicity |
| `GenreMatching.KeepTruthyOne` | services/play_list.py:96-97 | a single result is kept exactly when it is a non-empty match |
| `GenreMatching.KeepTruthyComplete` | services/play_list.py:96-97 | every truthy result is kept |
| `GenreMatching.MatchedGenres` | services/play_list.py:94-100 | the collected matches are valid, non-empty, and no more than the input genres |
| `GenreMatching.MatchedGenresComplete` | services/play_list.py:94-100 | every input genre with a truthy match contributes that match |
| `GenreMatching.MatchResult` | services/play_list.py:102-106 | at most 5 genres, each a valid, non-empty seed genre |
| `GenreMatching.MatchResultShape` | services/play_list.py:102-106 | the result has at most 5 distinct valid genres, in order of first match |
| `GenreMatching.MatchResultComplete` | services/play_list.py:94-106 | a matching genre is missing from the result only when 5 genres are already kept, each first matched before it |
| `GenreMatching.MatchResultLeftOut` | services/play_list.py:102-106 | `[:5]` keeps the first five distinct matches: a matched genre left out means five are kept, each first matched before it |
| `GenreMatching.MatchGenresToSpotify` | services/play_list.py:88-106 | the loop builds exactly the match result, with all of the properties above |
| `TopGenres.InsertByCount` | services/play_list.py:125-126 | one insertion step adds exactly the new genre |
| `TopGenres.InsertByCountSorted` | services/play_list.py:125-126 | inserting a genre first seen later keeps the count-descending, first-seen-on-ties order |
| `TopGenres.SortByCount` | services/play_list.py:125-126 | sorting by count only reorders the genres |
| `TopGenres.SortByCountSorted` | services/play_list.py:125-126 | sorting genres listed in first-seen order yields `most_common`'s order |
| `TopGenres.MostCommon` | services/play_list.py:125-126 | at most `n` genres, each one of the counted genres |
| `TopGenres.MostCommonProperties` | services/play_list.py:125-126 | at most `n` distinct genres, by descending count with ties in first-seen order; a genre left out comes after all `n` kept |
| `TopGenres.MostCommonLeftOut` | services/play_list.py:125-126 | a genre left out means `n` genres are kept, each ordered before it |
| `TopGenres.GenresOf` | services/play_list.py:119-121 | a genre is collected exactly when one of the artists lists it |
| `TopGenres.TopGenresOf` | services/play_list.py:108-134 | `[]` when the call raises or lists no artist; otherwise at most 10 genres, each listed by one of the first 5 artists |
| `TopGenres.GetTopGenres` | services/play_list.py:108-134 | `[]` on failure or no artists; otherwise at most 10 distinct genres of the first 5 artists in `most_common` order |
| `Recommendations.TopTracksOf` | services/play_list.py:11-26 | `[]` when the call fails or some item has no artist; otherwise one song per item, in order |
| `Recommendations.GetTopTracks` | services/play_list.py:11-26 | the loop returns exactly that list; each song's artist is the item's first artist |
| `Recommendations.CollectedIncludesEveryGenre` | services/play_list.py:146-175 | a failing genre does not stop the others: each genre's tracks are all among the collected tracks |
| `Recommendations.RecommendationsOf` | services/play_list.py:136-189 | raises the division error exactly when the genre list is empty; else the genres echoed back, at most `limit` tracks and `total_count` equal to their number |
| `Recommendations.RecommendationsShape` | services/play_list.py:136-189 | raises exactly when the genre list is empty; else exactly as many tracks as `all[:limit]` of the collected list `all` holds (`min(limit, len(all))` for a non-negative limit), drawn from a reordering of it, `total_count` equal to their number, the genres echoed back |
| `Recommendations.AppendTracks` | services/play_list.py:163-172 | the inner loop appends exactly the tracks before the first item without artists |
| `Recommendations.CollectTracks` | services/play_list.py:146-175 | the loop over the genres collects exactly each genre's contribution, in genre order |
| `Recommendations.GetRecommendationByGenres` | services/play_list.py:136-189 | each genre is searched for `limit // n + 1` tracks at its random offset; the result satisfies the shape above, including the exact number of tracks |
| `PlaylistRoutes.CreatePlaylist` | services/play_list.py:193-210 | 401 without a client; 500 with the division error when there are no top genres; else the first 10 recommendations, and `total_available` equal to the number of collected tracks capped at 30 |
| `PlaylistRoutes.GetTopSongs` | services/play_list.py:212-245 | 401 without a client; "Server error: …" 500 when there are no top genres; else the top tracks and the number of collected tracks capped at 20 as recommendations |
| `PlaylistRoutes.MatchEach` | services/play_list.py:261-266 | one result per genre, in order, pairing it with its normalised seed genre, which is valid when present |
| `PlaylistRoutes.TestGenres` | services/play_list.py:249-273 | 401 without a client; else 200 with at most 15 genres and one matching result per genre, each match a valid seed genre |
| `AuthHelpers.IsExpired` | routes/auth_helpers.py:29-33 | expired exactly when at most 60 seconds remain; a missing `expires_at` counts as 0 |
| `AuthHelpers.MissingExpiryAlwaysExpired` | routes/auth_helpers.py:30-33 | a token without `expires_at` is expired at every clock reading |
| `AuthHelpers.ClientFrom` | routes/auth_helpers.py:57 | the client carries the token's access token; a token without one raises KeyError |
| `AuthHelpers.ExpectedOutcome` | routes/auth_helpers.py:9-57 | no client without a stored token; never refused while the token is fresh; a client carries the fresh token's access token, or else the refreshed token's |
| `AuthHelpers.Guard` | routes/auth_helpers.py:76-84 | no client gives a 401 without calling the handler; a client is passed first, the other arguments unchanged |
| `AuthHelpers.Session.GetSpotifyClient` | routes/auth_helpers.py:9-57 | no token: None, session untouched; fresh token: its client, session untouched; expired without refresh token or with a failing refresh: None, old token kept; refreshed: the new token is stored and builds the client |
| `AuthHelpers.Session.RequireAuth` | routes/auth_helpers.py:60-86 | the wrapped route answers 401 exactly when no client is available; the session changes only when an expired token is refreshed, and then only its `token_info` entry becomes the new token |
| `MoodService.GenreForMood` | services/spotify_service.py:19-34 | the table's genre for the lower-cased mood, else `"pop"`; always a genre of the table |
| `MoodService.GenreForMoodIgnoresCase` | services/spotify_service.py:34 | moods with the same lower-case form get the same genre |
| `MoodService.ToMoodEntry` | services/spotify_service.py:39-44 | an entry carries the item's name, first artist, preview URL and first album image |
| `MoodService.MoodSearch` | services/spotify_service.py:35 | the search uses the query `genre:<genre for the mood>` and the caller's limit |
| `MoodService.GetPlaylistForMood` | services/spotify_service.py:29-47 | the original mood string and one entry per search item, in order; an error when the search fails or an item has no artists |

## Left out

- `PyStr.Lower`: covers ASCII and Latin-1 upper-case letters only. Python's `str.lower` also lowers the rest of Unicode; genre names outside Latin-1 are not modelled.
- Each reply is taken as given. The `limit` and `time_range` arguments of `current_user_top_tracks` and `current_user_top_artists` are not modelled as bounds on the number of items returned.
- The spotipy client and `SpotifyOAuth.refresh_access_token` are foreign calls. They are parameters of the model, and their own behaviour is not modelled.
- A failure inside a reply (a missing `tracks` or `items` key) is modelled as the call raising (`None`). Other missing keys in an item (`name`, `album`, `uri`, …) are not modelled; items always carry those fields.
- The random offset and `random.shuffle` are parameters: any offsets in 0..950 and any reordering. No distribution is modelled.
- The clock `time.time()` is the parameter `now`.
- `print` logging is left out: it only writes to the console.
- Flask wiring is not part of this model: blueprints, CORS, the OAuth login and callback routes in routes/auth_routes.py, and `jsonify`. A response is modelled as a status and a body value.
- The mood route's query-string parsing in routes/mood_routes.py is not part of this model. It only calls `get_playlist_for_mood`.
- The session holds only the token entry; other session keys are not modelled.
- The React user interface is not part of this model. It renders results and slices the list for display.

/**
 * Mapping free-text artist genres onto Spotify's seed genres
 * (`normalize_genre`, `get_valid_seeds` and `match_genres_to_spotify`).
 */
module GenreMatching {
  import opened Common
  import opened PyStr
  import opened PySeq

  /** Aliases for pop and rock styles. */
  const PopRockAliases: map<string, string> := map[
    "dance pop" := "dance", "pop dance" := "dance", "indie pop" := "indie-pop",
    "synth pop" := "synth-pop", "country pop" := "country", "pop rock" := "pop",
    "electro pop" := "electro", "dream pop" := "indie-pop", "bedroom pop" := "indie-pop",
    "art pop" := "indie-pop", "power pop" := "power-pop", "latin pop" := "latin",
    "taiwanese pop" := "mandopop", "c-pop" := "mandopop", "cpop" := "mandopop",
    "indie rock" := "indie-pop", "alt rock" := "alt-rock", "alternative rock" := "alternative",
    "hard rock" := "hard-rock", "punk rock" := "punk-rock", "j rock" := "j-rock",
    "psychedelic rock" := "psych-rock", "garage rock" := "garage"
  ]

  /** Aliases for hip hop, R&B and indie styles. */
  const HipHopRnbIndieAliases: map<string, string> := map[
    "hip hop" := "hip-hop", "rap" := "hip-hop", "trap" := "hip-hop",
    "k-rap" := "k-pop", "chinese hip hop" := "hip-hop", "mandarin hip hop" := "hip-hop",
    "cantonese hip hop" := "hip-hop", "taiwanese hip hop" := "hip-hop", "r&b" := "r-n-b",
    "rnb" := "r-n-b", "rhythm and blues" := "r-n-b", "chinese r&b" := "r-n-b",
    "mandarin r&b" := "r-n-b", "taiwanese r&b" := "r-n-b", "k-r&b" := "r-n-b",
    "kr&b" := "r-n-b", "indie" := "indie-pop", "indie folk" := "folk",
    "chinese indie" := "indie-pop", "taiwanese indie" := "indie-pop", "mandarin indie" := "indie-pop"
  ]

  /** Aliases for regional pop, dance, metal and the rest. */
  const RegionalDanceAliases: map<string, string> := map[
    "k-pop" := "k-pop", "kpop" := "k-pop", "korean pop" := "k-pop",
    "j-pop" := "j-pop", "jpop" := "j-pop", "japanese pop" := "j-pop",
    "j-rock" := "j-rock", "jrock" := "j-rock", "mandopop" := "mandopop",
    "mando-pop" := "mandopop", "cantopop" := "cantopop", "canto-pop" := "cantopop",
    "electronic dance music" := "edm", "electronic" := "electronic", "edm" := "edm",
    "house music" := "house", "deep house" := "deep-house", "heavy metal" := "heavy-metal",
    "death metal" := "death-metal", "singer songwriter" := "singer-songwriter", "acoustic pop" := "acoustic",
    "soul music" := "soul", "disco music" := "disco"
  ]

  /**
   * The fixed alias table consulted after the exact match fails (its keys are
   * distinct, so the union is the table itself).
   */
  const GenreMappings: map<string, string> := PopRockAliases + HipHopRnbIndieAliases + RegionalDanceAliases

  /** The seed genres used when Spotify's seed list cannot be fetched. */
  const FallbackSeeds: seq<string> := ["pop", "rock", "hip-hop", "electronic", "indie"]

  /** At most this many matched genres are kept. */
  const MaxMatchedGenres := 5

  /**
   * `get_valid_seeds`: Spotify's seed genres, or the fallback list when the
   * call raises (`reply` is None).
   */
  function ValidSeeds(reply: Option<seq<string>>): (seeds: seq<string>)
    ensures reply.Some? ==> seeds == reply.value
    ensures reply.None? ==> seeds == FallbackSeeds
    ensures seeds == [] ==> reply == Some([])
  {
    match reply
    case Some(genres) => genres
    case None => FallbackSeeds
  }

  /** The partial-match test: either string occurs in the other. */
  predicate Overlaps(valid: string, genre: string) {
    Contains(genre, valid) || Contains(valid, genre)
  }

  /**
   * The substring fallback: the first valid genre, in list order, that occurs
   * in `genre` or contains it; None when there is none.
   */
  function FirstPartialMatch(genre: string, valid: seq<string>): (r: Option<string>)
    ensures r.None? <==> forall k :: 0 <= k < |valid| ==> !Overlaps(valid[k], genre)
    ensures r.Some? ==> r.value in valid && Overlaps(r.value, genre)
    ensures r.Some? ==> forall k :: 0 <= k < FirstIndex(valid, r.value) ==> !Overlaps(valid[k], genre)
  {
    if valid == [] then None
    else if Overlaps(valid[0], genre) then Some(valid[0])
    else FirstPartialMatch(genre, valid[1..])
  }

  /** `genre.lower().strip()`. */
  function NormalizedText(genre: string): string {
    Strip(Lower(genre))
  }

  /**
   * `normalize_genre`: an exact match, then the alias table (only when the
   * alias target is itself valid), then the substring fallback.
   */
  function NormalizeGenre(genre: string, valid: seq<string>): (r: Option<string>)
    ensures r.Some? ==> r.value in valid
  {
    var g := NormalizedText(genre);
    if g in valid then Some(g)
    else if g in GenreMappings && GenreMappings[g] in valid then Some(GenreMappings[g])
    else FirstPartialMatch(g, valid)
  }

  /** The three rules are tried in a fixed order, and the first that applies decides. */
  lemma NormalizePrecedence(genre: string, valid: seq<string>)
    ensures var g := NormalizedText(genre);
      && (g in valid ==> NormalizeGenre(genre, valid) == Some(g))
      && (g !in valid && g in GenreMappings && GenreMappings[g] in valid ==>
            NormalizeGenre(genre, valid) == Some(GenreMappings[g]))
      && (g !in valid && (g !in GenreMappings || GenreMappings[g] !in valid) ==>
            NormalizeGenre(genre, valid) == FirstPartialMatch(g, valid))
  {
  }

  lemma EmptyIsNoPopRockAlias() ensures "" !in PopRockAliases {}
  lemma EmptyIsNoHipHopRnbIndieAlias() ensures "" !in HipHopRnbIndieAliases {}
  lemma EmptyIsNoRegionalDanceAlias() ensures "" !in RegionalDanceAliases {}

  lemma EmptyIsNoAlias()
    ensures "" !in GenreMappings
  {
    EmptyIsNoPopRockAlias();
    EmptyIsNoHipHopRnbIndieAlias();
    EmptyIsNoRegionalDanceAlias();
  }

  /**
   * A genre that is empty or only white space matches the empty seed genre
   * when there is one, and otherwise the first seed genre.
   */
  lemma NormalizeBlankGenre(genre: string, valid: seq<string>)
    requires forall i :: 0 <= i < |genre| ==> IsSpace(genre[i])
    requires valid != []
    ensures NormalizeGenre(genre, valid) == Some(if "" in valid then "" else valid[0])
  {
    LowerKeepsSpace(genre);
    StripAllSpace(Lower(genre));
    assert NormalizedText(genre) == "";
    EmptyIsNoAlias();
    ContainsEmpty(valid[0]);
    assert Overlaps(valid[0], "");
  }

  /** `normalize_genre` applied to each input genre, in order. */
  function NormalizeAll(userGenres: seq<string>, valid: seq<string>): (rs: seq<Option<string>>)
    ensures |rs| == |userGenres|
    ensures forall k :: 0 <= k < |rs| ==> rs[k] == NormalizeGenre(userGenres[k], valid)
    ensures forall k :: 0 <= k < |rs| ==> rs[k].Some? ==> rs[k].value in valid
  {
    seq(|userGenres|, k requires 0 <= k < |userGenres| => NormalizeGenre(userGenres[k], valid))
  }

  /** The results `if matched:` lets through, in order: None and the empty string are falsy. */
  function KeepTruthy(results: seq<Option<string>>): (kept: seq<string>)
    ensures |kept| <= |results|
    ensures forall k :: 0 <= k < |kept| ==> kept[k] != "" && Some(kept[k]) in results
  {
    if results == [] then []
    else
      var last := results[|results| - 1];
      KeepTruthy(results[..|results| - 1]) + (if last.Some? && last.value != "" then [last.value] else [])
  }

  /** Keeping the truthy results of one more result. */
  lemma KeepTruthySnoc(results: seq<Option<string>>, i: nat)
    requires i < |results|
    ensures KeepTruthy(results[..i + 1]) == KeepTruthy(results[..i])
      + (if results[i].Some? && results[i].value != "" then [results[i].value] else [])
  {
    assert results[..i + 1][..i] == results[..i];
  }

  /**
   * Keeping distributes over concatenation: the kept results stay in input
   * order, each as often as it occurs, and nothing from elsewhere joins them.
   */
  lemma {:induction false} KeepTruthyAppend(a: seq<Option<string>>, b: seq<Option<string>>)
    ensures KeepTruthy(a + b) == KeepTruthy(a) + KeepTruthy(b)
    decreases |b|
  {
    if b != [] {
      var n := |b| - 1;
      assert (a + b)[..|a + b| - 1] == a + b[..n];
      KeepTruthyAppend(a, b[..n]);
    } else {
      assert a + b == a;
    }
  }

  /** A single result is kept exactly when it is truthy. */
  lemma KeepTruthyOne(x: Option<string>)
    ensures KeepTruthy([x]) == if x.Some? && x.value != "" then [x.value] else []
  {
    assert [x][..0] == [];
  }

  /** Every truthy result is kept. */
  lemma {:induction false} KeepTruthyComplete(results: seq<Option<string>>, i: nat)
    requires i < |results| && results[i].Some? && results[i].value != ""
    ensures results[i].value in KeepTruthy(results)
    decreases |results|
  {
    var n := |results| - 1;
    var before := KeepTruthy(results[..n]);
    if i < n {
      assert results[..n][i] == results[i];
      KeepTruthyComplete(results[..n], i);
      var k :| 0 <= k < |before| && before[k] == results[i].value;
      assert KeepTruthy(results)[k] == results[i].value;
    } else {
      assert KeepTruthy(results)[|before|] == results[i].value;
    }
  }

  /** When every result lies in `valid`, so does every kept result. */
  lemma KeptAreValid(results: seq<Option<string>>, valid: seq<string>)
    requires forall k :: 0 <= k < |results| ==> results[k].Some? ==> results[k].value in valid
    ensures forall k :: 0 <= k < |KeepTruthy(results)| ==> KeepTruthy(results)[k] in valid
  {
    var kept := KeepTruthy(results);
    forall k | 0 <= k < |kept|
      ensures kept[k] in valid
    {
      var j :| 0 <= j < |results| && results[j] == Some(kept[k]);
    }
  }

  /**
   * The genres `match_genres_to_spotify` appends, in input order: the truthy
   * results of `normalize_genre`.
   */
  function MatchedGenres(userGenres: seq<string>, valid: seq<string>): (matched: seq<string>)
    ensures forall k :: 0 <= k < |matched| ==> matched[k] in valid && matched[k] != ""
    ensures |matched| <= |userGenres|
  {
    var rs := NormalizeAll(userGenres, valid);
    KeptAreValid(rs, valid);
    KeepTruthy(rs)
  }

  /** Every input genre with a (truthy) match contributes that match. */
  lemma MatchedGenresComplete(userGenres: seq<string>, valid: seq<string>, i: nat)
    requires i < |userGenres|
    requires NormalizeGenre(userGenres[i], valid).Some? && NormalizeGenre(userGenres[i], valid).value != ""
    ensures NormalizeGenre(userGenres[i], valid).value in MatchedGenres(userGenres, valid)
  {
    KeepTruthyComplete(NormalizeAll(userGenres, valid), i);
  }

  /** What `match_genres_to_spotify` returns for a given list of seed genres. */
  function MatchResult(userGenres: seq<string>, valid: seq<string>): (unique: seq<string>)
    ensures |unique| <= MaxMatchedGenres
    ensures forall k :: 0 <= k < |unique| ==> unique[k] in valid && unique[k] != ""
  {
    var matched := MatchedGenres(userGenres, valid);
    var d := Dedup(matched);
    var unique := PyTake(d, MaxMatchedGenres);
    forall k | 0 <= k < |unique|
      ensures unique[k] in matched
    {
      assert unique[k] == d[k];
    }
    unique
  }

  /**
   * The matched genres are at most five distinct seed genres, listed in the
   * order of their first match.
   */
  lemma MatchResultShape(userGenres: seq<string>, valid: seq<string>)
    ensures var unique := MatchResult(userGenres, valid);
      && |unique| <= MaxMatchedGenres && NoDups(unique)
      && (forall k :: 0 <= k < |unique| ==> unique[k] in valid)
      && InFirstSeenOrder(MatchedGenres(userGenres, valid), unique)
  {
    var matched := MatchedGenres(userGenres, valid);
    var d := Dedup(matched);
    var unique := MatchResult(userGenres, valid);
    assert unique == d[..|unique|];
    DedupOrder(matched);
    forall k | 0 <= k < |unique|
      ensures unique[k] in valid
    {
      assert unique[k] == d[k] && d[k] in matched;
    }
  }

  /**
   * `[:5]` keeps the first five distinct matches: a matched genre left out
   * means five are kept, each first matched before it.
   */
  lemma MatchResultLeftOut(userGenres: seq<string>, valid: seq<string>, g: string)
    requires g in MatchedGenres(userGenres, valid) && g !in MatchResult(userGenres, valid)
    ensures |MatchResult(userGenres, valid)| == MaxMatchedGenres
    ensures var matched := MatchedGenres(userGenres, valid);
      var unique := MatchResult(userGenres, valid);
      forall k :: 0 <= k < |unique| ==> FirstIndex(matched, unique[k]) < FirstIndex(matched, g)
  {
    var matched := MatchedGenres(userGenres, valid);
    var d := Dedup(matched);
    var unique := MatchResult(userGenres, valid);
    assert unique == d[..|unique|];
    DedupOrder(matched);
    var j :| 0 <= j < |matched| && matched[j] == g;
    assert g in d;
    var p :| 0 <= p < |d| && d[p] == g;
    assert |unique| <= p;
    forall k | 0 <= k < |unique|
      ensures FirstIndex(matched, unique[k]) < FirstIndex(matched, g)
    {
      assert unique[k] == d[k];
    }
  }

  /**
   * A genre that matches is dropped only when five matched genres are
   * already kept, each of them first matched before it.
   */
  lemma MatchResultComplete(userGenres: seq<string>, valid: seq<string>)
    ensures forall i :: 0 <= i < |userGenres| ==>
      var m := NormalizeGenre(userGenres[i], valid);
      var unique := MatchResult(userGenres, valid);
      m.Some? && m.value != "" ==>
        && m.value in MatchedGenres(userGenres, valid)
        && (m.value in unique || |unique| == MaxMatchedGenres)
        && (m.value !in unique ==>
              forall k :: 0 <= k < |unique| ==>
                FirstIndex(MatchedGenres(userGenres, valid), unique[k]) < FirstIndex(MatchedGenres(userGenres, valid), m.value))
  {
    forall i | 0 <= i < |userGenres|
      ensures var m := NormalizeGenre(userGenres[i], valid);
        var unique := MatchResult(userGenres, valid);
        m.Some? && m.value != "" ==>
          && m.value in MatchedGenres(userGenres, valid)
          && (m.value in unique || |unique| == MaxMatchedGenres)
          && (m.value !in unique ==>
                forall k :: 0 <= k < |unique| ==>
                  FirstIndex(MatchedGenres(userGenres, valid), unique[k]) < FirstIndex(MatchedGenres(userGenres, valid), m.value))
    {
      var m := NormalizeGenre(userGenres[i], valid);
      if m.Some? && m.value != "" {
        MatchedGenresComplete(userGenres, valid, i);
        if m.value !in MatchResult(userGenres, valid) {
          MatchResultLeftOut(userGenres, valid, m.value);
        }
      }
    }
  }

  /**
   * `match_genres_to_spotify`: the distinct matches, in the order of their
   * first match, at most five of them.
   */
  method MatchGenresToSpotify(userGenres: seq<string>, seedsReply: Option<seq<string>>)
    returns (unique: seq<string>)
    ensures unique == MatchResult(userGenres, ValidSeeds(seedsReply))
    ensures |unique| <= MaxMatchedGenres && NoDups(unique)
    ensures forall k :: 0 <= k < |unique| ==> unique[k] in ValidSeeds(seedsReply)
    ensures InFirstSeenOrder(MatchedGenres(userGenres, ValidSeeds(seedsReply)), unique)
    ensures forall i :: 0 <= i < |userGenres| ==>
      var m := NormalizeGenre(userGenres[i], ValidSeeds(seedsReply));
      m.Some? && m.value != "" ==> m.value in unique || |unique| == MaxMatchedGenres
  {
    var valid := ValidSeeds(seedsReply);
    ghost var rs := NormalizeAll(userGenres, valid);
    var matched: seq<string> := [];
    for i := 0 to |userGenres|
      invariant matched == KeepTruthy(rs[..i])
    {
      var m := NormalizeGenre(userGenres[i], valid);
      assert rs[i] == m;
      KeepTruthySnoc(rs, i);
      if m.Some? && m.value != "" {
        matched := matched + [m.value];
      }
    }
    assert rs[..|userGenres|] == rs;
    unique := PyTake(Dedup(matched), MaxMatchedGenres);
    MatchResultShape(userGenres, valid);
    MatchResultComplete(userGenres, valid);
  }
}

/**
 * `get_top_genres`: the genres of the user's first five top artists, counted,
 * and the ten most common kept (`Counter.most_common(10)`).
 */
module TopGenres {
  import opened Common
  import opened PySeq
  import opened SpotifyData

  /** Only this many of the top artists are read. */
  const ArtistsRead := 5
  /** At most this many genres are returned. */
  const MaxTopGenres := 10

  /** How often `g` occurs in `all`, as `Counter(all)[g]` reports it. */
  function Count(all: seq<string>, g: string): nat {
    multiset(all)[g]
  }

  /**
   * The order `most_common` reports genres in: a higher count first, and on
   * equal counts the genre seen first in `all` first.
   */
  ghost predicate Before(all: seq<string>, a: string, b: string)
    requires a in all && b in all
  {
    Count(all, a) > Count(all, b)
    || (Count(all, a) == Count(all, b) && FirstIndex(all, a) < FirstIndex(all, b))
  }

  /** `r` holds values of `all` only, listed strictly in the `Before` order. */
  ghost predicate SortedByCount(all: seq<string>, r: seq<string>) {
    (forall k :: 0 <= k < |r| ==> r[k] in all)
    && forall i, j :: 0 <= i < j < |r| ==> Before(all, r[i], r[j])
  }

  /**
   * One step of the stable sort by descending count: `g` goes after every
   * genre whose count is at least its own.
   */
  function InsertByCount(all: seq<string>, g: string, sorted: seq<string>): (r: seq<string>)
    ensures multiset(r) == multiset(sorted) + multiset{g}
    ensures |r| == |sorted| + 1
    ensures forall k :: 0 <= k < |r| ==> r[k] == g || r[k] in sorted
  {
    if sorted == [] then [g]
    else
      assert sorted == [sorted[0]] + sorted[1..];
      if Count(all, sorted[0]) >= Count(all, g) then [sorted[0]] + InsertByCount(all, g, sorted[1..])
      else [g] + sorted
  }

  /** A genre that comes before every element of a sorted sequence can be put in front of it. */
  lemma SortedCons(all: seq<string>, x: string, t: seq<string>)
    requires x in all && SortedByCount(all, t)
    requires forall j :: 0 <= j < |t| ==> Before(all, x, t[j])
    ensures SortedByCount(all, [x] + t)
  {
    var r := [x] + t;
    forall i, j | 0 <= i < j < |r|
      ensures Before(all, r[i], r[j])
    {
      assert r[j] == t[j - 1];
      if i > 0 {
        assert r[i] == t[i - 1];
      }
    }
  }

  /** The tail of a sorted sequence is sorted. */
  lemma SortedTail(all: seq<string>, sorted: seq<string>)
    requires sorted != [] && SortedByCount(all, sorted)
    ensures SortedByCount(all, sorted[1..])
  {
    var rest := sorted[1..];
    forall i, j | 0 <= i < j < |rest|
      ensures Before(all, rest[i], rest[j])
    {
      assert rest[i] == sorted[i + 1] && rest[j] == sorted[j + 1];
    }
  }

  /**
   * When the head's count is at least the new genre's, the genre goes into
   * the tail, and the head still comes before everything there.
   */
  lemma InsertBehindHead(all: seq<string>, g: string, sorted: seq<string>)
    requires g in all && sorted != [] && SortedByCount(all, sorted)
    requires FirstIndex(all, sorted[0]) < FirstIndex(all, g)
    requires Count(all, sorted[0]) >= Count(all, g)
    requires SortedByCount(all, InsertByCount(all, g, sorted[1..]))
    ensures SortedByCount(all, InsertByCount(all, g, sorted))
  {
    var rest := sorted[1..];
    var t := InsertByCount(all, g, rest);
    forall j | 0 <= j < |t|
      ensures Before(all, sorted[0], t[j])
    {
      if t[j] != g {
        var m :| 0 <= m < |rest| && rest[m] == t[j];
        assert sorted[m + 1] == t[j];
      }
    }
    SortedCons(all, sorted[0], t);
  }

  /** A genre with a higher count than the head comes before every sorted genre. */
  lemma NewBeforeAll(all: seq<string>, g: string, sorted: seq<string>)
    requires g in all && sorted != [] && SortedByCount(all, sorted)
    requires Count(all, sorted[0]) < Count(all, g)
    ensures forall j :: 0 <= j < |sorted| ==> Before(all, g, sorted[j])
  {
    forall j | 0 <= j < |sorted|
      ensures Before(all, g, sorted[j])
    {
      if j > 0 {
        assert Before(all, sorted[0], sorted[j]);
      }
    }
  }

  /**
   * Inserting a genre first seen after every genre already sorted keeps the
   * sequence in the `Before` order.
   */
  lemma {:induction false} InsertByCountSorted(all: seq<string>, g: string, sorted: seq<string>)
    requires g in all && SortedByCount(all, sorted)
    requires forall k :: 0 <= k < |sorted| ==> FirstIndex(all, sorted[k]) < FirstIndex(all, g)
    ensures SortedByCount(all, InsertByCount(all, g, sorted))
  {
    if sorted != [] {
      SortedTail(all, sorted);
      if Count(all, sorted[0]) >= Count(all, g) {
        var rest := sorted[1..];
        assert forall k :: 0 <= k < |rest| ==> rest[k] == sorted[k + 1];
        InsertByCountSorted(all, g, rest);
        InsertBehindHead(all, g, sorted);
      } else {
        NewBeforeAll(all, g, sorted);
        SortedCons(all, g, sorted);
      }
    }
  }

  /** `sorted(keys, key=count, reverse=True)`, a stable sort, written as insertion sort. */
  function SortByCount(all: seq<string>, keys: seq<string>): (r: seq<string>)
    ensures multiset(r) == multiset(keys)
    decreases |keys|
  {
    if keys == [] then []
    else
      var p := keys[..|keys| - 1];
      assert keys == p + [keys[|keys| - 1]];
      InsertByCount(all, keys[|keys| - 1], SortByCount(all, p))
  }

  /** Sorting genres listed in first-seen order gives the `Before` order. */
  lemma {:induction false} SortByCountSorted(all: seq<string>, keys: seq<string>)
    requires InFirstSeenOrder(all, keys)
    ensures SortedByCount(all, SortByCount(all, keys))
    decreases |keys|
  {
    if keys != [] {
      var p := keys[..|keys| - 1];
      var g := keys[|keys| - 1];
      assert InFirstSeenOrder(all, p);
      SortByCountSorted(all, p);
      var sp := SortByCount(all, p);
      forall k | 0 <= k < |sp|
        ensures FirstIndex(all, sp[k]) < FirstIndex(all, g)
      {
        assert sp[k] in multiset(p);
        var m :| 0 <= m < |p| && p[m] == sp[k];
        assert keys[m] == sp[k];
      }
      InsertByCountSorted(all, g, sp);
    }
  }

  /** `Counter(all).most_common(n)`, keeping the genres only. */
  function MostCommon(all: seq<string>, n: nat): (top: seq<string>)
    ensures |top| <= n
    ensures forall k :: 0 <= k < |top| ==> top[k] in all
  {
    var keys := Dedup(all);
    var sorted := SortByCount(all, keys);
    var top := PyTake(sorted, n);
    assert forall k :: 0 <= k < |top| ==> top[k] == sorted[k] && sorted[k] in multiset(keys);
    top
  }

  /** A sequence in the strict `Before` order has no duplicates, and neither has any prefix of it. */
  lemma SortedPrefix(all: seq<string>, r: seq<string>, n: nat)
    requires SortedByCount(all, r) && n <= |r|
    ensures SortedByCount(all, r[..n]) && NoDups(r[..n])
  {
    var p := r[..n];
    forall i, j | 0 <= i < j < |p|
      ensures Before(all, p[i], p[j]) && p[i] != p[j]
    {
      assert p[i] == r[i] && p[j] == r[j];
    }
  }

  /**
   * The most common genres: at most `n` distinct genres of `all`, in the
   * `Before` order, and any genre left out comes after every genre kept.
   */
  lemma MostCommonProperties(all: seq<string>, n: nat)
    ensures var top := MostCommon(all, n);
      && |top| <= n && NoDups(top)
      && SortedByCount(all, top)
      && forall g :: g in all && g !in top ==>
           |top| == n && forall k :: 0 <= k < |top| ==> Before(all, top[k], g)
  {
    var keys := Dedup(all);
    DedupOrder(all);
    SortByCountSorted(all, keys);
    var sorted := SortByCount(all, keys);
    var top := MostCommon(all, n);
    assert top == sorted[..|top|];
    SortedPrefix(all, sorted, |top|);
    forall g | g in all && g !in top
      ensures |top| == n && forall k :: 0 <= k < |top| ==> Before(all, top[k], g)
    {
      MostCommonLeftOut(all, n, g);
    }
  }

  lemma MostCommonLeftOut(all: seq<string>, n: nat, g: string)
    requires g in all && g !in MostCommon(all, n)
    ensures SortedByCount(all, MostCommon(all, n))
    ensures var top := MostCommon(all, n);
      |top| == n && forall k :: 0 <= k < |top| ==> Before(all, top[k], g)
  {
    var keys := Dedup(all);
    DedupOrder(all);
    SortByCountSorted(all, keys);
    var sorted := SortByCount(all, keys);
    var top := MostCommon(all, n);
    assert top == sorted[..|top|];
    var i :| 0 <= i < |all| && all[i] == g;
    assert g in keys;
    assert g in multiset(sorted);
    var p :| 0 <= p < |sorted| && sorted[p] == g;
    assert |top| <= p;
    SortedPrefix(all, sorted, |top|);
    forall k | 0 <= k < |top|
      ensures Before(all, top[k], g)
    {
      assert top[k] == sorted[k];
    }
  }

  /** All genres of `artists`, in order: what the loop accumulates with `extend`. */
  function GenresOf(artists: seq<Artist>): (all: seq<string>)
    ensures forall g :: g in all <==> exists a :: a in artists && g in a.genres
  {
    if artists == [] then []
    else GenresOf(artists[..|artists| - 1]) + artists[|artists| - 1].genres
  }

  /**
   * What `get_top_genres` returns for a top-artists reply: [] when the call
   * raises (`reply` is None) or lists no artist, otherwise the ten most
   * common genres of the first five artists.
   */
  function TopGenresOf(reply: Option<seq<Artist>>): (top: seq<string>)
    ensures reply.None? || reply.value == [] ==> top == []
    ensures |top| <= MaxTopGenres
    ensures forall k :: 0 <= k < |top| ==>
      reply.Some? && exists a :: a in PyTake(reply.value, ArtistsRead) && top[k] in a.genres
  {
    if reply.None? || reply.value == [] then []
    else MostCommon(GenresOf(PyTake(reply.value, ArtistsRead)), MaxTopGenres)
  }

  /** `get_top_genres`. */
  method GetTopGenres(reply: Option<seq<Artist>>) returns (top: seq<string>)
    ensures top == TopGenresOf(reply)
    ensures reply.None? || reply.value == [] ==> top == []
    ensures |top| <= MaxTopGenres && NoDups(top)
    ensures reply.Some? ==> SortedByCount(GenresOf(PyTake(reply.value, ArtistsRead)), top)
    ensures forall k :: 0 <= k < |top| ==>
      reply.Some? && exists a :: a in PyTake(reply.value, ArtistsRead) && top[k] in a.genres
  {
    if reply.None? || reply.value == [] {
      return [];
    }
    var artists := PyTake(reply.value, ArtistsRead);
    var all: seq<string> := [];
    for i := 0 to |artists|
      invariant all == GenresOf(artists[..i])
    {
      assert artists[..i + 1][..i] == artists[..i];
      all := all + artists[i].genres;
    }
    assert artists[..|artists|] == artists;
    top := MostCommon(all, MaxTopGenres);
    MostCommonProperties(all, MaxTopGenres);
  }
}

/**
 * The Python list operations the backend relies on: the slice `s[:n]`,
 * the order-preserving de-duplication `list(dict.fromkeys(s))`, and the
 * position at which a value first occurs.
 */
module PySeq {

  /** `s[:n]`, including Python's meaning of a negative `n` (drop that many from the end). */
  function PyTake<T>(s: seq<T>, n: int): (r: seq<T>)
    ensures |r| <= |s| && r == s[..|r|]
    ensures 0 <= n ==> |r| == if n < |s| then n else |s|
    ensures n < 0 ==> |r| == if |s| + n < 0 then 0 else |s| + n
  {
    if 0 <= n then (if n < |s| then s[..n] else s)
    else if |s| + n < 0 then []
    else s[..|s| + n]
  }

  /** A slice prefix keeps only elements of the original, as often as they occur there. */
  lemma PyTakeMultiset<T>(s: seq<T>, n: int)
    ensures multiset(PyTake(s, n)) <= multiset(s)
  {
    var r := PyTake(s, n);
    assert s == r + s[|r|..];
  }

  predicate NoDups<T(==)>(s: seq<T>) {
    forall i, j :: 0 <= i < j < |s| ==> s[i] != s[j]
  }

  /** The position of the first occurrence of `x` in `s`. */
  function FirstIndex<T(==)>(s: seq<T>, x: T): (k: nat)
    requires x in s
    ensures k < |s| && s[k] == x
    ensures forall j :: 0 <= j < k ==> s[j] != x
  {
    if s[0] == x then 0 else 1 + FirstIndex(s[1..], x)
  }

  /** A value that already occurs in a prefix first occurs at the same place in the whole. */
  lemma FirstIndexPrefix<T>(s: seq<T>, n: nat, x: T)
    requires n <= |s| && x in s[..n]
    ensures x in s && FirstIndex(s, x) == FirstIndex(s[..n], x)
  {
    var k := FirstIndex(s[..n], x);
    assert s[k] == x;
    assert forall j :: 0 <= j < k ==> s[j] == s[..n][j];
  }

  /**
   * `list(dict.fromkeys(s))`: the distinct values of `s`, each kept at its
   * first occurrence.
   */
  function Dedup<T(==)>(s: seq<T>): (r: seq<T>)
    ensures NoDups(r)
    ensures forall i :: 0 <= i < |r| ==> r[i] in s
    ensures forall i :: 0 <= i < |s| ==> s[i] in r
    decreases |s|
  {
    if s == [] then []
    else
      var d := Dedup(s[..|s| - 1]);
      var x := s[|s| - 1];
      if x in d then d else d + [x]
  }

  /** Every value of `r` occurs in `s`, and `r` lists them in the order in which they first occur there. */
  ghost predicate InFirstSeenOrder<T>(s: seq<T>, r: seq<T>) {
    (forall k :: 0 <= k < |r| ==> r[k] in s)
    && forall i, j :: 0 <= i < j < |r| ==> FirstIndex(s, r[i]) < FirstIndex(s, r[j])
  }

  lemma FirstSeenOrderExtend<T>(s: seq<T>, n: nat, r: seq<T>)
    requires n <= |s| && InFirstSeenOrder(s[..n], r)
    ensures InFirstSeenOrder(s, r)
    ensures forall k :: 0 <= k < |r| ==> FirstIndex(s, r[k]) < n
  {
    forall k | 0 <= k < |r|
      ensures r[k] in s && FirstIndex(s, r[k]) == FirstIndex(s[..n], r[k])
    {
      FirstIndexPrefix(s, n, r[k]);
    }
  }

  lemma FirstSeenOrderAppend<T>(s: seq<T>, r: seq<T>, x: T)
    requires InFirstSeenOrder(s, r) && x in s
    requires forall k :: 0 <= k < |r| ==> FirstIndex(s, r[k]) < FirstIndex(s, x)
    ensures InFirstSeenOrder(s, r + [x])
  {
    var r' := r + [x];
    assert forall k :: 0 <= k < |r| ==> r'[k] == r[k];
  }

  /** A last element that does not occur earlier first occurs at the end. */
  lemma FirstIndexOfNewLast<T>(s: seq<T>)
    requires s != [] && s[|s| - 1] !in s[..|s| - 1]
    ensures FirstIndex(s, s[|s| - 1]) == |s| - 1
  {
  }

  /** The values `Dedup` keeps appear in the order in which they first occur. */
  lemma {:induction false} DedupOrder<T>(s: seq<T>)
    ensures InFirstSeenOrder(s, Dedup(s))
    decreases |s|
  {
    if s != [] {
      var p := s[..|s| - 1];
      var x := s[|s| - 1];
      var d := Dedup(p);
      DedupOrder(p);
      FirstSeenOrderExtend(s, |p|, d);
      if x !in d {
        assert x !in p;
        FirstIndexOfNewLast(s);
        FirstSeenOrderAppend(s, d, x);
      }
    }
  }
}

/** Keep-first deduplication, as the `/chat` handler filters the provider-bound
    message list: an element is kept exactly when `findIndex` of an equal element
    in the whole list is its own position. */
module History {

  /** `self.findIndex(t => t == x)`: the first position holding `x`, or -1. */
  function FindIndex<T(==)>(s: seq<T>, x: T): (k: int)
    ensures -1 <= k < |s|
    ensures k == -1 <==> x !in s
    ensures k >= 0 ==> s[k] == x && x !in s[..k]
  {
    if |s| == 0 then -1
    else if s[0] == x then 0
    else
      var k := FindIndex(s[1..], x);
      assert s == [s[0]] + s[1..];
      assert k >= 0 ==> s[..k + 1] == [s[0]] + s[1..][..k];
      if k == -1 then -1 else k + 1
  }

  /** `s.filter((m, i, self) => i === self.findIndex(t => t == m))` over the first `n` positions. */
  function KeepFirst<T(==)>(s: seq<T>, n: nat): seq<T>
    requires n <= |s|
  {
    if n == 0 then []
    else KeepFirst(s, n - 1) + (if FindIndex(s, s[n - 1]) == n - 1 then [s[n - 1]] else [])
  }

  function Dedup<T(==)>(s: seq<T>): seq<T>
  {
    KeepFirst(s, |s|)
  }

  ghost predicate NoDuplicates<T>(s: seq<T>)
  {
    forall i, j :: 0 <= i < j < |s| ==> s[i] != s[j]
  }

  /** Reference definition: scan left to right, keep an element unless an equal one
      came before it. */
  function FirstOccurrences<T(==)>(s: seq<T>): seq<T>
  {
    if |s| == 0 then []
    else
      var init := s[..|s| - 1];
      if s[|s| - 1] in init then FirstOccurrences(init)
      else FirstOccurrences(init) + [s[|s| - 1]]
  }

  lemma FirstIndexOfPosition<T>(s: seq<T>, i: nat)
    requires i < |s|
    ensures FindIndex(s, s[i]) == i <==> s[i] !in s[..i]
  {
  }

  /** The findIndex filter keeps exactly the first occurrences, in order. */
  lemma {:induction false} KeepFirstIsFirstOccurrences<T>(s: seq<T>, n: nat)
    requires n <= |s|
    ensures KeepFirst(s, n) == FirstOccurrences(s[..n])
  {
    if n > 0 {
      KeepFirstIsFirstOccurrences(s, n - 1);
      FirstIndexOfPosition(s, n - 1);
      assert s[..n][..n - 1] == s[..n - 1];
    }
  }

  lemma DedupIsFirstOccurrences<T>(s: seq<T>)
    ensures Dedup(s) == FirstOccurrences(s)
  {
    KeepFirstIsFirstOccurrences(s, |s|);
    assert s[..|s|] == s;
  }

  /** The result holds every element of the input, holds nothing else, holds
      nothing twice, and lists elements in the order of their first occurrence. */
  lemma {:induction false} FirstOccurrencesSpec<T>(s: seq<T>)
    ensures forall x :: x in FirstOccurrences(s) <==> x in s
    ensures NoDuplicates(FirstOccurrences(s))
    ensures forall i, j :: 0 <= i < j < |FirstOccurrences(s)| ==>
      FindIndex(s, FirstOccurrences(s)[i]) < FindIndex(s, FirstOccurrences(s)[j])
  {
    if |s| > 0 {
      var init := s[..|s| - 1];
      var x := s[|s| - 1];
      FirstOccurrencesSpec(init);
      var p := FirstOccurrences(init);
      assert s == init + [x];
      forall y | y in init
        ensures FindIndex(s, y) == FindIndex(init, y)
      {
        PrefixFindIndex(init, [x], y);
      }
      if x !in init {
        assert FindIndex(s, x) == |s| - 1;
      }
    }
  }

  lemma {:induction false} PrefixFindIndex<T>(a: seq<T>, b: seq<T>, y: T)
    requires y in a
    ensures FindIndex(a + b, y) == FindIndex(a, y)
  {
    if a[0] != y {
      PrefixFindIndex(a[1..], b, y);
      assert (a + b)[1..] == a[1..] + b;
    }
  }

  /** A list that already has no duplicates is left as it is. */
  lemma {:induction false} FirstOccurrencesOfDistinct<T>(s: seq<T>)
    requires NoDuplicates(s)
    ensures FirstOccurrences(s) == s
  {
    if |s| > 0 {
      var init := s[..|s| - 1];
      assert NoDuplicates(init);
      FirstOccurrencesOfDistinct(init);
      assert s == init + [s[|s| - 1]];
    }
  }

  /** Deduplicating a history followed by one more element: the history's own
      deduplication, then the element unless it already occurred. */
  lemma DedupSnoc<T>(h: seq<T>, x: T)
    ensures Dedup(h + [x]) == Dedup(h) + (if x in h then [] else [x])
  {
    DedupIsFirstOccurrences(h + [x]);
    DedupIsFirstOccurrences(h);
    assert (h + [x])[..|h + [x]| - 1] == h;
  }
}

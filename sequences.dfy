/** Distinct values of a sequence in order of first appearance: what pandas'
    `Series.unique()` returns and the key order of a Python dict filled by a
    loop that inserts each key the first time it is seen. */
module Sequences {

  /** Position of the first occurrence of `x` in `s`. */
  function FirstIndex<T(==)>(s: seq<T>, x: T): (k: nat)
    requires x in s
    ensures k < |s| && s[k] == x
    ensures forall j :: 0 <= j < k ==> s[j] != x
  {
    if s[0] == x then 0 else 1 + FirstIndex(s[1..], x)
  }

  /** Distinct elements in first-seen order, built the way the source's loops
      build them: walking the input front to back. */
  function FirstSeen<T(==)>(s: seq<T>): (r: seq<T>)
  {
    if |s| == 0 then []
    else
      var p := FirstSeen(s[..|s| - 1]);
      if s[|s| - 1] in p then p else p + [s[|s| - 1]]
  }

  /** One step of `FirstSeen`: an element already seen adds nothing, a new
      one goes last. */
  lemma FirstSeenSnoc<T>(s: seq<T>, x: T)
    ensures FirstSeen(s + [x]) == (if x in FirstSeen(s) then FirstSeen(s) else FirstSeen(s) + [x])
  {
    assert (s + [x])[..|s|] == s;
  }

  ghost predicate NoDuplicates<T>(s: seq<T>) {
    forall i, j :: 0 <= i < j < |s| ==> s[i] != s[j]
  }

  /** `f` applied to each element, in order. */
  function Map<A, B>(f: A -> B, s: seq<A>): (r: seq<B>)
    ensures |r| == |s|
  {
    if |s| == 0 then [] else Map(f, s[..|s| - 1]) + [f(s[|s| - 1])]
  }

  lemma {:induction false} MapAt<A, B>(f: A -> B, s: seq<A>, i: nat)
    requires i < |s|
    ensures Map(f, s)[i] == f(s[i])
  {
    if i < |s| - 1 {
      MapAt(f, s[..|s| - 1], i);
    }
  }

  lemma {:induction false} FirstIndexOfPrefix<T>(s: seq<T>, n: nat, x: T)
    requires n <= |s| && x in s[..n]
    ensures FirstIndex(s, x) == FirstIndex(s[..n], x)
  {
    if s[0] != x {
      assert s[1..][..n - 1] == s[..n][1..];
      FirstIndexOfPrefix(s[1..], n - 1, x);
    }
  }

  /** `FirstSeen` holds each value of the input exactly once, ordered by
      where it first appears. */
  lemma {:induction false} FirstSeenCorrect<T>(s: seq<T>)
    ensures forall x :: x in FirstSeen(s) <==> x in s
    ensures NoDuplicates(FirstSeen(s))
    ensures forall i, j :: 0 <= i < j < |FirstSeen(s)| ==>
              FirstIndex(s, FirstSeen(s)[i]) < FirstIndex(s, FirstSeen(s)[j])
    ensures |FirstSeen(s)| <= |s|
  {
    if |s| > 0 {
      var init, last := s[..|s| - 1], s[|s| - 1];
      FirstSeenCorrect(init);
      var p := FirstSeen(init);
      assert s == init + [last];
      assert forall x :: x in s <==> x in init || x == last;
      forall x | x in init ensures FirstIndex(s, x) == FirstIndex(init, x) && FirstIndex(init, x) < |init| {
        FirstIndexOfPrefix(s, |s| - 1, x);
      }
      if last !in p {
        assert last !in init;
        assert FirstIndex(s, last) == |s| - 1;
      }
    }
  }
}

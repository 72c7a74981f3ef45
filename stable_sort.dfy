/** Python's `sorted(xs, key=lambda x: -k(x))` and `xs.sort(key=lambda x: -k(x))`:
    a stable sort by descending integer key. The model is a stable insertion
    sort; its contract is the behaviour Python documents for its sort: the result is ordered
    by descending key, is a permutation of the input, and for every key value
    the elements carrying it appear in input order. */
module StableSort {

  ghost predicate SortedDesc<T>(s: seq<T>, key: T -> int) {
    forall i, j :: 0 <= i < j < |s| ==> key(s[i]) >= key(s[j])
  }

  /** The elements of `s` whose key is `v`, in order. */
  function WithKey<T>(s: seq<T>, key: T -> int, v: int): (r: seq<T>)
    ensures |r| <= |s|
  {
    if |s| == 0 then []
    else (if key(s[0]) == v then [s[0]] else []) + WithKey(s[1..], key, v)
  }

  /** Inserts `x` into a descending sequence after every element whose key is
      at least `x`'s, so that `x` follows the equal-keyed elements already there. */
  function Insert<T>(x: T, s: seq<T>, key: T -> int): (r: seq<T>)
  {
    if |s| == 0 then [x]
    else if key(s[0]) >= key(x) then [s[0]] + Insert(x, s[1..], key)
    else [x] + s
  }

  /** The input is consumed from the back, each element inserted after the
      equal-keyed ones that precede it. */
  function SortDesc<T>(s: seq<T>, key: T -> int): (r: seq<T>)
  {
    if |s| == 0 then [] else Insert(s[|s| - 1], SortDesc(s[..|s| - 1], key), key)
  }

  lemma {:induction false} WithKeyAppend<T>(a: seq<T>, b: seq<T>, key: T -> int, v: int)
    ensures WithKey(a + b, key, v) == WithKey(a, key, v) + WithKey(b, key, v)
  {
    if |a| > 0 {
      assert (a + b)[1..] == a[1..] + b;
      WithKeyAppend(a[1..], b, key, v);
    } else {
      assert a + b == b;
    }
  }

  lemma {:induction false} WithKeyAbsent<T>(s: seq<T>, key: T -> int, v: int)
    requires forall i :: 0 <= i < |s| ==> key(s[i]) < v
    ensures WithKey(s, key, v) == []
  {
    if |s| > 0 {
      WithKeyAbsent(s[1..], key, v);
    }
  }

  lemma {:induction false} InsertPermutes<T>(x: T, s: seq<T>, key: T -> int)
    ensures multiset(Insert(x, s, key)) == multiset(s) + multiset{x}
    ensures |Insert(x, s, key)| == |s| + 1
  {
    if |s| > 0 && key(s[0]) >= key(x) {
      InsertPermutes(x, s[1..], key);
      assert s == [s[0]] + s[1..];
    }
  }

  lemma {:induction false} InsertSorted<T>(x: T, s: seq<T>, key: T -> int)
    requires SortedDesc(s, key)
    ensures SortedDesc(Insert(x, s, key), key)
  {
    if |s| > 0 && key(s[0]) >= key(x) {
      var rest := Insert(x, s[1..], key);
      InsertSorted(x, s[1..], key);
      InsertPermutes(x, s[1..], key);
      forall i | 0 <= i < |rest| ensures key(s[0]) >= key(rest[i]) {
        assert rest[i] in multiset(rest);
        if rest[i] != x {
          assert rest[i] in multiset(s[1..]);
          var j :| 0 <= j < |s[1..]| && s[1..][j] == rest[i];
          assert s[j + 1] == rest[i];
        }
      }
      assert Insert(x, s, key) == [s[0]] + rest;
    }
  }

  lemma {:induction false} InsertWithKey<T>(x: T, s: seq<T>, key: T -> int, v: int)
    requires SortedDesc(s, key)
    ensures WithKey(Insert(x, s, key), key, v)
            == WithKey(s, key, v) + (if key(x) == v then [x] else [])
  {
    var r := Insert(x, s, key);
    if |s| == 0 {
    } else {
      SortedTail(s, key);
      if key(s[0]) >= key(x) {
        InsertWithKey(x, s[1..], key, v);
        assert r[0] == s[0] && r[1..] == Insert(x, s[1..], key);
      } else {
        assert r[0] == x && r[1..] == s;
        if key(x) == v {
          WithKeyAbsent(s, key, v);
        }
      }
    }
  }

  /** The head of a descending sequence bounds every element, and its tail
      is descending too. */
  lemma SortedTail<T>(s: seq<T>, key: T -> int)
    requires |s| > 0 && SortedDesc(s, key)
    ensures SortedDesc(s[1..], key)
    ensures forall i :: 0 <= i < |s| ==> key(s[i]) <= key(s[0])
  {
    forall i, j | 0 <= i < j < |s| - 1 ensures key(s[1..][i]) >= key(s[1..][j]) {
      assert s[1..][i] == s[i + 1] && s[1..][j] == s[j + 1];
    }
  }

  /** The sort is a stable descending sort. */
  lemma {:induction false} SortDescCorrect<T>(s: seq<T>, key: T -> int)
    ensures SortedDesc(SortDesc(s, key), key)
    ensures multiset(SortDesc(s, key)) == multiset(s)
    ensures |SortDesc(s, key)| == |s|
    ensures forall v :: WithKey(SortDesc(s, key), key, v) == WithKey(s, key, v)
  {
    if |s| > 0 {
      var init, last := s[..|s| - 1], s[|s| - 1];
      SortDescCorrect(init, key);
      InsertPermutes(last, SortDesc(init, key), key);
      InsertSorted(last, SortDesc(init, key), key);
      assert s == init + [last];
      forall v ensures WithKey(SortDesc(s, key), key, v) == WithKey(s, key, v) {
        InsertWithKey(last, SortDesc(init, key), key, v);
        WithKeyAppend(init, [last], key, v);
      }
    }
  }
}

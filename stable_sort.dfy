/** The stable sort `Array.prototype.sort` performs with a comparator
    `(a, b) => key(b) - key(a)`: descending by an integer key, ties kept in
    their original order. Stated as the insertion sort that takes the
    elements in list order. */
module StableSort {
  import opened Messaging

  /** Keys never increase along the list. */
  predicate NonIncreasing<T>(key: T -> int, s: seq<T>) {
    forall i, j :: 0 <= i < j < |s| ==> key(s[i]) >= key(s[j])
  }

  /** Inserts `x` into a list sorted by descending key, after every element
      whose key is at least `x`'s. */
  function Insert<T>(key: T -> int, s: seq<T>, x: T): (r: seq<T>)
    ensures multiset(r) == multiset(s) + multiset{x}
  {
    if s == [] then [x]
    else if key(s[0]) < key(x) then [x] + s
    else
      assert s == [s[0]] + s[1..];
      [s[0]] + Insert(key, s[1..], x)
  }

  function Sort<T>(key: T -> int, s: seq<T>): (r: seq<T>)
    ensures multiset(r) == multiset(s)
  {
    if s == [] then []
    else
      assert s == s[..|s| - 1] + [s[|s| - 1]];
      Insert(key, Sort(key, s[..|s| - 1]), s[|s| - 1])
  }

  /** The elements whose key is `p`, in list order. */
  function WithKey<T>(key: T -> int, s: seq<T>, p: int): seq<T>
  {
    if s == [] then []
    else (if key(s[0]) == p then [s[0]] else []) + WithKey(key, s[1..], p)
  }

  lemma {:induction false} InsertSorted<T>(key: T -> int, s: seq<T>, x: T)
    requires NonIncreasing(key, s)
    ensures NonIncreasing(key, Insert(key, s, x))
    ensures |Insert(key, s, x)| == |s| + 1
    ensures s != [] ==> Insert(key, s, x)[0] == (if key(s[0]) < key(x) then x else s[0])
  {
    if s == [] {
    } else if key(s[0]) < key(x) {
      var r := [x] + s;
      assert Insert(key, s, x) == r;
      forall i, j | 0 <= i < j < |r| ensures key(r[i]) >= key(r[j]) {
        if i > 0 {
          assert r[i] == s[i - 1] && r[j] == s[j - 1];
        } else {
          assert r[j] == s[j - 1];
          assert key(s[0]) >= key(s[j - 1]);
        }
      }
    } else {
      InsertSorted(key, s[1..], x);
      var t := Insert(key, s[1..], x);
      var r := [s[0]] + t;
      assert Insert(key, s, x) == r;
      assert |s| > 1 ==> key(s[0]) >= key(s[1]);
      assert key(s[0]) >= key(t[0]);
      forall i, j | 0 <= i < j < |r| ensures key(r[i]) >= key(r[j]) {
        assert r[j] == t[j - 1];
        if i > 0 {
          assert r[i] == t[i - 1];
        } else if j > 1 {
          assert key(t[0]) >= key(t[j - 1]);
        }
      }
    }
  }

  /** The sort yields a permutation whose keys never increase. */
  lemma {:induction false} SortSorts<T>(key: T -> int, s: seq<T>)
    ensures multiset(Sort(key, s)) == multiset(s)
    ensures NonIncreasing(key, Sort(key, s))
    ensures |Sort(key, s)| == |s|
  {
    if s != [] {
      SortSorts(key, s[..|s| - 1]);
      InsertSorted(key, Sort(key, s[..|s| - 1]), s[|s| - 1]);
    }
  }

  lemma {:induction false} WithKeyAppend<T>(key: T -> int, a: seq<T>, b: seq<T>, p: int)
    ensures WithKey(key, a + b, p) == WithKey(key, a, p) + WithKey(key, b, p)
  {
    if a == [] {
      assert a + b == b;
    } else {
      var head := if key(a[0]) == p then [a[0]] else [];
      assert (a + b)[0] == a[0] && (a + b)[1..] == a[1..] + b;
      assert WithKey(key, a + b, p) == head + WithKey(key, a[1..] + b, p);
      WithKeyAppend(key, a[1..], b, p);
      AppendAssoc(head, WithKey(key, a[1..], p), WithKey(key, b, p));
    }
  }

  lemma {:induction false} NoneAbove<T>(key: T -> int, s: seq<T>, p: int)
    requires NonIncreasing(key, s) && s != [] && key(s[0]) < p
    ensures WithKey(key, s, p) == []
  {
    if |s| > 1 {
      NoneAbove(key, s[1..], p);
    }
  }

  lemma {:induction false} InsertKeepsTies<T>(key: T -> int, s: seq<T>, x: T, p: int)
    requires NonIncreasing(key, s)
    ensures WithKey(key, Insert(key, s, x), p)
      == WithKey(key, s, p) + (if key(x) == p then [x] else [])
  {
    if s == [] {
      assert WithKey(key, [x], p) == (if key(x) == p then [x] else []) + WithKey(key, [], p);
    } else if key(s[0]) < key(x) {
      assert Insert(key, s, x) == [x] + s;
      assert ([x] + s)[0] == x && ([x] + s)[1..] == s;
      if key(x) == p {
        NoneAbove(key, s, p);
      }
    } else {
      var t := Insert(key, s[1..], x);
      var head := if key(s[0]) == p then [s[0]] else [];
      assert Insert(key, s, x) == [s[0]] + t;
      assert ([s[0]] + t)[0] == s[0] && ([s[0]] + t)[1..] == t;
      assert WithKey(key, [s[0]] + t, p) == head + WithKey(key, t, p);
      assert WithKey(key, s, p) == head + WithKey(key, s[1..], p);
      InsertKeepsTies(key, s[1..], x, p);
      AppendAssoc(head, WithKey(key, s[1..], p), if key(x) == p then [x] else []);
    }
  }

  /** Stability: elements with equal keys keep their relative order. */
  lemma {:induction false} SortIsStable<T>(key: T -> int, s: seq<T>, p: int)
    ensures WithKey(key, Sort(key, s), p) == WithKey(key, s, p)
  {
    if s != [] {
      var front := s[..|s| - 1];
      var last := s[|s| - 1];
      var tail := if key(last) == p then [last] else [];
      assert s == front + [last];
      assert [last][1..] == [];
      assert WithKey(key, [last], p) == tail;
      WithKeyAppend(key, front, [last], p);
      assert WithKey(key, s, p) == WithKey(key, front, p) + tail;
      var t := Sort(key, front);
      assert Sort(key, s) == Insert(key, t, last);
      SortSorts(key, front);
      InsertKeepsTies(key, t, last, p);
      SortIsStable(key, front, p);
    }
  }

  lemma {:induction false} InsertLowest<T>(key: T -> int, s: seq<T>, x: T)
    requires forall k :: 0 <= k < |s| ==> key(s[k]) >= key(x)
    ensures Insert(key, s, x) == s + [x]
  {
    if s != [] {
      InsertLowest(key, s[1..], x);
      assert [s[0]] + (s[1..] + [x]) == s + [x];
    }
  }

  /** A list already in descending order is left exactly as it is. */
  lemma {:induction false} SortedUnchanged<T>(key: T -> int, s: seq<T>)
    requires NonIncreasing(key, s)
    ensures Sort(key, s) == s
  {
    if s != [] {
      var front := s[..|s| - 1];
      SortedUnchanged(key, front);
      InsertLowest(key, front, s[|s| - 1]);
      assert front + [s[|s| - 1]] == s;
    }
  }
}

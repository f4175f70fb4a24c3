/** Python's `sorted(xs, key=k)` / `xs.sort(key=k)` and its `reverse=True`
    form, for keys that are tuples of integers: a stable sort, so elements
    whose keys compare equal keep their original order (in both directions).
    It is given here as insertion sort, and the three properties that pin a
    stable sort down uniquely are proved about it: the result is ordered, it
    is a permutation of the input, and the elements sharing any one key
    appear in their original order. */
module StableSort {

  /** Python's `<=` on tuples of ints: lexicographic, a proper prefix first. */
  predicate LexLe(a: seq<int>, b: seq<int>)
    decreases |a|
  {
    |a| == 0 || (|b| > 0 && (a[0] < b[0] || (a[0] == b[0] && LexLe(a[1..], b[1..]))))
  }

  lemma {:induction false} LexLeRefl(a: seq<int>)
    ensures LexLe(a, a)
    decreases |a|
  {
    if |a| > 0 {
      LexLeRefl(a[1..]);
    }
  }

  lemma {:induction false} LexLeTotal(a: seq<int>, b: seq<int>)
    ensures LexLe(a, b) || LexLe(b, a)
    decreases |a|
  {
    if |a| > 0 && |b| > 0 && a[0] == b[0] {
      LexLeTotal(a[1..], b[1..]);
    }
  }

  lemma {:induction false} LexLeTrans(a: seq<int>, b: seq<int>, c: seq<int>)
    requires LexLe(a, b) && LexLe(b, c)
    ensures LexLe(a, c)
    decreases |a|
  {
    if |a| > 0 && a[0] == b[0] && b[0] == c[0] {
      LexLeTrans(a[1..], b[1..], c[1..]);
    }
  }

  lemma {:induction false} LexLeAntisym(a: seq<int>, b: seq<int>)
    requires LexLe(a, b) && LexLe(b, a)
    ensures a == b
    decreases |a|
  {
    if |a| > 0 {
      LexLeAntisym(a[1..], b[1..]);
      assert a == [a[0]] + a[1..] && b == [b[0]] + b[1..];
    }
  }

  /** May an element with key `x` come before one with key `y`? */
  predicate Before(x: seq<int>, y: seq<int>, desc: bool) {
    if desc then LexLe(y, x) else LexLe(x, y)
  }

  lemma BeforeTotal(x: seq<int>, y: seq<int>, desc: bool)
    ensures Before(x, y, desc) || Before(y, x, desc)
  {
    LexLeTotal(x, y);
  }

  lemma BeforeTrans(x: seq<int>, y: seq<int>, z: seq<int>, desc: bool)
    requires Before(x, y, desc) && Before(y, z, desc)
    ensures Before(x, z, desc)
  {
    if desc { LexLeTrans(z, y, x); } else { LexLeTrans(x, y, z); }
  }

  predicate Sorted<T>(s: seq<T>, key: T -> seq<int>, desc: bool) {
    forall i, j :: 0 <= i < j < |s| ==> Before(key(s[i]), key(s[j]), desc)
  }

  /** Inserts `x` after every element that may precede it. */
  function Insert<T>(x: T, s: seq<T>, key: T -> seq<int>, desc: bool): (r: seq<T>)
    ensures multiset(r) == multiset(s) + multiset{x}
    ensures |r| == |s| + 1
  {
    if |s| == 0 then [x]
    else if Before(key(s[0]), key(x), desc) then
      assert s == [s[0]] + s[1..];
      [s[0]] + Insert(x, s[1..], key, desc)
    else [x] + s
  }

  /** The stable sort of `s` by `key`, descending when `desc` (Python's
      `reverse=True`). */
  function Sort<T>(s: seq<T>, key: T -> seq<int>, desc: bool): (r: seq<T>)
    ensures multiset(r) == multiset(s)
    ensures |r| == |s|
    decreases |s|
  {
    if |s| == 0 then []
    else
      assert s == s[..|s| - 1] + [s[|s| - 1]];
      Insert(s[|s| - 1], Sort(s[..|s| - 1], key, desc), key, desc)
  }

  lemma {:induction false} InsertSorted<T>(x: T, s: seq<T>, key: T -> seq<int>, desc: bool)
    requires Sorted(s, key, desc)
    ensures Sorted(Insert(x, s, key, desc), key, desc)
    decreases |s|
  {
    if |s| > 0 {
      var r := Insert(x, s, key, desc);
      if Before(key(s[0]), key(x), desc) {
        var t := Insert(x, s[1..], key, desc);
        InsertSorted(x, s[1..], key, desc);
        forall j | 0 <= j < |t|
          ensures Before(key(s[0]), key(t[j]), desc)
        {
          assert t[j] in multiset(t);
          assert t[j] == x || t[j] in multiset(s[1..]);
          if t[j] != x {
            var k :| 0 <= k < |s[1..]| && s[1..][k] == t[j];
            assert s[k + 1] == t[j];
          }
        }
        assert r == [s[0]] + t;
      } else {
        BeforeTotal(key(s[0]), key(x), desc);
        forall j | 0 <= j < |s|
          ensures Before(key(x), key(s[j]), desc)
        {
          if j > 0 {
            BeforeTrans(key(x), key(s[0]), key(s[j]), desc);
          }
        }
        assert r == [x] + s;
      }
    }
  }

  /** The result is ordered by the key. */
  lemma {:induction false} SortSorted<T>(s: seq<T>, key: T -> seq<int>, desc: bool)
    ensures Sorted(Sort(s, key, desc), key, desc)
    decreases |s|
  {
    if |s| > 0 {
      SortSorted(s[..|s| - 1], key, desc);
      InsertSorted(s[|s| - 1], Sort(s[..|s| - 1], key, desc), key, desc);
    }
  }

  /** The elements of `s` whose key is `k`, in their order in `s`. */
  function WithKey<T>(s: seq<T>, key: T -> seq<int>, k: seq<int>): seq<T> {
    if |s| == 0 then [] else (if key(s[0]) == k then [s[0]] else []) + WithKey(s[1..], key, k)
  }

  lemma {:induction false} WithKeyAppend<T>(a: seq<T>, b: seq<T>, key: T -> seq<int>, k: seq<int>)
    ensures WithKey(a + b, key, k) == WithKey(a, key, k) + WithKey(b, key, k)
    decreases |a|
  {
    if |a| == 0 {
      assert a + b == b;
    } else {
      var h := if key(a[0]) == k then [a[0]] else [];
      assert (a + b)[0] == a[0] && (a + b)[1..] == a[1..] + b;
      assert WithKey(a + b, key, k) == h + WithKey(a[1..] + b, key, k);
      assert WithKey(a, key, k) == h + WithKey(a[1..], key, k);
      WithKeyAppend(a[1..], b, key, k);
      ConcatAssoc(h, WithKey(a[1..], key, k), WithKey(b, key, k));
    }
  }

  lemma {:induction false} WithKeyNone<T>(s: seq<T>, key: T -> seq<int>, k: seq<int>)
    requires forall j :: 0 <= j < |s| ==> key(s[j]) != k
    ensures WithKey(s, key, k) == []
    decreases |s|
  {
    if |s| > 0 {
      WithKeyNone(s[1..], key, k);
    }
  }

  /** Inserting into an ordered sequence puts `x` after every element with
      the same key. */
  lemma {:induction false} InsertWithKey<T>(x: T, s: seq<T>, key: T -> seq<int>, desc: bool, k: seq<int>)
    requires Sorted(s, key, desc)
    ensures WithKey(Insert(x, s, key, desc), key, k) == WithKey(s, key, k) + WithKey([x], key, k)
    decreases |s|
  {
    if |s| == 0 {
    } else if Before(key(s[0]), key(x), desc) {
      SortedTail(s, key, desc);
      InsertWithKey(x, s[1..], key, desc, k);
      InsertWithKeyBehind(x, s, key, desc, k);
    } else {
      InsertWithKeyFront(x, s, key, desc, k);
    }
  }

  /** Where `x` goes past the first element, that element stays first. */
  lemma InsertWithKeyBehind<T>(x: T, s: seq<T>, key: T -> seq<int>, desc: bool, k: seq<int>)
    requires |s| > 0 && Before(key(s[0]), key(x), desc)
    requires WithKey(Insert(x, s[1..], key, desc), key, k) == WithKey(s[1..], key, k) + WithKey([x], key, k)
    ensures WithKey(Insert(x, s, key, desc), key, k) == WithKey(s, key, k) + WithKey([x], key, k)
  {
    var t := Insert(x, s[1..], key, desc);
    var r := Insert(x, s, key, desc);
    var A, B, C := WithKey([s[0]], key, k), WithKey(s[1..], key, k), WithKey([x], key, k);
    assert r == [s[0]] + t;
    assert WithKey(r, key, k) == A + (B + C) by {
      WithKeyAppend([s[0]], t, key, k);
    }
    assert WithKey(s, key, k) == A + B by {
      WithKeyAppend([s[0]], s[1..], key, k);
      assert [s[0]] + s[1..] == s;
    }
    ConcatAssoc(A, B, C);
  }

  lemma ConcatAssoc<T>(a: seq<T>, b: seq<T>, c: seq<T>)
    ensures a + (b + c) == (a + b) + c
  {
  }

  lemma InsertWithKeyFront<T>(x: T, s: seq<T>, key: T -> seq<int>, desc: bool, k: seq<int>)
    requires Sorted(s, key, desc)
    requires |s| > 0 && !Before(key(s[0]), key(x), desc)
    ensures WithKey(Insert(x, s, key, desc), key, k) == WithKey(s, key, k) + WithKey([x], key, k)
  {
    var B, C := WithKey(s, key, k), WithKey([x], key, k);
    assert Insert(x, s, key, desc) == [x] + s;
    WithKeyAppend([x], s, key, k);
    assert WithKey(Insert(x, s, key, desc), key, k) == C + B;
    if key(x) == k {
      NoLaterEqualKey(x, s, key, desc);
      WithKeyNone(s, key, k);
      assert C + B == B + C;
    } else {
      assert [x][1..] == [];
      assert C == [];
      assert C + B == B + C;
    }
  }

  lemma SortedTail<T>(s: seq<T>, key: T -> seq<int>, desc: bool)
    requires |s| > 0 && Sorted(s, key, desc)
    ensures Sorted(s[1..], key, desc)
  {
    forall i, j | 0 <= i < j < |s| - 1
      ensures Before(key(s[1..][i]), key(s[1..][j]), desc)
    {
      assert s[1..][i] == s[i + 1] && s[1..][j] == s[j + 1];
    }
  }

  /** In an ordered sequence whose first element may not precede `x`, no
      element has the key of `x`. */
  lemma NoLaterEqualKey<T>(x: T, s: seq<T>, key: T -> seq<int>, desc: bool)
    requires Sorted(s, key, desc)
    requires |s| > 0 && !Before(key(s[0]), key(x), desc)
    ensures forall j :: 0 <= j < |s| ==> key(s[j]) != key(x)
  {
    LexLeRefl(key(x));
    forall j | 0 <= j < |s|
      ensures key(s[j]) != key(x)
    {
      if j > 0 {
        assert Before(key(s[0]), key(s[j]), desc);
      }
    }
  }

  /** Stability: for every key, the elements carrying it appear in the result
      in the order they had in the input. */
  lemma {:induction false} SortStable<T>(s: seq<T>, key: T -> seq<int>, desc: bool, k: seq<int>)
    ensures WithKey(Sort(s, key, desc), key, k) == WithKey(s, key, k)
    decreases |s|
  {
    if |s| > 0 {
      var init := s[..|s| - 1];
      SortStable(init, key, desc, k);
      SortSorted(init, key, desc);
      InsertWithKey(s[|s| - 1], Sort(init, key, desc), key, desc, k);
      WithKeyAppend(init, [s[|s| - 1]], key, k);
      assert init + [s[|s| - 1]] == s;
    }
  }
}

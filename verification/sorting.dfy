/** Stable descending insertion sort by an integer key, the model of
    `Array.prototype.sort` with a comparator `(a, b) => key(b) - key(a)`
    (stable by section 22.1.3.27 of ECMAScript 2019). */
module Sorting {
  import opened Seqs

  /** Keys never increase along the sequence. */
  ghost predicate Descending<T>(s: seq<T>, key: T -> int) {
    forall i, j | 0 <= i < j < |s| :: key(s[i]) >= key(s[j])
  }

  /** The elements of `s` whose key is `k`, in their order in `s`. */
  function WithKey<T>(s: seq<T>, key: T -> int, k: int): (r: seq<T>)
    ensures forall i | 0 <= i < |r| :: key(r[i]) == k
  {
    if s == [] then [] else (if key(s[0]) == k then [s[0]] else []) + WithKey(s[1..], key, k)
  }

  lemma {:induction false} WithKeyAppend<T>(a: seq<T>, b: seq<T>, key: T -> int, k: int)
    ensures WithKey(a + b, key, k) == WithKey(a, key, k) + WithKey(b, key, k)
  {
    if a == [] {
      assert a + b == b;
    } else {
      WithKeyAppend(a[1..], b, key, k);
      assert (a + b)[0] == a[0] && (a + b)[1..] == a[1..] + b;
    }
  }

  lemma {:induction false} WithKeyNone<T>(t: seq<T>, key: T -> int, k: int)
    requires forall i | 0 <= i < |t| :: key(t[i]) < k
    ensures WithKey(t, key, k) == []
  {
    if t != [] {
      WithKeyNone(t[1..], key, k);
    }
  }

  /** Places `x` after every element with a key at least its own, before the first smaller one. */
  function Insert<T>(x: T, t: seq<T>, key: T -> int): (r: seq<T>)
    ensures multiset(r) == multiset(t) + multiset{x}
    ensures |r| == |t| + 1
  {
    if t == [] then [x]
    else if key(x) > key(t[0]) then [x] + t
    else
      assert t == [t[0]] + t[1..];
      [t[0]] + Insert(x, t[1..], key)
  }

  lemma {:induction false} InsertDescending<T>(x: T, t: seq<T>, key: T -> int)
    requires Descending(t, key)
    ensures Descending(Insert(x, t, key), key)
  {
    if t != [] && key(x) <= key(t[0]) {
      var rest := Insert(x, t[1..], key);
      InsertDescending(x, t[1..], key);
      var r := [t[0]] + rest;
      forall j | 0 < j < |r| ensures key(r[0]) >= key(r[j]) {
        assert r[j] in multiset(t[1..]) + multiset{x};
        if r[j] != x {
          assert r[j] in t[1..];
        }
      }
    }
  }

  lemma {:induction false} InsertWithKey<T>(x: T, t: seq<T>, key: T -> int, k: int)
    requires Descending(t, key)
    ensures WithKey(Insert(x, t, key), key, k) == WithKey(t, key, k) + (if key(x) == k then [x] else [])
  {
    if t == [] {
      WithKeyCons(x, [], key, k);
    } else if key(x) > key(t[0]) {
      InsertFrontWithKey(x, t, key, k);
    } else {
      DescendingTail(t, key);
      InsertWithKey(x, t[1..], key, k);
      InsertLaterWithKey(x, t, key, k);
    }
  }

  /** An element no larger than the head goes into the tail; the head keeps its place. */
  lemma InsertLaterWithKey<T>(x: T, t: seq<T>, key: T -> int, k: int)
    requires t != [] && key(x) <= key(t[0])
    requires WithKey(Insert(x, t[1..], key), key, k) == WithKey(t[1..], key, k) + (if key(x) == k then [x] else [])
    ensures WithKey(Insert(x, t, key), key, k) == WithKey(t, key, k) + (if key(x) == k then [x] else [])
  {
    InsertStep(x, t, key);
    ConsWithKey(t[0], Insert(x, t[1..], key), t[1..], if key(x) == k then [x] else [], key, k);
    assert [t[0]] + t[1..] == t;
  }

  /** Putting the same element in front of both sides keeps a `WithKey` equation. */
  lemma ConsWithKey<T>(y: T, u: seq<T>, v: seq<T>, w: seq<T>, key: T -> int, k: int)
    requires WithKey(u, key, k) == WithKey(v, key, k) + w
    ensures WithKey([y] + u, key, k) == WithKey([y] + v, key, k) + w
  {
    WithKeyCons(y, u, key, k);
    WithKeyCons(y, v, key, k);
    ConcatAssoc(if key(y) == k then [y] else [], WithKey(v, key, k), w);
  }

  lemma InsertStep<T>(x: T, t: seq<T>, key: T -> int)
    requires t != [] && key(x) <= key(t[0])
    ensures Insert(x, t, key) == [t[0]] + Insert(x, t[1..], key)
  {
  }

  lemma ConcatAssoc<T>(a: seq<T>, b: seq<T>, c: seq<T>)
    ensures a + (b + c) == (a + b) + c
  {
  }

  /** An element larger than the head goes in front, after every element of its own key. */
  lemma InsertFrontWithKey<T>(x: T, t: seq<T>, key: T -> int, k: int)
    requires t != [] && Descending(t, key) && key(x) > key(t[0])
    ensures WithKey([x] + t, key, k) == WithKey(t, key, k) + (if key(x) == k then [x] else [])
  {
    WithKeyCons(x, t, key, k);
    if key(x) == k {
      BelowHead(t, key, k);
      WithKeyNone(t, key, k);
    }
  }

  lemma DescendingTail<T>(t: seq<T>, key: T -> int)
    requires t != [] && Descending(t, key)
    ensures Descending(t[1..], key)
  {
    forall i, j | 0 <= i < j < |t| - 1 ensures key(t[1..][i]) >= key(t[1..][j]) {
      assert t[1..][i] == t[i + 1] && t[1..][j] == t[j + 1];
    }
  }

  lemma BelowHead<T>(t: seq<T>, key: T -> int, k: int)
    requires t != [] && Descending(t, key) && key(t[0]) < k
    ensures forall i | 0 <= i < |t| :: key(t[i]) < k
  {
    forall i | 0 < i < |t| ensures key(t[i]) < k {
      assert key(t[0]) >= key(t[i]);
    }
  }

  lemma WithKeyCons<T>(y: T, u: seq<T>, key: T -> int, k: int)
    ensures WithKey([y] + u, key, k) == (if key(y) == k then [y] else []) + WithKey(u, key, k)
  {
    assert ([y] + u)[0] == y && ([y] + u)[1..] == u;
  }

  /** Stable insertion sort, largest key first. */
  function SortDesc<T>(s: seq<T>, key: T -> int): (r: seq<T>)
    ensures multiset(r) == multiset(s)
    ensures |r| == |s|
  {
    if s == [] then []
    else
      assert s == s[..|s| - 1] + [s[|s| - 1]];
      Insert(s[|s| - 1], SortDesc(s[..|s| - 1], key), key)
  }

  lemma {:induction false} SortDescending<T>(s: seq<T>, key: T -> int)
    ensures Descending(SortDesc(s, key), key)
  {
    if s != [] {
      SortDescending(s[..|s| - 1], key);
      InsertDescending(s[|s| - 1], SortDesc(s[..|s| - 1], key), key);
    }
  }

  lemma {:induction false} SortWithKey<T>(s: seq<T>, key: T -> int, k: int)
    ensures WithKey(SortDesc(s, key), key, k) == WithKey(s, key, k)
  {
    if s != [] {
      var init := s[..|s| - 1];
      var x := s[|s| - 1];
      var tail := if key(x) == k then [x] else [];
      assert s == init + [x];
      assert SortDesc(s, key) == Insert(x, SortDesc(init, key), key);
      assert WithKey([x], key, k) == tail by {
        assert [x][1..] == [];
      }
      calc {
        WithKey(SortDesc(s, key), key, k);
        { SortDescending(init, key); InsertWithKey(x, SortDesc(init, key), key, k); }
        WithKey(SortDesc(init, key), key, k) + tail;
        { SortWithKey(init, key, k); }
        WithKey(init, key, k) + tail;
        { WithKeyAppend(init, [x], key, k); }
        WithKey(s, key, k);
      }
    }
  }

  /** The sort returns a descending permutation of its input in which elements with equal
      keys keep their input order: the three properties of a stable sort, which together
      determine the result. */
  lemma SortIsStable<T>(s: seq<T>, key: T -> int)
    ensures multiset(SortDesc(s, key)) == multiset(s)
    ensures Descending(SortDesc(s, key), key)
    ensures forall k :: WithKey(SortDesc(s, key), key, k) == WithKey(s, key, k)
  {
    SortDescending(s, key);
    forall k ensures WithKey(SortDesc(s, key), key, k) == WithKey(s, key, k) {
      SortWithKey(s, key, k);
    }
  }

  lemma {:induction false} InsertAtEnd<T>(x: T, t: seq<T>, key: T -> int)
    requires forall i | 0 <= i < |t| :: key(t[i]) >= key(x)
    ensures Insert(x, t, key) == t + [x]
  {
    if t != [] {
      InsertAtEnd(x, t[1..], key);
      assert t == [t[0]] + t[1..];
    }
  }

  /** When every element has the same key the sort changes nothing. */
  lemma {:induction false} SortEqualKeys<T>(s: seq<T>, key: T -> int, k: int)
    requires forall i | 0 <= i < |s| :: key(s[i]) == k
    ensures SortDesc(s, key) == s
  {
    if s != [] {
      var init := s[..|s| - 1];
      SortEqualKeys(init, key, k);
      InsertAtEnd(s[|s| - 1], init, key);
      assert s == init + [s[|s| - 1]];
    }
  }

  /** In a sequence whose projections are distinct each element occurs exactly once. */
  lemma {:induction false} OccursOnce<T, U>(s: seq<T>, f: T -> U, a: int)
    requires 0 <= a < |s| && Distinct(Project(s, f))
    ensures multiset(s)[s[a]] == 1
  {
    var x := s[a];
    assert s == s[..a] + [x] + s[a + 1..];
    forall b | 0 <= b < a ensures s[b] != x {
      assert Project(s, f)[b] != Project(s, f)[a];
    }
    assert x !in s[..a];
    forall b | a < b < |s| ensures s[b] != x {
      assert Project(s, f)[a] != Project(s, f)[b];
    }
    assert x !in s[a + 1..];
  }

  lemma TwoPositions<T>(r: seq<T>, i: int, j: int)
    requires 0 <= i < j < |r| && r[i] == r[j]
    ensures multiset(r)[r[i]] >= 2
  {
    assert r == r[..i] + [r[i]] + r[i + 1..j] + [r[j]] + r[j + 1..];
  }

  /** A permutation of a sequence with distinct projections (say, distinct ids) has
      distinct projections too. */
  lemma PermutationKeepsDistinct<T, U>(s: seq<T>, r: seq<T>, f: T -> U)
    requires multiset(r) == multiset(s) && Distinct(Project(s, f))
    ensures Distinct(Project(r, f))
  {
    forall i, j | 0 <= i < j < |r| ensures f(r[i]) != f(r[j]) {
      assert r[i] in multiset(s) && r[j] in multiset(s);
      var a :| 0 <= a < |s| && s[a] == r[i];
      var b :| 0 <= b < |s| && s[b] == r[j];
      OccursOnce(s, f, a);
      if r[i] == r[j] {
        TwoPositions(r, i, j);
      }
      assert r[i] != r[j];
      assert a != b;
      assert Project(s, f)[a] != Project(s, f)[b];
    }
  }
}

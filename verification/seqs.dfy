/** Sequence combinators with the meaning of the JavaScript array operations the
    pipeline uses: `filter`, `find`, `[...new Set(xs)]`, `slice(0, n)` and `push(...xs)`. */
module Seqs {
  import opened Wrappers

  /** `a` is obtained from `b` by deleting elements: an order-preserving subsequence. */
  ghost predicate IsSubsequence<T>(a: seq<T>, b: seq<T>) {
    if a == [] then true
    else if b == [] then false
    else (a[0] == b[0] && IsSubsequence(a[1..], b[1..])) || IsSubsequence(a, b[1..])
  }

  lemma {:induction false} SubsequenceRefl<T>(a: seq<T>)
    ensures IsSubsequence(a, a)
  {
    if a != [] {
      SubsequenceRefl(a[1..]);
    }
  }

  /** `xs.filter(p)`: every element that passes, as often as it occurs, and nothing else. */
  function Filter<T>(s: seq<T>, p: T -> bool): (r: seq<T>)
    ensures |r| <= |s|
    ensures forall k | 0 <= k < |r| :: r[k] in s && p(r[k])
    ensures forall k | 0 <= k < |s| :: p(s[k]) ==> s[k] in r
  {
    if s == [] then []
    else
      var rest := Filter(s[1..], p);
      if p(s[0]) then [s[0]] + rest else rest
  }

  /** The filter keeps each passing element exactly as often as it occurs, and drops the rest. */
  lemma {:induction false} FilterMultiset<T>(s: seq<T>, p: T -> bool)
    ensures forall x :: multiset(Filter(s, p))[x] == if p(x) then multiset(s)[x] else 0
  {
    if s != [] {
      FilterMultiset(s[1..], p);
      assert s == [s[0]] + s[1..];
    }
  }

  /** The filter keeps the relative order of what it keeps. */
  lemma {:induction false} FilterIsSubsequence<T>(s: seq<T>, p: T -> bool)
    ensures IsSubsequence(Filter(s, p), s)
  {
    if s != [] {
      FilterIsSubsequence(s[1..], p);
      var rest := Filter(s[1..], p);
      if p(s[0]) {
        assert ([s[0]] + rest)[1..] == rest;
      }
    }
  }

  /** Filtering a concatenation filters each part. */
  lemma {:induction false} FilterAppend<T>(a: seq<T>, b: seq<T>, p: T -> bool)
    ensures Filter(a + b, p) == Filter(a, p) + Filter(b, p)
  {
    if a == [] {
      assert a + b == b;
    } else {
      var ab := a + b;
      assert ab[0] == a[0] && ab[1..] == a[1..] + b;
      FilterAppend(a[1..], b, p);
      var rest := Filter(a[1..], p);
      if p(a[0]) {
        calc {
          Filter(ab, p);
          [a[0]] + Filter(a[1..] + b, p);
          [a[0]] + (rest + Filter(b, p));
          ([a[0]] + rest) + Filter(b, p);
          Filter(a, p) + Filter(b, p);
        }
      } else {
        calc {
          Filter(ab, p);
          Filter(a[1..] + b, p);
          rest + Filter(b, p);
          Filter(a, p) + Filter(b, p);
        }
      }
    }
  }

  /** A sequence all of whose elements pass the test is its own filter. */
  lemma {:induction false} FilterKeepsAll<T>(s: seq<T>, p: T -> bool)
    requires forall k | 0 <= k < |s| :: p(s[k])
    ensures Filter(s, p) == s
  {
    if s != [] {
      FilterKeepsAll(s[1..], p);
    }
  }

  /** A sequence none of whose elements passes the test filters to nothing. */
  lemma {:induction false} FilterNone<T>(s: seq<T>, p: T -> bool)
    requires forall k | 0 <= k < |s| :: !p(s[k])
    ensures Filter(s, p) == []
  {
    if s != [] {
      FilterNone(s[1..], p);
    }
  }

  /** Filtering twice with the same test changes nothing the second time. */
  lemma FilterIdempotent<T>(s: seq<T>, p: T -> bool)
    ensures Filter(Filter(s, p), p) == Filter(s, p)
  {
    var r := Filter(s, p);
    assert forall k | 0 <= k < |r| :: r[k] in r;
    FilterKeepsAll(r, p);
  }

  /** `xs.find(p)` (equivalently `xs.filter(p)[0]`): the first element passing the test. */
  function FirstWhere<T>(s: seq<T>, p: T -> bool): (r: Option<T>)
    ensures r.None? <==> forall k | 0 <= k < |s| :: !p(s[k])
    ensures r.Some? ==> exists i :: 0 <= i < |s| && s[i] == r.value && p(s[i])
                                    && forall k | 0 <= k < i :: !p(s[k])
  {
    if s == [] then None
    else if p(s[0]) then Some(s[0])
    else
      var r := FirstWhere(s[1..], p);
      FirstWhereShift(s, p, r);
      r
  }

  lemma FirstWhereShift<T>(s: seq<T>, p: T -> bool, r: Option<T>)
    requires s != [] && !p(s[0])
    requires r.Some? ==> exists i :: 0 <= i < |s[1..]| && s[1..][i] == r.value && p(s[1..][i])
                                     && forall k | 0 <= k < i :: !p(s[1..][k])
    ensures r.Some? ==> exists i :: 0 <= i < |s| && s[i] == r.value && p(s[i])
                                    && forall k | 0 <= k < i :: !p(s[k])
  {
    if r.Some? {
      var i :| 0 <= i < |s[1..]| && s[1..][i] == r.value && p(s[1..][i])
               && forall k | 0 <= k < i :: !p(s[1..][k]);
      assert s[i + 1] == r.value && forall k | 0 <= k < i + 1 :: !p(s[k]);
    }
  }

  /** The first element of `s` or `default`: what `$(sel).first().text()` reads from a
      possibly empty match list. */
  function FirstOr<T>(s: seq<T>, default: T): (r: T)
    ensures s == [] ==> r == default
    ensures s != [] ==> r == s[0]
  {
    if s == [] then default else s[0]
  }

  /** No element occurs twice. */
  ghost predicate Distinct<T>(s: seq<T>) {
    forall i, j | 0 <= i < j < |s| :: s[i] != s[j]
  }

  /** Position of the first occurrence of `x` in `s`. */
  function FirstIndex<T(==)>(s: seq<T>, x: T): (i: nat)
    requires x in s
    ensures i < |s| && s[i] == x && x !in s[..i]
  {
    if s[0] == x then 0 else 1 + FirstIndex(s[1..], x)
  }

  lemma {:induction false} FirstIndexAppend<T>(s: seq<T>, y: T, x: T)
    requires x in s
    ensures x in s + [y] && FirstIndex(s + [y], x) == FirstIndex(s, x)
  {
    assert (s + [y])[0] == s[0];
    if s[0] != x {
      assert (s + [y])[1..] == s[1..] + [y];
      FirstIndexAppend(s[1..], y, x);
    }
  }

  lemma {:induction false} FirstIndexLast<T>(s: seq<T>, y: T)
    requires y !in s
    ensures y in s + [y] && FirstIndex(s + [y], y) == |s|
  {
    if s != [] {
      assert (s + [y])[0] == s[0];
      assert (s + [y])[1..] == s[1..] + [y];
      FirstIndexLast(s[1..], y);
    }
  }

  /** `[...new Set(xs)]`: each distinct element once, in order of first occurrence. */
  function Dedupe<T(==)>(s: seq<T>): (r: seq<T>)
    ensures Distinct(r)
    ensures forall k | 0 <= k < |r| :: r[k] in s
    ensures forall k | 0 <= k < |s| :: s[k] in r
    ensures forall i, j | 0 <= i < j < |r| :: FirstIndex(s, r[i]) < FirstIndex(s, r[j])
    ensures |r| <= |s|
  {
    if s == [] then []
    else
      var init := s[..|s| - 1];
      var last := s[|s| - 1];
      assert s == init + [last];
      var d := Dedupe(init);
      FirstIndexPreserved(init, last);
      if last in d then d
      else
        FirstIndexLast(init, last);
        d + [last]
  }

  lemma FirstIndexPreserved<T>(init: seq<T>, last: T)
    ensures forall x | x in init :: x in init + [last] && FirstIndex(init + [last], x) == FirstIndex(init, x)
  {
    forall x | x in init ensures x in init + [last] && FirstIndex(init + [last], x) == FirstIndex(init, x) {
      FirstIndexAppend(init, last, x);
    }
  }

  /** `Dedupe` keeps first occurrences in order: anything whose first occurrence comes
      before that of the `i`-th kept element is among the first `i` kept elements. */
  lemma DedupeEarlier<T>(s: seq<T>, i: nat, x: T)
    requires i < |Dedupe(s)| && x in s
    requires FirstIndex(s, x) < FirstIndex(s, Dedupe(s)[i])
    ensures x in Dedupe(s)[..i]
  {
    var r := Dedupe(s);
    assert s[FirstIndex(s, x)] in r;
    var m :| 0 <= m < |r| && r[m] == x;
    DedupePosition(s, i, x, m);
    assert r[..i][m] == x;
  }

  /** The same holds for any prefix of `Dedupe(s)`, such as `Dedupe(s).slice(0, n)`. */
  lemma DedupePrefixEarlier<T>(s: seq<T>, r: seq<T>, i: nat, x: T)
    requires r <= Dedupe(s) && i < |r| && x in s
    requires FirstIndex(s, x) < FirstIndex(s, r[i])
    ensures x in r[..i]
  {
    DedupeEarlier(s, i, x);
    PrefixKeepsEarlier(Dedupe(s), r, i, x);
  }

  lemma PrefixKeepsEarlier<T>(u: seq<T>, r: seq<T>, i: nat, x: T)
    requires r <= u && i < |r| && x in u[..i]
    ensures x in r[..i]
  {
    assert u[..i] == r[..i];
  }

  lemma DedupePosition<T>(s: seq<T>, i: nat, x: T, m: nat)
    requires i < |Dedupe(s)| && x in s
    requires FirstIndex(s, x) < FirstIndex(s, Dedupe(s)[i])
    requires m < |Dedupe(s)| && Dedupe(s)[m] == x
    ensures m < i
  {
    if i < m {
      DedupeOrder(s, i, m);
    }
  }

  lemma DedupeOrder<T>(s: seq<T>, a: nat, b: nat)
    requires a < b < |Dedupe(s)|
    ensures FirstIndex(s, Dedupe(s)[a]) < FirstIndex(s, Dedupe(s)[b])
  {
  }

  /** `xs.slice(0, n)`. */
  function Take<T>(s: seq<T>, n: nat): (r: seq<T>)
    ensures |r| == (if n < |s| then n else |s|)
    ensures r <= s
  {
    if n < |s| then s[..n] else s
  }

  /** `xs.map(f)`. */
  function Project<T, U>(s: seq<T>, f: T -> U): (r: seq<U>)
    ensures |r| == |s| && forall i | 0 <= i < |s| :: r[i] == f(s[i])
  {
    seq(|s|, i requires 0 <= i < |s| => f(s[i]))
  }

  /** Successive `push(...xs)` of every part: concatenation in order. */
  function Flatten<T>(parts: seq<seq<T>>): seq<T> {
    if parts == [] then [] else Flatten(parts[..|parts| - 1]) + parts[|parts| - 1]
  }

  /** Every element of the concatenation comes from one of the parts, and conversely. */
  lemma {:induction false} InFlatten<T>(parts: seq<seq<T>>, x: T)
    ensures x in Flatten(parts) <==> exists k | 0 <= k < |parts| :: x in parts[k]
  {
    if parts != [] {
      InFlatten(parts[..|parts| - 1], x);
      var init := parts[..|parts| - 1];
      if x in parts[|parts| - 1] {
      }
      if exists k | 0 <= k < |parts| :: x in parts[k] {
        var k :| 0 <= k < |parts| && x in parts[k];
        if k < |parts| - 1 {
          assert init[k] == parts[k];
        }
      }
    }
  }

  /** Filtering a concatenation filters each part. */
  lemma {:induction false} FilterFlatten<T>(parts: seq<seq<T>>, p: T -> bool)
    ensures Filter(Flatten(parts), p) == Flatten(seq(|parts|, k requires 0 <= k < |parts| => Filter(parts[k], p)))
  {
    if parts != [] {
      var init := parts[..|parts| - 1];
      FilterFlatten(init, p);
      FilterAppend(Flatten(init), parts[|parts| - 1], p);
      var fs := seq(|parts|, k requires 0 <= k < |parts| => Filter(parts[k], p));
      assert fs[..|fs| - 1] == seq(|init|, k requires 0 <= k < |init| => Filter(init[k], p));
    }
  }

  /** The concatenation is as long as all the parts together. */
  function SumLengths<T>(parts: seq<seq<T>>): nat {
    if parts == [] then 0 else SumLengths(parts[..|parts| - 1]) + |parts[|parts| - 1]|
  }

  lemma {:induction false} FlattenLength<T>(parts: seq<seq<T>>)
    ensures |Flatten(parts)| == SumLengths(parts)
  {
    if parts != [] {
      FlattenLength(parts[..|parts| - 1]);
    }
  }

  /** Parts of at most `m` elements each concatenate to at most `m` elements per part. */
  lemma {:induction false} SumLengthsAtMost<T>(parts: seq<seq<T>>, m: nat)
    requires forall k | 0 <= k < |parts| :: |parts[k]| <= m
    ensures SumLengths(parts) <= m * |parts|
  {
    if parts != [] {
      SumLengthsAtMost(parts[..|parts| - 1], m);
    }
  }

  /** A property every element of every part has, every element of the concatenation has. */
  lemma FlattenAll<T>(parts: seq<seq<T>>, p: T -> bool)
    requires forall k, i | 0 <= k < |parts| && 0 <= i < |parts[k]| :: p(parts[k][i])
    ensures forall i | 0 <= i < |Flatten(parts)| :: p(Flatten(parts)[i])
  {
    var f := Flatten(parts);
    forall i | 0 <= i < |f| ensures p(f[i]) {
      InFlatten(parts, f[i]);
      var k :| 0 <= k < |parts| && f[i] in parts[k];
      var j :| 0 <= j < |parts[k]| && parts[k][j] == f[i];
    }
  }

  /** Two rearrangements of each other have the same elements. */
  lemma SameElements<T>(a: seq<T>, b: seq<T>, x: T)
    requires multiset(a) == multiset(b)
    ensures x in a <==> x in b
  {
    assert x in a <==> x in multiset(a);
    assert x in b <==> x in multiset(b);
  }

  /** A rearrangement keeps a property every element has. */
  lemma PermutationAll<T>(s: seq<T>, r: seq<T>, p: T -> bool)
    requires multiset(r) == multiset(s)
    requires forall i | 0 <= i < |s| :: p(s[i])
    ensures forall i | 0 <= i < |r| :: p(r[i])
  {
    forall i | 0 <= i < |r| ensures p(r[i]) {
      assert r[i] in multiset(s);
    }
  }

  /** Parts that are all empty except part `k` concatenate to part `k`. */
  lemma {:induction false} FlattenSingle<T>(parts: seq<seq<T>>, k: nat)
    requires k < |parts|
    requires forall j | 0 <= j < |parts| && j != k :: parts[j] == []
    ensures Flatten(parts) == parts[k]
  {
    var init := parts[..|parts| - 1];
    if k == |parts| - 1 {
      FlattenLength(init);
      SumLengthsAtMost(init, 0);
    } else {
      FlattenSingle(init, k);
    }
  }

  /** The first non-empty sequence of `vals`, else the empty one: the
      `for (...) { v = ...; if (v) break; }` fallback chains. */
  function FirstNonEmpty<T>(vals: seq<seq<T>>): (r: seq<T>)
    ensures r == [] <==> forall j | 0 <= j < |vals| :: vals[j] == []
    ensures r != [] ==> r in vals
    ensures forall j | 0 <= j < |vals| && vals[j] != [] && (forall m | 0 <= m < j :: vals[m] == []) ::
              r == vals[j]
  {
    if vals == [] then []
    else if vals[0] != [] then vals[0]
    else
      var r := FirstNonEmpty(vals[1..]);
      assert forall j | 1 <= j < |vals| :: vals[j] == vals[1..][j - 1];
      r
  }
}

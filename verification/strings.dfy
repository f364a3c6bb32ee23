/** String primitives with the ECMAScript meaning the scrapers rely on:
    `trim`, `toLowerCase`, `includes`, `startsWith`, `split(' ')`, `join(' ')`
    and decimal rendering of non-negative integers. */
module Strings {

  /** The code points ECMAScript calls WhiteSpace or LineTerminator: exactly what
      `String.prototype.trim` strips and what the regular-expression class `\s` matches. */
  predicate IsSpace(c: char) {
    || c == '\t' || c == '\n' || c == '\U{000B}' || c == '\U{000C}' || c == '\r'
    || c == ' ' || c == '\U{00A0}' || c == '\U{1680}'
    || ('\U{2000}' <= c <= '\U{200A}')
    || c == '\U{2028}' || c == '\U{2029}' || c == '\U{202F}' || c == '\U{205F}'
    || c == '\U{3000}' || c == '\U{FEFF}'
  }

  ghost predicate AllSpace(s: string) {
    forall k | 0 <= k < |s| :: IsSpace(s[k])
  }

  /** The end of the run of white space that starts at `k`. */
  function LeadEnd(s: string, k: nat): (n: nat)
    requires k <= |s|
    ensures k <= n <= |s|
    ensures forall m | k <= m < n :: IsSpace(s[m])
    ensures n == |s| || !IsSpace(s[n])
    decreases |s| - k
  {
    if k < |s| && IsSpace(s[k]) then LeadEnd(s, k + 1) else k
  }

  /** The start of the run of white space that ends at `k`. */
  function TailStart(s: string, k: nat): (n: nat)
    requires k <= |s|
    ensures n <= k
    ensures forall m | n <= m < k :: IsSpace(s[m])
    ensures n == 0 || !IsSpace(s[n - 1])
  {
    if k > 0 && IsSpace(s[k - 1]) then TailStart(s, k - 1) else k
  }

  /** Leading white space removed. */
  function TrimStart(s: string): (r: string)
    ensures |r| <= |s| && r == s[|s| - |r|..]
    ensures AllSpace(s[..|s| - |r|])
    ensures r == [] || !IsSpace(r[0])
  {
    var n := LeadEnd(s, 0);
    assert forall m | 0 <= m < n :: s[..n][m] == s[m];
    s[n..]
  }

  /** Trailing white space removed. */
  function TrimEnd(s: string): (r: string)
    ensures |r| <= |s| && r == s[..|r|]
    ensures AllSpace(s[|r|..])
    ensures r == [] || !IsSpace(r[|r| - 1])
  {
    var n := TailStart(s, |s|);
    assert forall m | 0 <= m < |s| - n :: s[n..][m] == s[n + m];
    s[..n]
  }

  /** `String.prototype.trim`: the longest infix of `s` that neither starts nor ends
      with white space, everything cut away on either side being white space. */
  function Trim(s: string): (r: string)
    ensures |r| <= |s|
    ensures r == [] || (!IsSpace(r[0]) && !IsSpace(r[|r| - 1]))
    ensures exists i :: TrimWitness(s, r, i)
    ensures r == [] <==> AllSpace(s)
  {
    TrimSpec(s);
    TrimEnd(TrimStart(s))
  }

  /** `r` is the slice of `s` at `i` with only white space around it. */
  ghost predicate TrimWitness(s: string, r: string, i: int) {
    0 <= i <= |s| - |r| && r == s[i..i + |r|] && AllSpace(s[..i]) && AllSpace(s[i + |r|..])
  }

  lemma TrimSpec(s: string)
    ensures var r := TrimEnd(TrimStart(s));
      && |r| <= |s|
      && (r == [] || (!IsSpace(r[0]) && !IsSpace(r[|r| - 1])))
      && (exists i :: TrimWitness(s, r, i))
      && (r == [] <==> AllSpace(s))
  {
    TrimFacts(s);
    assert TrimWitness(s, TrimEnd(TrimStart(s)), |s| - |TrimStart(s)|);
  }

  lemma TrimFacts(s: string)
    ensures var a := TrimStart(s); var r := TrimEnd(a); var i := |s| - |a|;
      && r == s[i..i + |r|] && AllSpace(s[..i]) && AllSpace(s[i + |r|..])
      && (r == [] <==> AllSpace(s))
  {
    TrimPieces(s);
    TrimEmpty(s);
  }

  lemma TrimPieces(s: string)
    ensures var a := TrimStart(s); var r := TrimEnd(a); var i := |s| - |a|;
      r == s[i..i + |r|] && AllSpace(s[i + |r|..])
  {
    var a := TrimStart(s);
    SpaceAfterPrefix(s, a, TrimEnd(a), |s| - |a|);
  }

  /** The white space after a prefix `r` of the suffix `a` of `s` is white space of `s`. */
  lemma SpaceAfterPrefix(s: string, a: string, r: string, i: nat)
    requires i <= |s| && a == s[i..] && |r| <= |a| && r == a[..|r|] && AllSpace(a[|r|..])
    ensures r == s[i..i + |r|] && AllSpace(s[i + |r|..])
  {
    PrefixOfSuffix(s, a, r, i);
  }

  /** A prefix `r` of the suffix `a` of `s` that starts at `i` is the slice of `s` at `i`. */
  lemma PrefixOfSuffix<T>(s: seq<T>, a: seq<T>, r: seq<T>, i: nat)
    requires i <= |s| && a == s[i..] && |r| <= |a| && r == a[..|r|]
    ensures r == s[i..i + |r|]
    ensures s[i + |r|..] == a[|r|..]
  {
  }

  lemma TrimEmpty(s: string)
    ensures TrimEnd(TrimStart(s)) == [] <==> AllSpace(s)
  {
    var a := TrimStart(s);
    var i := |s| - |a|;
    if TrimEnd(a) == [] {
      SpaceJoin(s, i);
    } else {
      assert s[i] == a[0];
    }
  }

  lemma SpaceJoin(s: string, i: nat)
    requires i <= |s| && AllSpace(s[..i]) && AllSpace(s[i..])
    ensures AllSpace(s)
  {
    forall k | 0 <= k < |s|
      ensures IsSpace(s[k])
    {
      if k < i {
        assert s[..i][k] == s[k];
      } else {
        assert s[i..][k - i] == s[k];
      }
    }
  }

  /** Lower-casing of one character, restricted to the ASCII letters. */
  function LowerChar(c: char): char {
    if 'A' <= c <= 'Z' then (c as int - 'A' as int + 'a' as int) as char else c
  }

  /** `String.prototype.toLowerCase` on the ASCII range; other characters are kept. */
  function ToLower(s: string): (r: string)
    ensures |r| == |s|
    ensures forall k | 0 <= k < |s| :: r[k] == LowerChar(s[k])
  {
    seq(|s|, k requires 0 <= k < |s| => LowerChar(s[k]))
  }

  predicate IsUpper(c: char) {
    'A' <= c <= 'Z'
  }

  /** Lower-casing leaves no ASCII capital behind, changes nothing else, maps each capital
      to the letter 32 code points above it, and a second pass changes nothing. */
  lemma ToLowerFacts(s: string)
    ensures forall k | 0 <= k < |s| :: !IsUpper(ToLower(s)[k])
    ensures forall k | 0 <= k < |s| && !IsUpper(s[k]) :: ToLower(s)[k] == s[k]
    ensures forall k | 0 <= k < |s| && IsUpper(s[k]) :: ToLower(s)[k] as int == s[k] as int + 32
    ensures ToLower(ToLower(s)) == ToLower(s)
  {
  }

  /** `s.startsWith(p)`. */
  predicate StartsWith(s: string, p: string) {
    p <= s
  }

  /** `s.includes(sub)`: `sub` occurs at some position of `s`. */
  predicate Contains(s: string, sub: string) {
    exists i | 0 <= i <= |s| :: sub <= s[i..]
  }

  /** Some keyword of `keywords` occurs in `s`: the `a.includes(x) || a.includes(y) || ...` chains. */
  predicate ContainsAny(s: string, keywords: seq<string>) {
    exists k | 0 <= k < |keywords| :: Contains(s, keywords[k])
  }

  /** The lower-cased `s` contains one of the (lower-case) keywords. */
  predicate MentionsAny(s: string, keywords: seq<string>) {
    ContainsAny(ToLower(s), keywords)
  }

  /** An occurrence of a word that neither starts nor ends with white space survives `trim`. */
  lemma ContainsTrim(s: string, w: string)
    requires Contains(s, w) && w != [] && !IsSpace(w[0]) && !IsSpace(w[|w| - 1])
    ensures Contains(Trim(s), w)
  {
    var j :| 0 <= j <= |s| && w <= s[j..];
    TrimFacts(s);
    var a := TrimStart(s);
    var r := TrimEnd(a);
    var i := |s| - |a|;
    assert r == s[i..i + |r|] && AllSpace(s[..i]) && AllSpace(s[i + |r|..]);
    OccurrenceInside(s, w, r, i, j);
    assert Trim(s) == r;
  }

  lemma OccurrenceInside(s: string, w: string, r: string, i: nat, j: nat)
    requires i + |r| <= |s| && r == s[i..i + |r|] && AllSpace(s[..i]) && AllSpace(s[i + |r|..])
    requires w != [] && !IsSpace(w[0]) && !IsSpace(w[|w| - 1])
    requires j <= |s| && w <= s[j..]
    ensures Contains(r, w)
  {
    assert s[j] == w[0] && s[j + |w| - 1] == w[|w| - 1];
    SpaceBefore(s, i, j);
    SpaceAfter(s, i + |r|, j + |w| - 1);
    assert w <= r[j - i..];
  }

  lemma SpaceBefore(s: string, i: nat, j: nat)
    requires i <= |s| && AllSpace(s[..i]) && j < |s| && !IsSpace(s[j])
    ensures i <= j
  {
    assert forall k | 0 <= k < i :: s[..i][k] == s[k];
  }

  lemma SpaceAfter(s: string, e: nat, j: nat)
    requires e <= |s| && AllSpace(s[e..]) && j < |s| && !IsSpace(s[j])
    ensures j < e
  {
    assert forall k | e <= k < |s| :: s[e..][k - e] == s[k];
  }

  /** Lower-casing keeps occurrences: if `w` occurs in `s`, its lower case occurs in the lower case of `s`. */
  lemma ContainsLower(s: string, w: string)
    requires Contains(s, w)
    ensures Contains(ToLower(s), ToLower(w))
  {
    var j :| 0 <= j <= |s| && w <= s[j..];
    assert ToLower(w) <= ToLower(s)[j..];
  }

  /** A word occurring in `s`, in whatever ASCII case, makes `s` mention the keyword that
      is its lower case. */
  lemma MentionsWord(s: string, w: string, keywords: seq<string>, i: nat)
    requires Contains(s, w) && i < |keywords| && keywords[i] == ToLower(w)
    ensures MentionsAny(s, keywords)
  {
    ContainsLower(s, w);
  }

  /** Putting text in front of a string keeps every keyword it contains. */
  lemma ContainsAnyAfter(a: string, b: string, keywords: seq<string>)
    requires ContainsAny(b, keywords)
    ensures ContainsAny(a + b, keywords)
  {
    var k :| 0 <= k < |keywords| && Contains(b, keywords[k]);
    var i :| 0 <= i <= |b| && keywords[k] <= b[i..];
    assert (a + b)[|a| + i..] == b[i..];
  }

  /** `a || b` on strings: `a` unless it is empty. */
  function OrElse(a: string, b: string): string {
    if a != [] then a else b
  }

  /** An `https` URL, written as host and path. */
  function Https(host: string, path: string): (r: string)
    ensures StartsWith(r, "https://")
  {
    "https://" + host + path
  }

  /** `s.split(sep)` for a non-empty separator: the pieces between the occurrences of
      `sep` found left to right without overlap, empty pieces included. No piece contains
      the separator, and the first piece runs up to the first occurrence (or is all of `s`). */
  function Split(s: string, sep: string): (r: seq<string>)
    requires sep != []
    ensures SplitShape(s, sep, r)
    decreases |s|
  {
    if |s| < |sep| then
      ShortPiece(s, sep);
      [s]
    else if sep <= s then
      var rest := Split(s[|sep|..], sep);
      EmptyPiece(s, sep, rest);
      [""] + rest
    else
      var rest := Split(s[1..], sep);
      ConsPiece(s, sep, rest);
      [[s[0]] + rest[0]] + rest[1..]
  }

  /** What `Split` promises: at least one piece, the first running up to the first
      occurrence of `sep` (or being all of `s`), and no piece containing `sep`. */
  ghost predicate SplitShape(s: string, sep: string, r: seq<string>) {
    && |r| >= 1
    && r[0] <= s
    && (|r| == 1 ==> r[0] == s)
    && (|r| > 1 ==> sep <= s[|r[0]|..])
    && forall k | 0 <= k < |r| :: !Contains(r[k], sep)
  }

  lemma ShortPiece(s: string, sep: string)
    requires |s| < |sep|
    ensures SplitShape(s, sep, [s])
  {
    assert forall i | 0 <= i <= |s| :: |s[i..]| < |sep|;
  }

  lemma EmptyPiece(s: string, sep: string, rest: seq<string>)
    requires sep != [] && sep <= s && |rest| >= 1
    requires forall k | 0 <= k < |rest| :: !Contains(rest[k], sep)
    ensures SplitShape(s, sep, [""] + rest)
  {
    var r := [""] + rest;
    assert !(sep <= ""[0..]);
    assert forall k | 1 <= k < |r| :: r[k] == rest[k - 1];
  }

  lemma ConsPiece(s: string, sep: string, rest: seq<string>)
    requires s != [] && sep != [] && !(sep <= s)
    requires SplitShape(s[1..], sep, rest)
    ensures SplitShape(s, sep, [[s[0]] + rest[0]] + rest[1..])
  {
    var r := [[s[0]] + rest[0]] + rest[1..];
    FirstPieceFree(s, rest[0], sep);
    assert |rest| > 1 ==> s[1..][|rest[0]|..] == s[1 + |rest[0]|..];
    assert forall k | 1 <= k < |r| :: r[k] == rest[k];
  }

  /** Putting the first character of `s` before the first piece of `s[1..]` cannot create an
      occurrence of `sep`, since `sep` does not start `s`. */
  lemma FirstPieceFree(s: string, t: string, sep: string)
    requires s != [] && sep != [] && !(sep <= s)
    requires t <= s[1..] && !Contains(t, sep)
    ensures [s[0]] + t <= s && !Contains([s[0]] + t, sep)
  {
    var p := [s[0]] + t;
    assert p == s[..|p|];
    forall i | 0 <= i <= |p|
      ensures !(sep <= p[i..])
    {
      if i > 0 {
        assert p[i..] == t[i - 1..];
      }
    }
  }

  /** `parts.join(sep)`. */
  function Join(parts: seq<string>, sep: string): string {
    if |parts| == 0 then ""
    else if |parts| == 1 then parts[0]
    else parts[0] + sep + Join(parts[1..], sep)
  }

  /** Splitting and re-joining on the same separator gives the string back. */
  lemma {:induction false} JoinSplit(s: string, sep: string)
    requires sep != []
    ensures Join(Split(s, sep), sep) == s
    decreases |s|
  {
    if |s| < |sep| {
    } else if sep <= s {
      JoinSplit(s[|sep|..], sep);
      JoinAfterEmpty(Split(s[|sep|..], sep), sep);
      assert s == sep + s[|sep|..];
    } else {
      JoinSplit(s[1..], sep);
      JoinAfterChar(s[0], Split(s[1..], sep), sep);
      assert s == [s[0]] + s[1..];
    }
  }

  lemma JoinAfterEmpty(rest: seq<string>, sep: string)
    requires |rest| >= 1
    ensures Join([""] + rest, sep) == sep + Join(rest, sep)
  {
    assert ([""] + rest)[1..] == rest;
  }

  lemma JoinAfterChar(c: char, rest: seq<string>, sep: string)
    requires |rest| >= 1
    ensures Join([[c] + rest[0]] + rest[1..], sep) == [c] + Join(rest, sep)
  {
    var parts := [[c] + rest[0]] + rest[1..];
    if |rest| > 1 {
      assert parts[1..] == rest[1..];
    }
  }

  /** The number of spaces in `s`. */
  function SpaceCount(s: string): nat {
    multiset(s)[' ']
  }

  /** `s.split(' ').slice(0, n).join(' ')`: the first `n` space-separated words. For
      `n > 0` it is the prefix of `s` that ends at the `n`-th space (or at the end of `s`),
      so it holds `n - 1` spaces unless `s` has fewer. */
  function FirstWords(s: string, n: nat): (r: string)
    ensures r <= s
    ensures n == 0 ==> r == []
    ensures n > 0 ==> SpaceCount(r) == if n - 1 < SpaceCount(s) then n - 1 else SpaceCount(s)
    ensures n > 0 ==> |r| == |s| || s[|r|] == ' '
  {
    var parts := Split(s, " ");
    var m := if n < |parts| then n else |parts|;
    JoinSplit(s, " ");
    JoinPrefix(parts, m, " ");
    FirstWordsFacts(s, parts, m);
    Join(parts[..m], " ")
  }

  lemma FirstWordsFacts(s: string, parts: seq<string>, m: nat)
    requires parts == Split(s, " ") && Join(parts, " ") == s && m <= |parts|
    ensures m >= 1 ==> SpaceCount(Join(parts[..m], " ")) == m - 1
    ensures m >= 1 ==> |parts| == SpaceCount(s) + 1
    ensures m >= 1 ==> var r := Join(parts[..m], " "); |r| == |s| || (|r| < |s| && s[|r|] == ' ')
  {
    if m >= 1 {
      SplitSpaceCount(s);
      forall k | 0 <= k < m
        ensures ' ' !in parts[..m][k]
      {
        NoSpaceChar(parts[k]);
      }
      JoinSpaceCount(parts[..m]);
      if m < |parts| {
        JoinSplitAt(parts, m, " ");
      } else {
        assert parts[..m] == parts;
      }
    }
  }

  /** A string without the one-space string has no space character. */
  lemma NoSpaceChar(p: string)
    requires !Contains(p, " ")
    ensures ' ' !in p
  {
    forall i | 0 <= i < |p|
      ensures p[i] != ' '
    {
      if p[i] == ' ' {
        assert " " <= p[i..];
      }
    }
  }

  /** Splitting on a space gives one piece more than there are spaces. */
  lemma {:induction false} SplitSpaceCount(s: string)
    ensures |Split(s, " ")| == SpaceCount(s) + 1
    decreases |s|
  {
    if |s| >= 1 {
      assert s == [s[0]] + s[1..];
      SplitSpaceCount(s[1..]);
    }
  }

  /** Joining space-free pieces with a space puts one space between each two. */
  lemma {:induction false} JoinSpaceCount(ps: seq<string>)
    requires |ps| >= 1 && forall k | 0 <= k < |ps| :: ' ' !in ps[k]
    ensures SpaceCount(Join(ps, " ")) == |ps| - 1
  {
    if |ps| > 1 {
      JoinSpaceCount(ps[1..]);
      assert Join(ps, " ") == ps[0] + " " + Join(ps[1..], " ");
    }
  }

  /** The join of the parts is the join of a prefix, the separator, and the join of the rest. */
  lemma {:induction false} JoinSplitAt(ps: seq<string>, m: nat, sep: string)
    requires 1 <= m < |ps|
    ensures Join(ps, sep) == Join(ps[..m], sep) + sep + Join(ps[m..], sep)
  {
    if m == 1 {
      assert ps[..1] == [ps[0]] && ps[1..] == ps[m..];
    } else {
      JoinSplitAt(ps[1..], m - 1, sep);
      assert ps[..m][1..] == ps[1..][..m - 1];
      assert ps[1..][m - 1..] == ps[m..];
    }
  }

  /** Joining a non-empty prefix of the parts gives a prefix of the whole join. */
  lemma {:induction false} JoinPrefix(parts: seq<string>, n: nat, sep: string)
    requires n <= |parts|
    ensures Join(parts[..n], sep) <= Join(parts, sep)
  {
    if n == 0 {
    } else if n == 1 {
      if |parts| > 1 {
        assert parts[..1] == [parts[0]];
      }
    } else {
      JoinPrefix(parts[1..], n - 1, sep);
      assert parts[..n][1..] == parts[1..][..n - 1];
    }
  }

  /** The decimal digit character of `d`. */
  function DigitChar(d: nat): char
    requires d < 10
  {
    ('0' as int + d) as char
  }

  predicate IsDigit(c: char) {
    '0' <= c <= '9'
  }

  predicate AllDigits(s: string) {
    forall k | 0 <= k < |s| :: IsDigit(s[k])
  }

  /** `String(n)` for a non-negative integer: shortest decimal rendering. */
  function NatToString(n: nat): (r: string)
    ensures |r| >= 1
    ensures AllDigits(r)
    ensures n > 0 ==> r[0] != '0'
    decreases n
  {
    if n < 10 then [DigitChar(n)] else NatToString(n / 10) + [DigitChar(n % 10)]
  }

  /** The value of a string of decimal digits. */
  function DigitsValue(s: string): nat
    requires AllDigits(s)
  {
    if |s| == 0 then 0
    else
      assert IsDigit(s[|s| - 1]);
      10 * DigitsValue(s[..|s| - 1]) + (s[|s| - 1] as int - '0' as int)
  }

  /** Reading back a rendered integer gives the integer. */
  lemma {:induction false} DigitsValueOfNatToString(n: nat)
    ensures DigitsValue(NatToString(n)) == n
    decreases n
  {
    if n >= 10 {
      DigitsValueOfNatToString(n / 10);
      var s := NatToString(n);
      assert s[..|s| - 1] == NatToString(n / 10);
    }
  }

  /** Distinct integers render to distinct strings, so ids built from a counter are unique. */
  lemma NatToStringInjective(a: nat, b: nat)
    requires NatToString(a) == NatToString(b)
    ensures a == b
  {
    DigitsValueOfNatToString(a);
    DigitsValueOfNatToString(b);
  }
}

/** The two regular expressions the detail extractor runs over a page's body text,
    written out with ECMAScript's leftmost, greedy-with-backtracking semantics:

      - `/tag[:\s]+([^.\n]+)/i` for `tag` in {product, company}: the value after a tag;
      - `/(\d{4}[-\s]\w+[-\s]\w+)/i`: a year-make-model token such as `2021 Ford F150`. */
module Patterns {
  import opened Wrappers
  import opened Strings

  /** The class `[:\s]`. */
  predicate IsSeparator(c: char) {
    c == ':' || IsSpace(c)
  }

  /** The class `[^.\n]`. */
  predicate IsValueChar(c: char) {
    c != '.' && c != '\n'
  }

  /** The literal `tag` (written in lower case) occurs at `i`, ignoring ASCII case as `/i` does. */
  predicate LabelAt(s: string, tag: string, i: nat) {
    i + |tag| <= |s| && ToLower(s[i..i + |tag|]) == tag
  }

  /** End of the run of separators starting at `k`. */
  function SeparatorEnd(s: string, k: nat): (e: nat)
    requires k <= |s|
    ensures k <= e <= |s|
    ensures forall m | k <= m < e :: IsSeparator(s[m])
    ensures e == |s| || !IsSeparator(s[e])
    decreases |s| - k
  {
    if k < |s| && IsSeparator(s[k]) then SeparatorEnd(s, k + 1) else k
  }

  /** End of the run of value characters starting at `k`: where the greedy group stops. */
  function ValueEnd(s: string, k: nat): (e: nat)
    requires k <= |s|
    ensures k <= e <= |s|
    ensures forall m | k <= m < e :: IsValueChar(s[m])
    ensures e == |s| || !IsValueChar(s[e])
    decreases |s| - k
  {
    if k < |s| && IsValueChar(s[k]) then ValueEnd(s, k + 1) else k
  }

  /** A match of `tag[:\s]+([^.\n]+)` that starts at `i` and whose group starts at `j`. */
  ghost predicate LabelMatch(s: string, tag: string, i: int, j: int) {
    && 0 <= i
    && LabelAt(s, tag, i)
    && i + |tag| < j < |s|
    && (forall m | i + |tag| <= m < j :: IsSeparator(s[m]))
    && IsValueChar(s[j])
  }

  /** Backtracking of the greedy `[:\s]+`: the largest group start `j` with `lo < j <= hi`. */
  function GroupStart(s: string, lo: nat, hi: nat): (r: Option<nat>)
    requires hi <= |s|
    ensures r.Some? ==> lo < r.value <= hi && r.value < |s| && IsValueChar(s[r.value])
    ensures forall j | lo < j <= hi && j < |s| && IsValueChar(s[j]) :: r.Some? && j <= r.value
    decreases hi
  {
    if hi <= lo then None
    else if hi < |s| && IsValueChar(s[hi]) then Some(hi)
    else GroupStart(s, lo, hi - 1)
  }

  /** The group start of the match that begins at `i`, if the expression matches there. */
  function GroupAt(s: string, tag: string, i: nat): (r: Option<nat>)
    ensures r.Some? ==> LabelMatch(s, tag, i, r.value)
    ensures forall j | LabelMatch(s, tag, i, j) :: r.Some? && j <= r.value
  {
    if !LabelAt(s, tag, i) then None
    else
      var lo := i + |tag|;
      var e := SeparatorEnd(s, lo);
      var r := GroupStart(s, lo, e);
      GroupBelowRunEnd(s, tag, i, e);
      r
  }

  lemma GroupBelowRunEnd(s: string, tag: string, i: nat, e: nat)
    requires LabelAt(s, tag, i) && e == SeparatorEnd(s, i + |tag|)
    ensures forall j | LabelMatch(s, tag, i, j) :: j <= e
  {
  }

  /** The leftmost match at or after `from`, as (match start, group start). */
  function FirstLabelMatch(s: string, tag: string, from: nat): (r: Option<(nat, nat)>)
    ensures r.Some? ==> from <= r.value.0 && LabelMatch(s, tag, r.value.0, r.value.1)
    ensures forall i, j | from <= i && LabelMatch(s, tag, i, j) ::
              r.Some? && (r.value.0 < i || (r.value.0 == i && j <= r.value.1))
    decreases |s| - from
  {
    if from >= |s| then None
    else
      match GroupAt(s, tag, from)
      case Some(j) => Some((from, j))
      case None => FirstLabelMatch(s, tag, from + 1)
  }

  /** `s.match(/tag[:\s]+([^.\n]+)/i)?.[1]`: the group of the leftmost match, whose
      separator run is as long as still lets the group start, and whose group runs to
      the next full stop or newline. */
  function LabelValue(s: string, tag: string): (r: Option<string>)
    ensures r.None? <==> forall i, j :: !LabelMatch(s, tag, i, j)
    ensures r.Some? ==>
      && r.value != []
      && (forall k | 0 <= k < |r.value| :: IsValueChar(r.value[k]))
      && exists i, j ::
           && LabelMatch(s, tag, i, j)
           && r.value == s[j..ValueEnd(s, j)]
           && forall i', j' | LabelMatch(s, tag, i', j') :: i < i' || (i == i' && j' <= j)
  {
    match FirstLabelMatch(s, tag, 0)
    case None => None
    case Some((i, j)) => Some(s[j..ValueEnd(s, j)])
  }

  /** The class `\w`. */
  predicate IsWordChar(c: char) {
    ('a' <= c <= 'z') || ('A' <= c <= 'Z') || ('0' <= c <= '9') || c == '_'
  }

  /** The class `[-\s]`. */
  predicate IsDash(c: char) {
    c == '-' || IsSpace(c)
  }

  /** End of the run of word characters starting at `k`. */
  function WordEnd(s: string, k: nat): (e: nat)
    requires k <= |s|
    ensures k <= e <= |s|
    ensures forall m | k <= m < e :: IsWordChar(s[m])
    ensures e == |s| || !IsWordChar(s[e])
    decreases |s| - k
  {
    if k < |s| && IsWordChar(s[k]) then WordEnd(s, k + 1) else k
  }

  /** A match of `\d{4}[-\s]\w+[-\s]\w+` at `i`: the first word ends at `a` (where the second
      dash is), the second at `b`, and the greedy `\w+` leaves no word character after `b`. */
  ghost predicate VehicleMatch(s: string, i: int, a: int, b: int) {
    && 0 <= i && i + 5 < a < |s|
    && AllDigits(s[i..i + 4]) && IsDash(s[i + 4])
    && (forall m | i + 5 <= m < a :: IsWordChar(s[m])) && IsDash(s[a])
    && a + 1 < b <= |s|
    && (forall m | a + 1 <= m < b :: IsWordChar(s[m]))
    && (b == |s| || !IsWordChar(s[b]))
  }

  /** The match that begins at `i`, if any, as (end of first word, end of match). */
  function VehicleAt(s: string, i: nat): (r: Option<(nat, nat)>)
    ensures r.Some? ==> VehicleMatch(s, i, r.value.0, r.value.1)
    ensures forall a, b | VehicleMatch(s, i, a, b) :: r == Some((a, b))
  {
    if i + 5 < |s| && AllDigits(s[i..i + 4]) && IsDash(s[i + 4]) then
      var a := WordEnd(s, i + 5);
      if i + 5 < a < |s| && IsDash(s[a]) then
        var b := WordEnd(s, a + 1);
        if a + 1 < b then
          VehicleUnique(s, i, a, b);
          Some((a, b))
        else
          VehicleFirstWord(s, i, a);
          None
      else
        VehicleFirstWord(s, i, a);
        None
    else None
  }

  lemma VehicleFirstWord(s: string, i: nat, a: nat)
    requires i + 5 <= |s| && a == WordEnd(s, i + 5)
    ensures forall a', b' | VehicleMatch(s, i, a', b') :: a' == a && b' == WordEnd(s, a + 1)
  {
  }

  lemma VehicleUnique(s: string, i: nat, a: nat, b: nat)
    requires i + 5 <= |s| && a == WordEnd(s, i + 5) && a < |s| && b == WordEnd(s, a + 1)
    ensures forall a', b' | VehicleMatch(s, i, a', b') :: a' == a && b' == b
  {
    VehicleFirstWord(s, i, a);
  }

  /** The leftmost match at or after `from`, as (match start, end of match). */
  function FirstVehicleMatch(s: string, from: nat): (r: Option<(nat, nat)>)
    ensures r.Some? ==> from <= r.value.0 && exists a :: VehicleMatch(s, r.value.0, a, r.value.1)
    ensures forall i, a, b | from <= i && VehicleMatch(s, i, a, b) ::
              r.Some? && (r.value.0 < i || (r.value.0 == i && r.value.1 == b))
    decreases |s| - from
  {
    if from >= |s| then None
    else
      match VehicleAt(s, from)
      case Some((a, b)) => Some((from, b))
      case None => FirstVehicleMatch(s, from + 1)
  }

  /** `s.match(/(\d{4}[-\s]\w+[-\s]\w+)/i)?.[1]`: the text of the leftmost match. */
  function VehicleToken(s: string): (r: Option<string>)
    ensures r.None? <==> forall i, a, b :: !VehicleMatch(s, i, a, b)
    ensures r.Some? ==>
      && |r.value| >= 8 && AllDigits(r.value[..4])
      && exists i, a, b ::
           && VehicleMatch(s, i, a, b) && r.value == s[i..b]
           && forall i', a', b' | VehicleMatch(s, i', a', b') :: i < i' || (i == i' && b' == b)
  {
    match FirstVehicleMatch(s, 0)
    case None => None
    case Some((i, b)) =>
      VehicleTokenShape(s, i, b);
      Some(s[i..b])
  }

  lemma VehicleTokenShape(s: string, i: nat, b: nat)
    requires exists a :: VehicleMatch(s, i, a, b)
    ensures i + 8 <= b <= |s| && AllDigits(s[i..b][..4])
  {
    var a :| VehicleMatch(s, i, a, b);
    assert s[i..b][..4] == s[i..i + 4];
  }
}

/** Finding a version in a tag: the leftmost, longest piece of text of the form
    digits.digits.digits with an optional pre-release of [0-9A-Za-z.]. */
module VersionText {
  import opened Wrappers

  predicate Digit(c: char) {
    '0' <= c <= '9'
  }

  predicate PreChar(c: char) {
    Digit(c) || 'A' <= c <= 'Z' || 'a' <= c <= 'z' || c == '.'
  }

  predicate All(s: string, kind: char -> bool) {
    forall i :: 0 <= i < |s| ==> kind(s[i])
  }

  /** Where the run of `kind` characters that starts at `i` ends. */
  function RunEnd(s: string, i: nat, kind: char -> bool): (j: nat)
    requires i <= |s|
    ensures i <= j <= |s| && (j < |s| ==> !kind(s[j]))
    ensures forall k :: i <= k < j ==> kind(s[k])
    decreases |s| - i
  {
    if i < |s| && kind(s[i]) then RunEnd(s, i + 1, kind) else i
  }

  /** The end of a dotted number that continues at `i` with digits and a dot. */
  function PartEnd(s: string, i: nat): (r: Option<nat>)
    requires i <= |s|
    ensures r.Some? ==> i < r.value < |s|
  {
    var j := RunEnd(s, i, Digit);
    if j == i || j == |s| || s[j] != '.' then None else Some(j)
  }

  /** The optional group: a hyphen and at least one pre-release character. */
  function PreEnd(s: string, c: nat): (d: nat)
    requires c <= |s|
    ensures c <= d <= |s|
  {
    if c < |s| && s[c] == '-' && RunEnd(s, c + 1, PreChar) > c + 1 then RunEnd(s, c + 1, PreChar) else c
  }

  /** Where the version that starts at `i` ends, if one does. */
  function MatchAt(s: string, i: nat): (r: Option<nat>)
    requires i <= |s|
    ensures r.Some? ==> i < r.value <= |s|
  {
    var a := PartEnd(s, i);
    if a.None? then None
    else
      var b := PartEnd(s, a.value + 1);
      if b.None? then None
      else
        var c := RunEnd(s, b.value + 1, Digit);
        if c == b.value + 1 then None else Some(PreEnd(s, c))
  }

  /** The first match at or after `i`, behind a "v" if there is one. */
  function FindFrom(s: string, i: nat): (r: Option<(nat, nat)>)
    requires i <= |s|
    ensures r.Some? ==> i <= r.value.0 < r.value.1 <= |s|
    decreases |s| - i
  {
    if i < |s| && s[i] == 'v' && MatchAt(s, i + 1).Some? then Some((i + 1, MatchAt(s, i + 1).value))
    else if MatchAt(s, i).Some? then Some((i, MatchAt(s, i).value))
    else if i < |s| then FindFrom(s, i + 1)
    else None
  }

  function NormVer(s: string): string {
    var m := FindFrom(s, 0);
    if m.Some? then s[m.value.0..m.value.1] else ""
  }

  // ----- what a version is ------------------------------------------------------------

  /** Three non-empty digit groups that end at `a`, `b` and `c`, then nothing or a
      pre-release. */
  predicate Shaped(t: string, a: nat, b: nat, c: nat) {
    && 0 < a && a + 1 < b && b + 1 < c <= |t|
    && All(t[..a], Digit) && t[a] == '.'
    && All(t[a + 1..b], Digit) && t[b] == '.'
    && All(t[b + 1..c], Digit)
    && (c < |t| ==> c + 1 < |t| && t[c] == '-' && All(t[c + 1..], PreChar))
  }

  ghost predicate IsVersion(t: string) {
    exists a: nat, b: nat, c: nat :: Shaped(t, a, b, c)
  }

  lemma RunEndAt(s: string, i: nat, j: nat, kind: char -> bool)
    requires i <= j <= |s| && All(s[i..j], kind)
    ensures RunEnd(s, i, kind) >= j
    ensures j == |s| || !kind(s[j]) ==> RunEnd(s, i, kind) == j
  {
    forall k | i <= k < j ensures kind(s[k]) { assert s[i..j][k - i] == s[k]; }
    assert RunEnd(s, i, kind) > j ==> kind(s[j]);
  }

  lemma Slice(s: string, i: nat, j: nat, x: nat, y: nat)
    requires i <= j <= |s| && x <= y <= j - i
    ensures s[i..j][x..y] == s[i + x..i + y]
  {
    var t := s[i..j];
    forall k | 0 <= k < y - x ensures t[x..y][k] == s[i + x..i + y][k] {
      assert t[x..y][k] == t[x + k];
      assert t[x + k] == s[i + (x + k)];
      assert s[i + x..i + y][k] == s[(i + x) + k];
    }
  }

  /** The same, with the positions counted from the start of `s`. */
  predicate ShapedAt(s: string, i: nat, a: nat, b: nat, c: nat, j: nat) {
    && i < a && a + 1 < b && b + 1 < c <= j <= |s|
    && All(s[i..a], Digit) && s[a] == '.'
    && All(s[a + 1..b], Digit) && s[b] == '.'
    && All(s[b + 1..c], Digit)
    && (c < j ==> c + 1 < j && s[c] == '-' && All(s[c + 1..j], PreChar))
  }

  lemma ShiftShape(s: string, i: nat, j: nat, a: nat, b: nat, c: nat)
    requires i <= j <= |s| && a + 1 < b && b + 1 < c <= j - i
    ensures Shaped(s[i..j], a, b, c) <==> ShapedAt(s, i, i + a, i + b, i + c, j)
  {
    Slice(s, i, j, 0, a);
    Slice(s, i, j, a + 1, b);
    Slice(s, i, j, b + 1, c);
    if c < j - i { Slice(s, i, j, c + 1, j - i); }
  }

  lemma MatchIsVersion(s: string, i: nat)
    requires i <= |s| && MatchAt(s, i).Some?
    ensures IsVersion(s[i..MatchAt(s, i).value])
  {
    var a := PartEnd(s, i).value;
    var b := PartEnd(s, a + 1).value;
    var c := RunEnd(s, b + 1, Digit);
    var j := MatchAt(s, i).value;
    assert ShapedAt(s, i, a, b, c, j);
    ShiftShape(s, i, j, a - i, b - i, c - i);
    assert Shaped(s[i..j], a - i, b - i, c - i);
  }

  lemma ShapeMatches(s: string, i: nat, a: nat, b: nat, c: nat, j: nat)
    requires ShapedAt(s, i, a, b, c, j)
    ensures MatchAt(s, i).Some? && j <= MatchAt(s, i).value
  {
    RunEndAt(s, i, a, Digit);
    RunEndAt(s, a + 1, b, Digit);
    RunEndAt(s, b + 1, c, Digit);
    assert PartEnd(s, i) == Some(a) && PartEnd(s, a + 1) == Some(b);
    if c < j { RunEndAt(s, c + 1, j, PreChar); }
  }

  /** Every version that starts at `i` is a part of the match there. */
  lemma MatchIsLongest(s: string, i: nat, j: nat)
    requires i <= j <= |s| && IsVersion(s[i..j])
    ensures MatchAt(s, i).Some? && j <= MatchAt(s, i).value
  {
    var a: nat, b: nat, c: nat :| Shaped(s[i..j], a, b, c);
    ShiftShape(s, i, j, a, b, c);
    ShapeMatches(s, i, i + a, i + b, i + c, j);
  }

  /** A match does not start with a "v". */
  lemma MatchStartsWithDigit(s: string, i: nat)
    requires i < |s| && s[i] == 'v'
    ensures MatchAt(s, i).None?
  {
    assert PartEnd(s, i).None?;
  }

  lemma {:induction false} FindIsLeftmost(s: string, i: nat, k: nat)
    requires i <= k <= |s| && MatchAt(s, k).Some?
    ensures FindFrom(s, i).Some? && FindFrom(s, i).value.0 <= k
    decreases |s| - i
  {
    if i < |s| && s[i] == 'v' { MatchStartsWithDigit(s, i); }
    if !(i < |s| && s[i] == 'v' && MatchAt(s, i + 1).Some?) && MatchAt(s, i).None? {
      FindIsLeftmost(s, i + 1, k);
    }
  }

  lemma {:induction false} FindIsMatch(s: string, i: nat)
    requires i <= |s| && FindFrom(s, i).Some?
    ensures MatchAt(s, FindFrom(s, i).value.0) == Some(FindFrom(s, i).value.1)
    decreases |s| - i
  {
    if !(i < |s| && s[i] == 'v' && MatchAt(s, i + 1).Some?) && MatchAt(s, i).None? {
      FindIsMatch(s, i + 1);
    }
  }

  /** The piece found is a version; none starts further left, and none that starts
      there is longer. */
  lemma NormVerFinds(s: string)
    requires NormVer(s) != ""
    ensures exists i: nat, j: nat :: LeftmostLongest(s, i, j) && NormVer(s) == s[i..j]
  {
    var (i, j) := FindFrom(s, 0).value;
    FindIsMatch(s, 0);
    MatchIsVersion(s, i);
    forall i', j' | 0 <= i' <= j' <= |s| && IsVersion(s[i'..j']) ensures i <= i' && (i' == i ==> j' <= j) {
      MatchIsLongest(s, i', j');
      FindIsLeftmost(s, 0, i');
    }
    assert LeftmostLongest(s, i, j);
  }

  ghost predicate LeftmostLongest(s: string, i: nat, j: nat) {
    && i <= j <= |s| && IsVersion(s[i..j])
    && forall i', j' :: 0 <= i' <= j' <= |s| && IsVersion(s[i'..j']) ==> i <= i' && (i' == i ==> j' <= j)
  }

  /** Nothing is found exactly when the text holds no version at all. */
  lemma NormVerMisses(s: string)
    ensures NormVer(s) == "" <==> forall i, j :: 0 <= i <= j <= |s| ==> !IsVersion(s[i..j])
  {
    if NormVer(s) == "" {
      forall i, j | 0 <= i <= j <= |s| ensures !IsVersion(s[i..j]) {
        if IsVersion(s[i..j]) {
          MatchIsLongest(s, i, j);
          FindIsLeftmost(s, 0, i);
        }
      }
    } else {
      NormVerFinds(s);
    }
  }

  lemma NormVerIsVersion(s: string)
    requires NormVer(s) != ""
    ensures IsVersion(NormVer(s))
  {
    NormVerFinds(s);
  }

  /** A version is found whole. */
  lemma VersionIsFound(t: string)
    requires IsVersion(t)
    ensures NormVer(t) == t
  {
    assert t[0..|t|] == t;
    MatchIsLongest(t, 0, |t|);
    assert t[0] != 'v';
  }

  lemma NormVerIdempotent(s: string)
    ensures NormVer(NormVer(s)) == NormVer(s)
  {
    if NormVer(s) == "" {
      assert MatchAt("", 0).None?;
    } else {
      NormVerIsVersion(s);
      VersionIsFound(NormVer(s));
    }
  }
}

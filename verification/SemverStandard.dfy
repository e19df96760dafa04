/**
 Section 11 of Semantic Versioning 2.0.0, stated on its own: what a tag written by
 the standard's grammar means, and which of two versions has lower precedence.
 The order of Semver is compared with it.
*/
module SemverStandard {
  import opened Wrappers
  import opened VersionText
  import opened Semver

  /** The parts of a tag.  Leading zeros are allowed, and `build` may be any text. */
  datatype Tag = Tag(v: bool, major: string, minor: string, patch: string, pre: seq<string>, build: Option<string>)

  predicate IdentChar(c: char) {
    Digit(c) || 'A' <= c <= 'Z' || 'a' <= c <= 'z' || c == '-'
  }

  predicate Number(s: string) {
    s != "" && All(s, Digit)
  }

  predicate WellFormed(t: Tag) {
    && Number(t.major) && Number(t.minor) && Number(t.patch)
    && forall i :: 0 <= i < |t.pre| ==> t.pre[i] != "" && All(t.pre[i], IdentChar)
  }

  function Join(parts: seq<string>): string
    requires parts != []
  {
    if |parts| == 1 then parts[0] else parts[0] + "." + Join(parts[1..])
  }

  function Core(t: Tag): string {
    t.major + "." + t.minor + "." + t.patch
  }

  /** What follows the core: the pre-release and the build metadata. */
  function Rest(t: Tag): string {
    (if t.pre == [] then "" else "-" + Join(t.pre)) + (if t.build.Some? then "+" + t.build.value else "")
  }

  function Mark(t: Tag): string {
    if t.v then "v" else ""
  }

  function Written(t: Tag): string {
    Mark(t) + (Core(t) + Rest(t))
  }

  function MeantIdent(s: string): Ident {
    if Number(s) then Num(Value(s)) else Alpha(s)
  }

  /** What the standard says the tag means; build metadata has no part in it. */
  function Meaning(t: Tag): Version
    requires WellFormed(t)
  {
    Version([Value(t.major), Value(t.minor), Value(t.patch)],
            seq(|t.pre|, i requires 0 <= i < |t.pre| => MeantIdent(t.pre[i])))
  }

  // ----- precedence -------------------------------------------------------------------

  predicate TextBelow(a: string, b: string) {
    || a < b
    || exists k :: 0 <= k < |a| && k < |b| && a[..k] == b[..k] && a[k] < b[k]
  }

  predicate IdentBelow(a: Ident, b: Ident) {
    || (a.Num? && b.Num? && a.value < b.value)
    || (a.Num? && b.Alpha?)
    || (a.Alpha? && b.Alpha? && TextBelow(a.text, b.text))
  }

  /** The first difference decides, and with none the shorter list is lower. */
  predicate ListBelow(a: seq<Ident>, b: seq<Ident>) {
    || a < b
    || exists k :: 0 <= k < |a| && k < |b| && a[..k] == b[..k] && IdentBelow(a[k], b[k])
  }

  predicate Below(a: Version, b: Version) {
    || (exists k :: 0 <= k < |a.core| && k < |b.core| && a.core[..k] == b.core[..k] && a.core[k] < b.core[k])
    || (a.core == b.core && a.pre != [] && (b.pre == [] || ListBelow(a.pre, b.pre)))
  }

  lemma {:induction false} TextOrderIsBelow(a: string, b: string)
    ensures TextOrder(a, b) < 0 <==> TextBelow(a, b)
    ensures TextOrder(a, b) == 0 <==> a == b
    decreases |a|
  {
    if a != "" && b != "" {
      TextOrderIsBelow(a[1..], b[1..]);
      assert a == [a[0]] + a[1..] && b == [b[0]] + b[1..];
      if a[0] != b[0] {
        assert a[..0] == b[..0];
      } else {
        TextBelowTail(a, b);
      }
    }
  }

  lemma TextBelowTail(a: string, b: string)
    requires a != "" && b != "" && a[0] == b[0]
    ensures TextBelow(a, b) <==> TextBelow(a[1..], b[1..])
  {
    forall k | 1 <= k < |a| && k < |b| ensures a[..k] == b[..k] <==> a[1..][..k - 1] == b[1..][..k - 1] {
      assert a[..k] == [a[0]] + a[1..][..k - 1] && b[..k] == [b[0]] + b[1..][..k - 1];
      assert a[1..][..k - 1] == a[..k][1..] && b[1..][..k - 1] == b[..k][1..];
    }
    assert a < b <==> a[1..] < b[1..];
    if k :| 0 <= k < |a[1..]| && k < |b[1..]| && a[1..][..k] == b[1..][..k] && a[1..][k] < b[1..][k] {
      assert a[..k + 1] == b[..k + 1] && a[k + 1] < b[k + 1];
    }
    if k :| 0 <= k < |a| && k < |b| && a[..k] == b[..k] && a[k] < b[k] {
      assert a[1..][k - 1] < b[1..][k - 1];
    }
  }

  lemma IdentOrderIsBelow(a: Ident, b: Ident)
    ensures IdentOrder(a, b) < 0 <==> IdentBelow(a, b)
    ensures IdentOrder(a, b) == 0 <==> a == b
  {
    if a.Alpha? && b.Alpha? { TextOrderIsBelow(a.text, b.text); }
  }

  /** Where the lists agree so far, what is left decides. */
  lemma {:induction false} PreOrderIsBelow(a: seq<Ident>, b: seq<Ident>, i: nat)
    requires i <= |a| && i <= |b| && a[..i] == b[..i]
    ensures PreOrderFrom(a, b, i) < 0 <==> ListBelow(a, b)
    ensures PreOrderFrom(a, b, i) == 0 <==> a == b
    decreases |a| - i
  {
    forall k | 0 <= k < i ensures a[k] == b[k] && !IdentBelow(a[k], b[k]) {
      assert a[k] == a[..i][k] == b[..i][k];
      IdentOrderIsBelow(a[k], b[k]);
    }
    if i < |a| && i < |b| {
      IdentOrderIsBelow(a[i], b[i]);
      if a[i] == b[i] {
        assert a[..i + 1] == a[..i] + [a[i]] && b[..i + 1] == b[..i] + [b[i]];
        PreOrderIsBelow(a, b, i + 1);
      } else {
        assert forall k :: i < k <= |a| && k <= |b| ==> a[..k][i] != b[..k][i];
      }
    }
  }

  lemma CoreOrderOfThree(a: seq<int>, b: seq<int>)
    requires |a| == |b| == 3
    ensures CoreOrder(a, b) < 0 <==> exists k :: 0 <= k < 3 && a[..k] == b[..k] && a[k] < b[k]
    ensures CoreOrder(a, b) == 0 <==> a == b
  {
    assert CoreOrderFrom(a, b, 2) == IntOrder(a[2], b[2]);
    assert CoreOrderFrom(a, b, 1) == if a[1] != b[1] then IntOrder(a[1], b[1]) else IntOrder(a[2], b[2]);
    if a[0] < b[0] {
      assert a[..0] == b[..0];
    } else if a[0] == b[0] && a[1] < b[1] {
      assert a[..1] == b[..1];
    } else if a[0] == b[0] && a[1] == b[1] && a[2] < b[2] {
      assert a[..2] == b[..2];
    }
    if k :| 0 <= k < 3 && a[..k] == b[..k] && a[k] < b[k] {
      assert forall j :: 0 <= j < k ==> a[..k][j] == b[..k][j];
    }
  }

  /** On versions with three numbers the order of Semver is the standard's precedence. */
  lemma VersionOrderIsPrecedence(a: Version, b: Version)
    requires |a.core| == |b.core| == 3
    ensures VersionOrder(a, b) < 0 <==> Below(a, b)
    ensures VersionOrder(a, b) == 0 <==> a == b
  {
    CoreOrderOfThree(a.core, b.core);
    PreOrderIsBelow(a.pre, b.pre, 0);
  }

  // ----- how a written tag is read -------------------------------------------------------

  lemma {:induction false} IndexOfAt(s: string, c: char, i: nat)
    requires i <= |s| && (i < |s| ==> s[i] == c) && forall k :: 0 <= k < i ==> s[k] != c
    ensures IndexOf(s, c) == i
    decreases i
  {
    if i > 0 { IndexOfAt(s[1..], c, i - 1); }
  }

  predicate Without(s: string, c: char) {
    forall i :: 0 <= i < |s| ==> s[i] != c
  }

  lemma {:induction false} SplitJoin(parts: seq<string>)
    requires parts != [] && forall i :: 0 <= i < |parts| ==> Without(parts[i], '.')
    ensures Split(Join(parts), '.') == parts
    decreases |parts|
  {
    var s := Join(parts);
    assert Without(parts[0], '.');
    IndexOfAt(s, '.', |parts[0]|);
    if |parts| > 1 {
      SplitJoin(parts[1..]);
      assert s[..|parts[0]|] == parts[0] && s[|parts[0]| + 1..] == Join(parts[1..]);
    }
  }

  lemma Middle(x: string, d: string, y: string)
    ensures (x + d + y)[|x|..|x| + |d|] == d
    ensures y != "" ==> (x + d + y)[|x| + |d|] == y[0]
  {
  }

  /** A number runs to its end and no further. */
  lemma NumberRuns(x: string, d: string, y: string)
    requires Number(d) && (y == "" || !Digit(y[0]))
    ensures RunEnd(x + d + y, |x|, Digit) == |x| + |d|
  {
    Middle(x, d, y);
    RunEndAt(x + d + y, |x|, |x| + |d|, Digit);
  }

  lemma PartRuns(x: string, d: string, y: string)
    requires Number(d) && y != "" && y[0] == '.'
    ensures PartEnd(x + d + y, |x|) == Some(|x| + |d|)
  {
    NumberRuns(x, d, y);
    Middle(x, d, y);
  }

  /** Three ways to cut a written tag, one at each number of the core. */
  lemma Cuts(t: Tag, before: string)
    ensures var s := before + (Core(t) + Rest(t));
            && s == before + t.major + ("." + t.minor + "." + t.patch + Rest(t))
            && s == (before + t.major + ".") + t.minor + ("." + t.patch + Rest(t))
            && s == (before + t.major + "." + t.minor + ".") + t.patch + Rest(t)
  {
  }

  /** Each number of the core is taken whole. */
  lemma CoreParts(t: Tag, before: string)
    requires WellFormed(t)
    ensures var s := before + (Core(t) + Rest(t));
            var a := |before| + |t.major|;
            var b := a + 1 + |t.minor|;
            && b + 1 < |s| && PartEnd(s, |before|) == Some(a) && PartEnd(s, a + 1) == Some(b)
            && RunEnd(s, b + 1, Digit) == b + 1 + |t.patch|
  {
    Cuts(t, before);
    PartRuns(before, t.major, "." + t.minor + "." + t.patch + Rest(t));
    PartRuns(before + t.major + ".", t.minor, "." + t.patch + Rest(t));
    NumberRuns(before + t.major + "." + t.minor + ".", t.patch, Rest(t));
  }

  /** The core is matched where it stands, and the optional group is all that is left
      to decide. */
  lemma CoreMatches(t: Tag, before: string)
    requires WellFormed(t)
    ensures var s := before + (Core(t) + Rest(t));
            MatchAt(s, |before|) == Some(PreEnd(s, |before| + |Core(t)|))
  {
    var a := |before| + |t.major|;
    var b := a + 1 + |t.minor|;
    CoreParts(t, before);
    CoreLength(t);
    Matched(before + (Core(t) + Rest(t)), |before|, a, b, |before| + |Core(t)|);
  }

  lemma CoreLength(t: Tag)
    ensures |Core(t)| == |t.major| + 1 + |t.minor| + 1 + |t.patch|
  {
  }

  lemma Matched(s: string, i: nat, a: nat, b: nat, c: nat)
    requires i <= |s| && a < |s| && b < |s| && c <= |s|
    requires PartEnd(s, i) == Some(a) && PartEnd(s, a + 1) == Some(b) && RunEnd(s, b + 1, Digit) == c && c > b + 1
    ensures MatchAt(s, i) == Some(PreEnd(s, c))
  {
  }

  function Build(t: Tag): string {
    if t.build.Some? then "+" + t.build.value else ""
  }

  /** The pre-release as far as the pattern takes it: up to the first hyphen. */
  function Taken(pre: seq<string>): string
    requires pre != []
  {
    Join(pre)[..RunEnd(Join(pre), 0, PreChar)]
  }

  function Seen(t: Tag): string {
    if t.pre == [] || Taken(t.pre) == "" then "" else "-" + Taken(t.pre)
  }

  /** The optional group takes a hyphen and the run `taken` behind it, if there is one. */
  lemma GroupTaken(x: string, taken: string, y: string)
    requires All(taken, PreChar) && (y == "" || !PreChar(y[0]))
    ensures PreEnd(x + "-" + taken + y, |x|) == if taken == "" then |x| else |x| + 1 + |taken|
  {
    var s := x + "-" + taken + y;
    Middle(x + "-", taken, y);
    RunEndAt(s, |x| + 1, |x| + 1 + |taken|, PreChar);
    assert s[|x|] == '-';
  }

  lemma NoGroup(x: string, y: string)
    requires y == "" || y[0] != '-'
    ensures PreEnd(x + y, |x|) == |x|
  {
    assert y != "" ==> (x + y)[|x|] == y[0];
  }

  /** Where the pattern stops behind the core. */
  lemma RestTaken(t: Tag, x: string)
    ensures PreEnd(x + Rest(t), |x|) == |x| + |Seen(t)| && Seen(t) <= Rest(t)
  {
    if t.pre == [] {
      NoGroup(x, Rest(t));
    } else {
      PreTaken(t, x);
    }
  }

  lemma PreTaken(t: Tag, x: string)
    requires t.pre != []
    ensures PreEnd(x + Rest(t), |x|) == |x| + |Seen(t)| && Seen(t) <= Rest(t)
  {
    var j := Join(t.pre);
    var k := RunEnd(j, 0, PreChar);
    var y := j[k..] + Build(t);
    assert y != "" ==> y[0] == (if k < |j| then j[k] else '+');
    GroupTaken(x, j[..k], y);
    RestCut(t, x, j[..k], y);
  }

  lemma RestCut(t: Tag, x: string, taken: string, y: string)
    requires t.pre != [] && Join(t.pre) + Build(t) == taken + y
    ensures x + "-" + taken + y == x + Rest(t) && "-" + taken <= Rest(t)
  {
    assert Rest(t) == "-" + (Join(t.pre) + Build(t));
  }

  lemma FoundAtStart(s: string, v: bool, e: nat)
    requires s != "" && (v <==> s[0] == 'v') && MatchAt(s, if v then 1 else 0) == Some(e)
    ensures NormVer(s) == s[if v then 1 else 0..e]
  {
  }

  lemma SliceOfThree(x: string, core: string, rest: string, seen: string)
    requires seen <= rest
    ensures (x + (core + rest))[|x|..|x| + |core| + |seen|] == core + seen
  {
  }

  lemma MatchOfWritten(t: Tag)
    requires WellFormed(t)
    ensures MatchAt(Written(t), |Mark(t)|) == Some(|Mark(t)| + |Core(t)| + |Seen(t)|)
    ensures Seen(t) <= Rest(t)
  {
    CoreMatches(t, Mark(t));
    RestTakenAt(t, Written(t), Mark(t), Core(t));
  }

  lemma RestTakenAt(t: Tag, s: string, x: string, core: string)
    requires s == x + (core + Rest(t))
    ensures PreEnd(s, |x| + |core|) == |x| + |core| + |Seen(t)| && Seen(t) <= Rest(t)
  {
    assert s == (x + core) + Rest(t);
    RestTaken(t, x + core);
  }

  lemma StartOfWritten(t: Tag)
    requires WellFormed(t)
    ensures Written(t) != "" && (t.v <==> Written(t)[0] == 'v')
  {
    assert Core(t)[0] == t.major[0];
    assert Written(t)[0] == if t.v then 'v' else t.major[0];
  }

  lemma FoundText(t: Tag)
    requires WellFormed(t)
    ensures NormVer(Written(t)) == Core(t) + Seen(t)
  {
    MatchOfWritten(t);
    StartOfWritten(t);
    FoundAtStart(Written(t), t.v, |Mark(t)| + |Core(t)| + |Seen(t)|);
    SliceOfThree(Mark(t), Core(t), Rest(t), Seen(t));
  }

  // ----- what is read ---------------------------------------------------------------------

  lemma CoreSplits(t: Tag)
    requires WellFormed(t)
    ensures Split(Core(t), '.') == [t.major, t.minor, t.patch] && Without(Core(t), '-')
  {
    var parts := [t.major, t.minor, t.patch];
    assert parts[1..] == [t.minor, t.patch] && parts[1..][1..] == [t.patch];
    assert Join(parts[1..]) == t.minor + "." + t.patch;
    assert Join(parts) == Core(t);
    SplitJoin(parts);
  }

  lemma SeenSplits(t: Tag)
    requires WellFormed(t)
    ensures SplitPre(Core(t) + Seen(t)) == (Core(t), if Seen(t) == "" then "" else Taken(t.pre))
  {
    var v := Core(t) + Seen(t);
    CoreSplits(t);
    IndexOfAt(v, '-', |Core(t)|);
    assert v[..|Core(t)|] == Core(t);
    if Seen(t) == "" {
      assert v == Core(t);
    } else {
      assert v[|Core(t)| + 1..] == Taken(t.pre);
    }
  }

  /** A well-formed tag is read as its three numbers, cut to the integer range, and
      the identifiers of its pre-release up to the first hyphen. */
  lemma WrittenIsRead(t: Tag)
    requires WellFormed(t)
    ensures Read(Written(t)) == Some(Version(Numbers([t.major, t.minor, t.patch]),
                                             if Seen(t) == "" then [] else Idents(Split(Taken(t.pre), '.'))))
  {
    FoundText(t);
    CoreSplits(t);
    SeenSplits(t);
  }

  predicate Fits(s: string) {
    Number(s) ==> Value(s) <= MAX_INT
  }

  predicate PlainIdent(s: string) {
    Without(s, '-') && Fits(s)
  }

  /** No number beyond the integer range and no hyphen inside the pre-release. */
  predicate Plain(t: Tag) {
    && Fits(t.major) && Fits(t.minor) && Fits(t.patch)
    && forall i :: 0 <= i < |t.pre| ==> PlainIdent(t.pre[i])
  }

  lemma {:induction false} JoinTaken(pre: seq<string>)
    requires pre != [] && forall i :: 0 <= i < |pre| ==> pre[i] != "" && All(pre[i], IdentChar)
    ensures All(Join(pre), PreChar) <==> forall i :: 0 <= i < |pre| ==> Without(pre[i], '-')
    decreases |pre|
  {
    var s := Join(pre);
    assert All(pre[0], IdentChar);
    if |pre| == 1 {
      assert Without(pre[0], '-') <==> All(pre[0], PreChar) by { HyphenOnly(pre[0]); }
    } else {
      JoinTaken(pre[1..]);
      HyphenOnly(pre[0]);
      AllOfThree(pre[0], Join(pre[1..]));
      assert (forall i :: 0 <= i < |pre| ==> Without(pre[i], '-')) <==>
             Without(pre[0], '-') && forall i :: 0 <= i < |pre[1..]| ==> Without(pre[1..][i], '-') by {
        assert forall i :: 1 <= i < |pre| ==> pre[i] == pre[1..][i - 1];
      }
    }
  }

  lemma HyphenOnly(s: string)
    requires All(s, IdentChar)
    ensures All(s, PreChar) <==> Without(s, '-')
  {
    if Without(s, '-') {
      forall i | 0 <= i < |s| ensures PreChar(s[i]) { assert IdentChar(s[i]); }
    } else {
      var i :| 0 <= i < |s| && s[i] == '-';
      assert !PreChar(s[i]);
    }
  }

  lemma AllOfThree(a: string, b: string)
    ensures All(a + "." + b, PreChar) <==> All(a, PreChar) && All(b, PreChar)
  {
    var s := a + "." + b;
    assert forall i :: 0 <= i < |a| ==> s[i] == a[i];
    assert forall i :: 0 <= i < |b| ==> s[|a| + 1 + i] == b[i];
    if All(s, PreChar) {
      forall i | 0 <= i < |b| ensures PreChar(b[i]) { assert PreChar(s[|a| + 1 + i]); }
    }
  }

  lemma {:induction false} SplitKeeps(s: string)
    requires All(s, PreChar)
    ensures forall i :: 0 <= i < |Split(s, '.')| ==> Without(Split(s, '.')[i], '-')
    decreases |s|
  {
    var i := IndexOf(s, '.');
    if i < |s| { SplitKeeps(s[i + 1..]); }
  }

  lemma CoreReadsRight(t: Tag)
    requires WellFormed(t)
    ensures Numbers([t.major, t.minor, t.patch]) == Meaning(t).core <==> Fits(t.major) && Fits(t.minor) && Fits(t.patch)
  {
    var ns := Numbers([t.major, t.minor, t.patch]);
    AtoiOfNumber(t.major);
    AtoiOfNumber(t.minor);
    AtoiOfNumber(t.patch);
    assert ns[0] == Atoi(t.major).0 && ns[1] == Atoi(t.minor).0 && ns[2] == Atoi(t.patch).0;
    if Fits(t.major) && Fits(t.minor) && Fits(t.patch) {
      assert ns == [Value(t.major), Value(t.minor), Value(t.patch)];
    }
  }

  lemma AtoiOfNumber(s: string)
    requires Number(s)
    ensures Atoi(s) == if Value(s) <= MAX_INT then (Value(s), true) else (MAX_INT, false)
  {
    assert Digit(s[0]);
  }

  lemma IdentReadsRight(s: string)
    requires s != "" && All(s, IdentChar) && Without(s, '-')
    ensures ReadIdent(s) == MeantIdent(s) <==> Fits(s)
  {
    assert IdentChar(s[0]);
    if Number(s) { AtoiOfNumber(s); }
  }

  /** The pre-release is read as the standard means it exactly when none of its
      identifiers holds a hyphen or a number beyond the range. */
  lemma PreReadsRight(t: Tag)
    requires WellFormed(t)
    ensures (if Seen(t) == "" then [] else Idents(Split(Taken(t.pre), '.'))) == Meaning(t).pre <==>
            forall i :: 0 <= i < |t.pre| ==> PlainIdent(t.pre[i])
  {
    if t.pre != [] {
      JoinTaken(t.pre);
      if All(Join(t.pre), PreChar) {
        WholePreReads(t);
      } else {
        CutPreReads(t);
      }
    }
  }

  lemma WholePreReads(t: Tag)
    requires WellFormed(t) && t.pre != [] && All(Join(t.pre), PreChar)
    requires forall i :: 0 <= i < |t.pre| ==> Without(t.pre[i], '-')
    ensures Seen(t) != ""
    ensures Idents(Split(Taken(t.pre), '.')) == Meaning(t).pre <==>
            forall i :: 0 <= i < |t.pre| ==> PlainIdent(t.pre[i])
  {
    var j := Join(t.pre);
    assert j[0..|j|] == j;
    RunEndAt(j, 0, |j|, PreChar);
    assert t.pre[0] != "" && t.pre[0] <= j;
    forall i | 0 <= i < |t.pre| ensures Without(t.pre[i], '.') { assert All(t.pre[i], IdentChar); }
    SplitJoin(t.pre);
    forall i | 0 <= i < |t.pre| ensures Idents(t.pre)[i] == Meaning(t).pre[i] <==> PlainIdent(t.pre[i]) {
      IdentReadsRight(t.pre[i]);
    }
  }

  lemma CutPreReads(t: Tag)
    requires WellFormed(t) && t.pre != []
    requires exists i :: 0 <= i < |t.pre| && !Without(t.pre[i], '-')
    ensures (if Seen(t) == "" then [] else Idents(Split(Taken(t.pre), '.'))) != Meaning(t).pre
  {
    var p :| 0 <= p < |t.pre| && !Without(t.pre[p], '-');
    assert Meaning(t).pre[p] == Alpha(t.pre[p]);
    if Seen(t) != "" {
      var parts := Split(Taken(t.pre), '.');
      SplitKeeps(Taken(t.pre));
      if p < |parts| { assert Idents(parts)[p] == ReadIdent(parts[p]); }
    }
  }

  /** Main result: a well-formed tag is read as the standard means it exactly when
      it is plain; a "v" in front and build metadata make no difference. */
  lemma ReadsAsStandard(t: Tag)
    requires WellFormed(t)
    ensures Read(Written(t)) == Some(Meaning(t)) <==> Plain(t)
  {
    WrittenIsRead(t);
    CoreReadsRight(t);
    PreReadsRight(t);
  }

  /** And then tags are ordered by the standard's precedence. */
  lemma OrderIsPrecedence(x: Tag, y: Tag)
    requires WellFormed(x) && WellFormed(y) && Plain(x) && Plain(y)
    ensures TagOrder(Written(x), Written(y)) < 0 <==> Below(Meaning(x), Meaning(y))
    ensures TagOrder(Written(x), Written(y)) > 0 <==> Below(Meaning(y), Meaning(x))
    ensures TagOrder(Written(x), Written(y)) == 0 <==> Meaning(x) == Meaning(y)
  {
    ReadsAsStandard(x);
    ReadsAsStandard(y);
    VersionOrderIsPrecedence(Meaning(x), Meaning(y));
    VersionOrderIsPrecedence(Meaning(y), Meaning(x));
    TagOrderBasics(Written(x), Written(y));
  }

  /** What lies behind the first hyphen of a pre-release is not compared, although the
      standard orders the tags whenever they mean different versions. */
  lemma HyphenTies(x: Tag, y: Tag)
    requires WellFormed(x) && WellFormed(y) && x.pre != [] && y.pre != []
    requires x.major == y.major && x.minor == y.minor && x.patch == y.patch && Taken(x.pre) == Taken(y.pre)
    ensures TagOrder(Written(x), Written(y)) == 0
    ensures Meaning(x) != Meaning(y) ==> Below(Meaning(x), Meaning(y)) || Below(Meaning(y), Meaning(x))
  {
    WrittenIsRead(x);
    WrittenIsRead(y);
    TagOrderBasics(Written(x), Written(x));
    if Meaning(x) != Meaning(y) { OneIsBelow(Meaning(x), Meaning(y)); }
  }

  lemma OneIsBelow(a: Version, b: Version)
    requires |a.core| == |b.core| == 3 && a != b
    ensures Below(a, b) || Below(b, a)
  {
    VersionOrderIsPrecedence(a, b);
    VersionOrderIsPrecedence(b, a);
    ReadOrderBasics(Some(a), Some(b));
  }

  /** Numbers beyond the integer range are all the same. */
  lemma OverflowTies(x: Tag, y: Tag)
    requires WellFormed(x) && WellFormed(y) && x.minor == y.minor && x.patch == y.patch && x.pre == y.pre
    requires !Fits(x.major) && !Fits(y.major)
    ensures TagOrder(Written(x), Written(y)) == 0
    ensures Value(x.major) < Value(y.major) ==> Below(Meaning(x), Meaning(y))
  {
    OverflowReads(x, y);
    TagOrderBasics(Written(x), Written(x));
    if Value(x.major) < Value(y.major) {
      assert Meaning(x).core[..0] == Meaning(y).core[..0];
    }
  }

  lemma OverflowReads(x: Tag, y: Tag)
    requires WellFormed(x) && WellFormed(y) && x.minor == y.minor && x.patch == y.patch && x.pre == y.pre
    requires !Fits(x.major) && !Fits(y.major)
    ensures Read(Written(x)) == Read(Written(y))
  {
    WrittenIsRead(x);
    WrittenIsRead(y);
    NumbersCut(x.major, y.major, x.minor, x.patch);
  }

  lemma NumbersCut(a: string, b: string, minor: string, patch: string)
    requires Number(a) && Number(b) && !Fits(a) && !Fits(b)
    ensures Numbers([a, minor, patch]) == Numbers([b, minor, patch])
  {
    AtoiOfNumber(a);
    AtoiOfNumber(b);
  }
}

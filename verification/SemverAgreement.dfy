/**
 Which well-formed tags compare with every plain tag as the standard says.  Not only
 the plain ones: a cut at a hyphen does no harm where no plain identifier can tell the
 rest from the whole.
*/
module SemverAgreement {
  import opened Wrappers
  import opened VersionText
  import opened Semver
  import opened SemverStandard

  predicate SaysStandard(x: Tag, y: Tag)
    requires WellFormed(x) && WellFormed(y)
  {
    && (TagOrder(Written(x), Written(y)) < 0 <==> Below(Meaning(x), Meaning(y)))
    && (TagOrder(Written(x), Written(y)) > 0 <==> Below(Meaning(y), Meaning(x)))
  }

  ghost predicate Agrees(x: Tag)
    requires WellFormed(x)
  {
    forall y :: WellFormed(y) && Plain(y) ==> SaysStandard(x, y)
  }

  /** The first identifier that is not plain. */
  function Odd(pre: seq<string>): (p: nat)
    ensures p <= |pre| && (p < |pre| ==> !PlainIdent(pre[p]))
    ensures forall i :: 0 <= i < p ==> PlainIdent(pre[i])
  {
    if pre == [] || !PlainIdent(pre[0]) then 0 else 1 + Odd(pre[1..])
  }

  /** What is taken of an identifier. */
  function Head(s: string): string {
    s[..IndexOf(s, '-')]
  }

  /** A hyphen follows what no plain identifier equals: nothing, behind other
      identifiers, or a number beyond the range. */
  predicate Harmless(s: string, p: nat) {
    !Without(s, '-') && (if Head(s) == "" then p > 0 else Number(Head(s)) && !Fits(Head(s)))
  }

  predicate Fair(t: Tag) {
    && Fits(t.major) && Fits(t.minor) && Fits(t.patch)
    && (Odd(t.pre) < |t.pre| ==> Harmless(t.pre[Odd(t.pre)], Odd(t.pre)))
  }

  // ----- the orders compared ------------------------------------------------------------

  /** What is read, `r`, stands to the plain `y` as what `x` means does. */
  predicate Like(r: Version, x: Tag, y: Tag)
    requires WellFormed(x) && WellFormed(y)
  {
    VersionOrder(r, Meaning(y)) == VersionOrder(Meaning(x), Meaning(y))
  }

  lemma SaysByOrder(x: Tag, y: Tag, r: Version)
    requires WellFormed(x) && WellFormed(y) && Plain(y) && Read(Written(x)) == Some(r) && |r.core| == 3
    ensures SaysStandard(x, y) <==> Like(r, x, y)
  {
    ReadsAsStandard(y);
    var m, n := Meaning(x), Meaning(y);
    VersionOrderIsPrecedence(m, n);
    VersionOrderIsPrecedence(n, m);
    ReadOrderBasics(Some(r), Some(n));
    ReadOrderBasics(Some(m), Some(n));
  }

  // ----- what is read of a tag with an odd identifier ---------------------------------------

  lemma {:induction false} JoinCut(pre: seq<string>, h: nat)
    requires h < |pre| && !Without(pre[h], '-')
    ensures Join(pre[..h] + [Head(pre[h])]) + "-" <= Join(pre)
    decreases h
  {
    var s := pre[h];
    var c := Head(s);
    assert s[IndexOf(s, '-')..][0] == '-' && c + "-" <= s;
    var cut := pre[..h] + [c];
    if h == 0 {
      assert cut == [c];
      assert s <= Join(pre);
    } else {
      JoinCut(pre[1..], h - 1);
      assert cut[1..] == pre[1..][..h - 1] + [c] && cut[0] == pre[0];
      Prefixed(pre[0] + ".", Join(cut[1..]) + "-", Join(pre[1..]));
      assert Join(cut) + "-" == pre[0] + "." + (Join(cut[1..]) + "-");
    }
  }

  lemma Prefixed(x: string, a: string, b: string)
    requires a <= b
    ensures x + a <= x + b
  {
  }

  /** The pattern takes the identifiers before the first hyphen, and the text of that
      one up to it. */
  lemma HyphenTaken(pre: seq<string>, h: nat)
    requires h < |pre| && !Without(pre[h], '-') && forall i :: 0 <= i < h ==> Without(pre[i], '-')
    requires forall i :: 0 <= i < |pre| ==> pre[i] != "" && All(pre[i], IdentChar)
    ensures Taken(pre) == Join(pre[..h] + [Head(pre[h])])
    ensures Split(Taken(pre), '.') == pre[..h] + [Head(pre[h])]
  {
    var cut := pre[..h] + [Head(pre[h])];
    var j := Join(cut);
    JoinCut(pre, h);
    forall i | 0 <= i < |cut| ensures Without(cut[i], '.') && All(cut[i], PreChar) {
      PieceOk(pre, h, i);
    }
    JoinPreChars(cut);
    assert Join(pre)[0..|j|] == j && Join(pre)[|j|] == '-';
    RunEndAt(Join(pre), 0, |j|, PreChar);
    SplitJoin(cut);
  }

  lemma PieceOk(pre: seq<string>, h: nat, i: nat)
    requires h < |pre| && i <= h && !Without(pre[h], '-') && forall k :: 0 <= k < h ==> Without(pre[k], '-')
    requires forall k :: 0 <= k < |pre| ==> pre[k] != "" && All(pre[k], IdentChar)
    ensures var cut := pre[..h] + [Head(pre[h])]; Without(cut[i], '.') && All(cut[i], PreChar)
  {
    assert All(pre[i], IdentChar);
    if i < h { HyphenOnly(pre[i]); }
  }

  lemma {:induction false} JoinPreChars(parts: seq<string>)
    requires parts != [] && forall i :: 0 <= i < |parts| ==> All(parts[i], PreChar)
    ensures All(Join(parts), PreChar)
    decreases |parts|
  {
    assert All(parts[0], PreChar);
    if |parts| > 1 {
      JoinPreChars(parts[1..]);
      AllOfThree(parts[0], Join(parts[1..]));
    }
  }

  function ReadPre(t: Tag): seq<Ident> {
    if Seen(t) == "" then [] else Idents(Split(Taken(t.pre), '.'))
  }

  /** The first identifier with a hyphen. */
  function FirstHyphen(pre: seq<string>): (h: nat)
    ensures h <= |pre| && (h < |pre| ==> !Without(pre[h], '-'))
    ensures forall i :: 0 <= i < h ==> Without(pre[i], '-')
  {
    if pre == [] || !Without(pre[0], '-') then 0 else 1 + FirstHyphen(pre[1..])
  }

  lemma JoinOfOneEmpty(parts: seq<string>)
    requires parts != [] && Join(parts) == ""
    ensures parts == [""]
  {
  }

  lemma HyphenRead(t: Tag, h: nat)
    requires WellFormed(t) && h == FirstHyphen(t.pre) < |t.pre|
    ensures ReadPre(t) == if h == 0 && Head(t.pre[0]) == "" then [] else Idents(t.pre[..h] + [Head(t.pre[h])])
  {
    var cut := t.pre[..h] + [Head(t.pre[h])];
    HyphenTaken(t.pre, h);
    if Taken(t.pre) == "" {
      JoinOfOneEmpty(cut);
      assert |cut| == h + 1 && cut[h] == Head(t.pre[h]);
    } else if h == 0 {
      assert cut == [Head(t.pre[0])];
      assert Taken(t.pre) == Head(t.pre[0]);
    }
  }

  lemma WholeRead(t: Tag)
    requires WellFormed(t) && FirstHyphen(t.pre) == |t.pre|
    ensures ReadPre(t) == Idents(t.pre)
  {
    if t.pre != [] {
      JoinTaken(t.pre);
      WholePreReads(t);
      var j := Join(t.pre);
      assert j[0..|j|] == j;
      RunEndAt(j, 0, |j|, PreChar);
      forall i | 0 <= i < |t.pre| ensures Without(t.pre[i], '.') { assert All(t.pre[i], IdentChar); }
      SplitJoin(t.pre);
    }
  }

  /** Up to the first odd identifier what is read is what is meant. */
  lemma PlainPrefix(t: Tag, p: nat)
    requires WellFormed(t) && p <= Odd(t.pre)
    ensures Idents(t.pre[..p]) == Meaning(t).pre[..p]
  {
    forall i | 0 <= i < p ensures Idents(t.pre[..p])[i] == Meaning(t).pre[i] {
      assert PlainIdent(t.pre[i]) && All(t.pre[i], IdentChar);
      IdentReadsRight(t.pre[i]);
    }
  }

  lemma OddBeforeHyphen(pre: seq<string>)
    ensures Odd(pre) <= FirstHyphen(pre)
  {
    var h := FirstHyphen(pre);
    assert h < |pre| ==> !PlainIdent(pre[h]);
  }

  lemma IdentsOf(a: seq<string>, b: seq<string>)
    ensures Idents(a + b) == Idents(a) + Idents(b)
  {
  }

  /** An odd number is read as text. */
  lemma OddNumberRead(t: Tag)
    requires WellFormed(t) && Odd(t.pre) < |t.pre| && Without(t.pre[Odd(t.pre)], '-')
    ensures var p := Odd(t.pre);
            && p < |ReadPre(t)| && ReadPre(t)[..p] == Meaning(t).pre[..p]
            && ReadPre(t)[p] == Alpha(t.pre[p])
            && Number(t.pre[p]) && !Fits(t.pre[p])
  {
    var p := Odd(t.pre);
    PlainPrefix(t, p);
    AtoiOfNumber(t.pre[p]);
    ReadThrough(t, p);
  }

  lemma ReadThrough(t: Tag, p: nat)
    requires WellFormed(t) && p == Odd(t.pre) < |t.pre| && Without(t.pre[p], '-')
    ensures p < |ReadPre(t)| && ReadPre(t)[..p] == Idents(t.pre[..p]) && ReadPre(t)[p] == ReadIdent(t.pre[p])
  {
    OddBeforeHyphen(t.pre);
    if FirstHyphen(t.pre) == |t.pre| {
      WholeRead(t);
      IdentsBehind(t.pre, p);
    } else {
      ReadThroughCut(t, p, FirstHyphen(t.pre));
    }
  }

  lemma ReadThroughCut(t: Tag, p: nat, h: nat)
    requires WellFormed(t) && p < h && h == FirstHyphen(t.pre) < |t.pre|
    ensures p < |ReadPre(t)| && ReadPre(t)[..p] == Idents(t.pre[..p]) && ReadPre(t)[p] == ReadIdent(t.pre[p])
  {
    HyphenRead(t, h);
    CutBehind(t.pre, p, h);
  }

  lemma IdentsBehind(pre: seq<string>, p: nat)
    requires p < |pre|
    ensures Idents(pre)[..p] == Idents(pre[..p]) && Idents(pre)[p] == ReadIdent(pre[p])
  {
  }

  lemma CutBehind(pre: seq<string>, p: nat, h: nat)
    requires p < h < |pre|
    ensures var cut := pre[..h] + [Head(pre[h])];
            Idents(cut)[..p] == Idents(pre[..p]) && Idents(cut)[p] == ReadIdent(pre[p])
  {
  }

  /** A cut at a hyphen leaves the text before it, or no pre-release at all. */
  lemma OddHyphenRead(t: Tag)
    requires WellFormed(t) && Odd(t.pre) < |t.pre| && !Without(t.pre[Odd(t.pre)], '-')
    ensures var p := Odd(t.pre);
            var c := Head(t.pre[p]);
            ReadPre(t) == if p == 0 && c == "" then [] else Meaning(t).pre[..p] + [ReadIdent(c)]
  {
    var p := Odd(t.pre);
    OddBeforeHyphen(t.pre);
    assert FirstHyphen(t.pre) == p;
    HyphenRead(t, p);
    PlainPrefix(t, p);
    IdentsOf(t.pre[..p], [Head(t.pre[p])]);
    assert Idents([Head(t.pre[p])]) == [ReadIdent(Head(t.pre[p]))];
  }

  // ----- where identifiers are told apart ---------------------------------------------------

  /** A plain text cannot tell digits from the same digits and a hyphen behind them. */
  lemma {:induction false} CutTies(c: string, rest: string, z: string)
    requires All(c, Digit) && z != "" && All(z, IdentChar) && Without(z, '-') && (c != "" ==> !All(z, Digit))
    ensures TextOrder(c, z) == TextOrder(c + ("-" + rest), z) != 0
    decreases |c|
  {
    assert IdentChar(z[0]);
    var s := c + ("-" + rest);
    if c == "" {
      assert s[0] == '-';
    } else {
      assert Digit(c[0]) && s[0] == c[0];
      if c[0] == z[0] {
        assert z == [z[0]] + z[1..];
        forall i | 0 <= i < |z[1..]| ensures IdentChar(z[1..][i]) && z[1..][i] != '-' { assert IdentChar(z[i + 1]); }
        forall i | 0 <= i < |c[1..]| ensures Digit(c[1..][i]) { assert Digit(c[i + 1]); }
        NonDigitLater(z);
        assert s[1..] == c[1..] + ("-" + rest);
        CutTies(c[1..], rest, z[1..]);
      }
    }
  }

  lemma NonDigitLater(z: string)
    requires z != "" && Digit(z[0]) && !All(z, Digit)
    ensures z[1..] != "" && !All(z[1..], Digit)
  {
    var i :| 0 <= i < |z| && !Digit(z[i]);
    assert z[1..][i - 1] == z[i];
  }

  /** The first place of a number that is not a zero. */
  function Lead(s: string): (k: nat)
    ensures k <= |s| && (k < |s| ==> s[k] != '0')
    ensures forall i :: 0 <= i < k ==> s[i] == '0'
  {
    if s == "" || s[0] != '0' then 0 else 1 + Lead(s[1..])
  }

  lemma {:induction false} ZerosAreZero(s: string)
    requires forall i :: 0 <= i < |s| ==> s[i] == '0'
    ensures All(s, Digit) && Value(s) == 0
  {
    if s != "" { ZerosAreZero(s[..|s| - 1]); }
  }

  /** A plain text below a number that is not zero. */
  function Lower(s: string): string {
    s[..Lead(s)] + "0a"
  }

  lemma LowerIsPlain(s: string)
    requires Number(s) && !Fits(s)
    ensures Lower(s) != "" && All(Lower(s), IdentChar) && PlainIdent(Lower(s)) && !Number(Lower(s))
    ensures TextOrder(s, Lower(s)) == 1
  {
    var z := Lower(s);
    assert z[|z| - 1] == 'a';
    assert !Digit(z[|z| - 1]);
    LowerIsBelow(s);
  }

  lemma LowerIsBelow(s: string)
    requires Number(s) && Value(s) > 0
    ensures TextOrder(s, Lower(s)) == 1
  {
    if Lead(s) == |s| { ZerosAreZero(s); }
    assert s == s[..Lead(s)] + s[Lead(s)..];
    assert Digit(s[Lead(s)]);
    TextOrderBehind(s[..Lead(s)], s[Lead(s)..], "0a");
  }

  lemma {:induction false} TextOrderBehind(x: string, a: string, b: string)
    ensures TextOrder(x + a, x + b) == TextOrder(a, b)
    decreases |x|
  {
    if x == "" {
      assert x + a == a && x + b == b;
    } else {
      TextOrderBehind(x[1..], a, b);
      assert (x + a)[1..] == x[1..] + a && (x + b)[1..] == x[1..] + b;
    }
  }

  lemma IdentOrderRefl(a: Ident)
    ensures IdentOrder(a, a) == 0
  {
    if a.Alpha? { TextOrderRefl(a.text); }
  }

  /** Lists that agree before position `p` are told apart there. */
  lemma {:induction false} DecidedAt(a: seq<Ident>, b: seq<Ident>, i: nat, p: nat)
    requires i <= p < |a| && p < |b| && a[..p] == b[..p] && IdentOrder(a[p], b[p]) != 0
    ensures PreOrderFrom(a, b, i) == IdentOrder(a[p], b[p])
    decreases p - i
  {
    if i < p {
      assert a[i] == a[..p][i] == b[..p][i];
      IdentOrderRefl(a[i]);
      DecidedAt(a, b, i + 1, p);
    }
  }

  /** Two lists that agree before `p`, and of which a third tells neither apart from the
      other there, compare with it alike. */
  lemma {:induction false} AlikeAgainst(a: seq<Ident>, b: seq<Ident>, z: seq<Ident>, i: nat, p: nat)
    requires i <= p < |a| && p < |b| && a[..p] == b[..p]
    requires p < |z| ==> IdentOrder(a[p], z[p]) == IdentOrder(b[p], z[p]) != 0
    ensures PreOrderFrom(a, z, i) == PreOrderFrom(b, z, i)
    decreases p - i
  {
    if i < p {
      assert a[i] == a[..p][i] == b[..p][i];
      AlikeAgainst(a, b, z, i + 1, p);
    }
  }

  // ----- numbers as text ----------------------------------------------------------------------

  function Digits(n: nat): (s: string)
    ensures Number(s) && Value(s) == n
  {
    var last := (48 + n % 10) as char;
    if n < 10 then
      assert Value("") == 0 && [last][..0] == "";
      [last]
    else
      var init := Digits(n / 10);
      var s := init + [last];
      assert s[..|s| - 1] == init;
      s
  }

  /** The text of the end of the range. */
  predicate Top(top: string) {
    Number(top) && Value(top) == MAX_INT
  }

  lemma TopExists() returns (top: string)
    ensures Top(top)
  {
    var m: nat :| m == MAX_INT;
    top := Digits(m);
  }

  /** The number itself, or the end of the range. */
  function Clipped(s: string, top: string): string {
    if Fits(s) then s else top
  }

  lemma ClippedReads(s: string, top: string)
    requires Number(s) && Top(top)
    ensures Number(Clipped(s, top)) && Fits(Clipped(s, top)) && Value(Clipped(s, top)) == Atoi(s).0
  {
    AtoiOfNumber(s);
  }

  /** A plain tag with the core that is read of `x`. */
  function Beside(x: Tag, top: string, pre: seq<string>): Tag {
    Tag(false, Clipped(x.major, top), Clipped(x.minor, top), Clipped(x.patch, top), pre, None)
  }

  predicate PlainPre(pre: seq<string>) {
    forall i :: 0 <= i < |pre| ==> pre[i] != "" && All(pre[i], IdentChar) && PlainIdent(pre[i])
  }

  lemma BesideIsPlain(x: Tag, top: string, pre: seq<string>)
    requires WellFormed(x) && Top(top) && PlainPre(pre)
    ensures WellFormed(Beside(x, top, pre)) && Plain(Beside(x, top, pre))
    ensures Meaning(Beside(x, top, pre)).core == Numbers([x.major, x.minor, x.patch])
  {
    ClippedReads(x.major, top);
    ClippedReads(x.minor, top);
    ClippedReads(x.patch, top);
  }

  // ----- the exact condition ----------------------------------------------------------------------

  /** What is read of any well-formed tag. */
  lemma ReadIs(x: Tag)
    requires WellFormed(x)
    ensures Read(Written(x)) == Some(Version(Numbers([x.major, x.minor, x.patch]), ReadPre(x)))
  {
    WrittenIsRead(x);
  }

  /** A number of the core beyond the range: the tag of the end of the range is not
      above it. */
  lemma CoreTellsApart(x: Tag, r: Version) returns (y: Tag)
    requires WellFormed(x) && !(Fits(x.major) && Fits(x.minor) && Fits(x.patch))
    requires r.core == Numbers([x.major, x.minor, x.patch])
    ensures WellFormed(y) && Plain(y) && !Like(r, x, y)
  {
    var top := TopExists();
    y := Beside(x, top, []);
    BesideIsPlain(x, top, []);
    CoreAbove(x);
    CoreDecides(r, Meaning(x), Meaning(y));
  }

  lemma CoreDecides(r: Version, m: Version, n: Version)
    requires r.core == n.core && n.pre == [] && CoreOrder(m.core, n.core) == 1
    ensures VersionOrder(r, n) <= 0 < VersionOrder(m, n)
  {
    CoreOrderRefl(r.core, 0);
  }

  lemma {:induction false} CoreOrderRefl(a: seq<int>, i: nat)
    ensures CoreOrderFrom(a, a, i) == 0
    decreases |a| - i
  {
    if i < |a| { CoreOrderRefl(a, i + 1); }
  }

  lemma CoreAbove(x: Tag)
    requires WellFormed(x) && !(Fits(x.major) && Fits(x.minor) && Fits(x.patch))
    ensures CoreOrder(Meaning(x).core, Numbers([x.major, x.minor, x.patch])) == 1
  {
    AtoiOfNumber(x.major);
    AtoiOfNumber(x.minor);
    AtoiOfNumber(x.patch);
    var a, b := Meaning(x).core, Numbers([x.major, x.minor, x.patch]);
    assert b[0] == Atoi(x.major).0 && b[1] == Atoi(x.minor).0 && b[2] == Atoi(x.patch).0;
    assert CoreOrderFrom(a, b, 2) == IntOrder(a[2], b[2]);
    assert CoreOrderFrom(a, b, 1) == if a[1] != b[1] then IntOrder(a[1], b[1]) else IntOrder(a[2], b[2]);
  }

  lemma CoreFits(x: Tag)
    requires WellFormed(x) && Fits(x.major) && Fits(x.minor) && Fits(x.patch)
    ensures Numbers([x.major, x.minor, x.patch]) == Meaning(x).core && CoreOrder(Meaning(x).core, Meaning(x).core) == 0
  {
    CoreReadsRight(x);
    CoreOrderRefl(Meaning(x).core, 0);
  }

  /** An identifier that is a number beyond the range: a plain text below it lies on the
      other side. */
  lemma NumberTellsApart(x: Tag, r: Version, p: nat) returns (y: Tag)
    requires WellFormed(x) && Fits(x.major) && Fits(x.minor) && Fits(x.patch) && r.core == Meaning(x).core
    requires p == Odd(x.pre) < |x.pre| && Number(x.pre[p]) && !Fits(x.pre[p])
    requires p < |r.pre| && r.pre[..p] == Meaning(x).pre[..p] && r.pre[p] == Alpha(x.pre[p])
    ensures WellFormed(y) && Plain(y) && !Like(r, x, y)
  {
    var top := TopExists();
    LowerIsPlain(x.pre[p]);
    PlainPreAnd(x.pre, p, Lower(x.pre[p]));
    var pre := x.pre[..p] + [Lower(x.pre[p])];
    y := Beside(x, top, pre);
    BesideIsPlain(x, top, pre);
    CoreFits(x);
    MeantAfter(x, y, p, Lower(x.pre[p]));
    NumberDecides(r, Meaning(x), Meaning(y), p);
  }

  lemma NumberDecides(r: Version, m: Version, n: Version, p: nat)
    requires r.core == m.core == n.core && CoreOrder(m.core, m.core) == 0
    requires p < |r.pre| && p < |m.pre| && p < |n.pre| && r.pre[..p] == m.pre[..p] == n.pre[..p]
    requires IdentOrder(r.pre[p], n.pre[p]) == 1 && m.pre[p].Num? && n.pre[p].Alpha?
    ensures VersionOrder(r, n) == 1 && VersionOrder(m, n) == -1
  {
    DecidedAt(r.pre, n.pre, 0, p);
    DecidedAt(m.pre, n.pre, 0, p);
  }

  /** A hyphen behind something that a plain identifier can be: the cut ties with it. */
  lemma CutTellsApart(x: Tag, r: Version, p: nat) returns (y: Tag)
    requires WellFormed(x) && Fits(x.major) && Fits(x.minor) && Fits(x.patch) && r.core == Meaning(x).core
    requires p == Odd(x.pre) < |x.pre| && !Without(x.pre[p], '-') && !Harmless(x.pre[p], p)
    requires r.pre == CutPre(x, p)
    ensures WellFormed(y) && Plain(y) && !Like(r, x, y)
  {
    var top := TopExists();
    var c := Head(x.pre[p]);
    var pre := if c == "" then [] else x.pre[..p] + [c];
    HeadIsPlain(x.pre, p);
    y := Beside(x, top, pre);
    BesideIsPlain(x, top, pre);
    CoreFits(x);
    CutIsMeant(x, y, p, c);
    TieTellsApart(r, Meaning(x), Meaning(y));
  }

  /** What is left of a pre-release that is cut in identifier `p`. */
  function CutPre(x: Tag, p: nat): seq<Ident>
    requires WellFormed(x) && p < |x.pre|
  {
    if p == 0 && Head(x.pre[p]) == "" then [] else Meaning(x).pre[..p] + [ReadIdent(Head(x.pre[p]))]
  }

  lemma TieTellsApart(r: Version, m: Version, n: Version)
    requires r == n != m && |m.core| == |n.core| == 3
    ensures VersionOrder(r, n) != VersionOrder(m, n)
  {
    VersionOrderIsPrecedence(r, n);
    VersionOrderIsPrecedence(m, n);
  }

  lemma HeadIsPlain(pre: seq<string>, p: nat)
    requires p == Odd(pre) < |pre| && forall i :: 0 <= i < |pre| ==> pre[i] != "" && All(pre[i], IdentChar)
    requires !Without(pre[p], '-') && !Harmless(pre[p], p)
    ensures Head(pre[p]) == "" ==> p == 0
    ensures Head(pre[p]) != "" ==> PlainPre(pre[..p] + [Head(pre[p])]) && PlainIdent(Head(pre[p]))
    ensures All(Head(pre[p]), IdentChar)
  {
    HeadOk(pre[p]);
    if Head(pre[p]) != "" { PlainPreAnd(pre, p, Head(pre[p])); }
  }

  lemma PlainPreAnd(pre: seq<string>, p: nat, c: string)
    requires p <= |pre| && p <= Odd(pre) && forall i :: 0 <= i < p ==> pre[i] != "" && All(pre[i], IdentChar)
    requires c != "" && All(c, IdentChar) && PlainIdent(c)
    ensures PlainPre(pre[..p] + [c])
  {
    var cut := pre[..p] + [c];
    forall i | 0 <= i < |cut| ensures cut[i] != "" && All(cut[i], IdentChar) && PlainIdent(cut[i]) {
      assert i < p ==> cut[i] == pre[i];
    }
  }

  lemma HeadOk(s: string)
    requires All(s, IdentChar)
    ensures All(Head(s), IdentChar) && Without(Head(s), '-')
  {
  }

  /** The cut of `x` is what `y` means, and not what `x` means. */
  lemma CutIsMeant(x: Tag, y: Tag, p: nat, c: string)
    requires WellFormed(x) && WellFormed(y) && p == Odd(x.pre) < |x.pre|
    requires !Without(x.pre[p], '-') && c == Head(x.pre[p]) && (c == "" ==> p == 0)
    requires y.pre == (if c == "" then [] else x.pre[..p] + [c]) && (c != "" ==> PlainIdent(c) && All(c, IdentChar))
    ensures CutPre(x, p) == Meaning(y).pre && Meaning(x).pre != Meaning(y).pre
  {
    assert Meaning(x).pre[p] == Alpha(x.pre[p]);
    if c != "" {
      IdentReadsRight(c);
      MeantAfter(x, y, p, c);
    }
  }

  lemma MeantAfter(x: Tag, y: Tag, p: nat, c: string)
    requires WellFormed(x) && WellFormed(y) && p < |x.pre| && y.pre == x.pre[..p] + [c]
    ensures Meaning(y).pre == Meaning(x).pre[..p] + [MeantIdent(c)]
  {
    assert forall i :: 0 <= i < p ==> y.pre[i] == x.pre[i];
  }

  lemma HarmlessPreAgrees(x: Tag, y: Tag, p: nat)
    requires WellFormed(x) && WellFormed(y) && Plain(y)
    requires p < |x.pre| && Harmless(x.pre[p], p)
    ensures CutPre(x, p) != [] && Meaning(x).pre != []
    ensures PreOrder(CutPre(x, p), Meaning(y).pre) == PreOrder(Meaning(x).pre, Meaning(y).pre)
  {
    var r, m, n := CutPre(x, p), Meaning(x).pre, Meaning(y).pre;
    assert |r| == p + 1 && r[..p] == m[..p] && r[p] == ReadIdent(Head(x.pre[p])) && m[p] == MeantIdent(x.pre[p]);
    if p < |n| {
      assert n[p] == MeantIdent(y.pre[p]);
      HarmlessAgainst(x.pre[p], p, y.pre[p]);
    }
    AlikeAgainst(r, m, n, 0, p);
  }

  /** A harmless cut compares like the whole. */
  lemma HarmlessCutAgrees(x: Tag, r: Version, y: Tag, p: nat)
    requires WellFormed(x) && r.core == Meaning(x).core && WellFormed(y) && Plain(y)
    requires p < |x.pre| && Harmless(x.pre[p], p) && r.pre == CutPre(x, p)
    ensures Like(r, x, y)
  {
    HarmlessPreAgrees(x, y, p);
  }

  lemma HarmlessAgainst(s: string, p: nat, z: string)
    requires Harmless(s, p) && All(s, IdentChar) && z != "" && All(z, IdentChar) && PlainIdent(z)
    ensures ReadIdent(Head(s)) == Alpha(Head(s)) && MeantIdent(s) == Alpha(s)
    ensures IdentOrder(Alpha(Head(s)), MeantIdent(z)) == IdentOrder(Alpha(s), MeantIdent(z)) != 0
  {
    var c := Head(s);
    var rest := s[|c| + 1..];
    assert s == c + ("-" + rest);
    if c != "" { AtoiOfNumber(c); }
    if !Number(z) { CutTies(c, rest, z); }
  }

  /** Main result: a well-formed tag compares with every plain tag as the standard says
      exactly when it is fair: plain, or cut only where that does no harm. */
  lemma AgreesExactly(x: Tag)
    requires WellFormed(x)
    ensures Agrees(x) <==> Fair(x)
  {
    var r, p := Version(Numbers([x.major, x.minor, x.patch]), ReadPre(x)), Odd(x.pre);
    ReadIs(x);
    if !(Fits(x.major) && Fits(x.minor) && Fits(x.patch)) {
      var y := CoreTellsApart(x, r);
      SaysByOrder(x, y, r);
    } else {
      CoreFits(x);
      if p == |x.pre| {
        forall y | WellFormed(y) && Plain(y) ensures SaysStandard(x, y) { OrderIsPrecedence(x, y); }
      } else if Without(x.pre[p], '-') {
        OddNumberRead(x);
        var y := NumberTellsApart(x, r, p);
        SaysByOrder(x, y, r);
      } else {
        OddHyphenRead(x);
        if Harmless(x.pre[p], p) {
          forall y | WellFormed(y) && Plain(y) ensures SaysStandard(x, y) {
            HarmlessCutAgrees(x, r, y, p);
            SaysByOrder(x, y, r);
          }
        } else {
          var y := CutTellsApart(x, r, p);
          SaysByOrder(x, y, r);
        }
      }
    }
  }

  /** Fair is wider than plain. */
  lemma FairNotPlain(t: string)
    requires All(t, IdentChar)
    ensures var x := Tag(false, "1", "0", "0", ["a", "-" + t], None);
            WellFormed(x) && Fair(x) && !Plain(x)
  {
    var x := Tag(false, "1", "0", "0", ["a", "-" + t], None);
    assert !Number("a") by { assert !Digit("a"[0]); }
    assert x.pre[1][0] == '-';
    assert Odd(x.pre[1..]) == 0 && PlainIdent(x.pre[0]);
    assert Head(x.pre[1]) == "";
    assert Number("1") && Value("1") == 10 * Value("1"[..0]) + 1;
    assert Number("0") && Value("0") == 10 * Value("0"[..0]) + 0;
  }

  /** Any two texts behind the same hyphen: a tie, and the standard orders them. */
  lemma HyphenHides(x: Tag, y: Tag, c: string, s: string, t: string)
    requires WellFormed(x) && WellFormed(y) && x.major == y.major && x.minor == y.minor && x.patch == y.patch
    requires x.pre == [c + ("-" + s)] && y.pre == [c + ("-" + t)] && Without(c, '-') && s != t
    ensures TagOrder(Written(x), Written(y)) == 0
    ensures Below(Meaning(x), Meaning(y)) || Below(Meaning(y), Meaning(x))
  {
    var a, b := c + ("-" + s), c + ("-" + t);
    assert a[|c|] == '-' && b[|c|] == '-';
    IndexOfAt(a, '-', |c|);
    IndexOfAt(b, '-', |c|);
    HyphenTaken(x.pre, 0);
    HyphenTaken(y.pre, 0);
    assert a[|c| + 1..] == s && b[|c| + 1..] == t;
    assert Meaning(x).pre[0] == Alpha(a) && Meaning(y).pre[0] == Alpha(b);
    HyphenTies(x, y);
  }
}

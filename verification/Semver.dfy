/**
 Version comparison: how a tag is read, the order on what was read, and the
 comparison loops proved to compute that order.  `int` in the compared program is
 64 bits wide.
*/
module Semver {
  import opened Wrappers
  import opened VersionText

  const MAX_INT: int := 0x7FFF_FFFF_FFFF_FFFF

  // ----- reading a tag ----------------------------------------------------------------

  function Value(digits: string): nat
    requires All(digits, Digit)
  {
    if digits == "" then 0 else 10 * Value(digits[..|digits| - 1]) + DigitValue(digits[|digits| - 1])
  }

  function DigitValue(c: char): nat
    requires Digit(c)
  {
    c as int - 48
  }

  /** A decimal integer with an optional sign: its value and whether it fits.  One
      that does not fit is cut to the nearest end of the range, and text that is no
      integer yields 0. */
  function Atoi(s: string): (int, bool) {
    var signed := s != "" && (s[0] == '-' || s[0] == '+');
    var body := if signed then s[1..] else s;
    if body == "" || !All(body, Digit) then (0, false)
    else
      var v: int := Value(body);
      if signed && s[0] == '-' then
        if v > MAX_INT + 1 then (-MAX_INT - 1, false) else (-v, true)
      else
        if v > MAX_INT then (MAX_INT, false) else (v, true)
  }

  function IndexOf(s: string, c: char): (i: nat)
    ensures i <= |s| && (i < |s| ==> s[i] == c)
    ensures forall k :: 0 <= k < i ==> s[k] != c
  {
    if s == "" || s[0] == c then 0 else 1 + IndexOf(s[1..], c)
  }

  function Split(s: string, c: char): (parts: seq<string>)
    ensures |parts| > 0
    decreases |s|
  {
    var i := IndexOf(s, c);
    if i == |s| then [s] else [s[..i]] + Split(s[i + 1..], c)
  }

  /** The version before the first hyphen, and what follows it. */
  function SplitPre(v: string): (string, string) {
    var i := IndexOf(v, '-');
    if i == |v| then (v, "") else (v[..i], v[i + 1..])
  }

  /** A pre-release identifier: a number, or text. */
  datatype Ident = Num(value: int) | Alpha(text: string)

  /** A version as it is compared. */
  datatype Version = Version(core: seq<int>, pre: seq<Ident>)

  function ReadIdent(s: string): Ident {
    if Atoi(s).1 then Num(Atoi(s).0) else Alpha(s)
  }

  function Numbers(parts: seq<string>): (r: seq<int>)
    ensures |r| == |parts|
  {
    seq(|parts|, i requires 0 <= i < |parts| => Atoi(parts[i]).0)
  }

  function Idents(parts: seq<string>): (r: seq<Ident>)
    ensures |r| == |parts|
  {
    seq(|parts|, i requires 0 <= i < |parts| => ReadIdent(parts[i]))
  }

  /** What the comparison sees in a tag, if it sees a version there. */
  function Read(tag: string): Option<Version> {
    var v := NormVer(tag);
    if v == "" then None
    else
      var (core, pre) := SplitPre(v);
      Some(Version(Numbers(Split(core, '.')), if pre == "" then [] else Idents(Split(pre, '.'))))
  }

  // ----- the order --------------------------------------------------------------------------

  function IntOrder(a: int, b: int): int {
    if a < b then -1 else if a > b then 1 else 0
  }

  /** The lexical order of strings. */
  function TextOrder(a: string, b: string): int
    decreases |a|
  {
    if a == "" || b == "" then IntOrder(|a|, |b|)
    else if a[0] != b[0] then IntOrder(a[0] as int, b[0] as int)
    else TextOrder(a[1..], b[1..])
  }

  function IdentOrder(a: Ident, b: Ident): int {
    if a.Num? && b.Num? then IntOrder(a.value, b.value)
    else if a.Num? then -1
    else if b.Num? then 1
    else TextOrder(a.text, b.text)
  }

  /** A missing number counts as 0. */
  function At(a: seq<int>, i: nat): int {
    if i < |a| then a[i] else 0
  }

  /** From position `i` on, the first difference decides. */
  function CoreOrderFrom(a: seq<int>, b: seq<int>, i: nat): int
    decreases |a| + |b| - i
  {
    if i >= |a| && i >= |b| then 0
    else if At(a, i) != At(b, i) then IntOrder(At(a, i), At(b, i))
    else CoreOrderFrom(a, b, i + 1)
  }

  function CoreOrder(a: seq<int>, b: seq<int>): int {
    CoreOrderFrom(a, b, 0)
  }

  /** From position `i` on, the first difference decides, else the shorter list is lower. */
  function PreOrderFrom(a: seq<Ident>, b: seq<Ident>, i: nat): int
    decreases |a| - i
  {
    if i >= |a| || i >= |b| then IntOrder(|a|, |b|)
    else if IdentOrder(a[i], b[i]) != 0 then IdentOrder(a[i], b[i])
    else PreOrderFrom(a, b, i + 1)
  }

  function PreOrder(a: seq<Ident>, b: seq<Ident>): int {
    PreOrderFrom(a, b, 0)
  }

  /** A release is above its pre-releases. */
  function VersionOrder(a: Version, b: Version): int {
    var c := CoreOrder(a.core, b.core);
    if c != 0 then c
    else if a.pre == [] || b.pre == [] then IntOrder(|b.pre|, |a.pre|)
    else PreOrder(a.pre, b.pre)
  }

  /** What holds no version is lowest. */
  function ReadOrder(x: Option<Version>, y: Option<Version>): int {
    if x.None? || y.None? then IntOrder(if x.None? then 0 else 1, if y.None? then 0 else 1)
    else VersionOrder(x.value, y.value)
  }

  /** The order of tags. */
  function TagOrder(a: string, b: string): int {
    ReadOrder(Read(a), Read(b))
  }

  // ----- the comparison loops --------------------------------------------------------------

  method CmpDots(a: string, b: string) returns (c: int)
    ensures c == CoreOrder(Numbers(Split(a, '.')), Numbers(Split(b, '.')))
  {
    var xs, ys := Split(a, '.'), Split(b, '.');
    ghost var ms, ns := Numbers(xs), Numbers(ys);
    var n := if |ys| > |xs| then |ys| else |xs|;
    var i := 0;
    while i < n
      invariant 0 <= i <= n
      invariant CoreOrder(ms, ns) == CoreOrderFrom(ms, ns, i)
    {
      var x, y := 0, 0;
      if i < |xs| { x := Atoi(xs[i]).0; }
      if i < |ys| { y := Atoi(ys[i]).0; }
      assert x == At(ms, i) && y == At(ns, i);
      if x != y {
        return if x < y then -1 else 1;
      }
      i := i + 1;
    }
    return 0;
  }

  method CmpPreIdent(a: string, b: string) returns (c: int)
    ensures c == IdentOrder(ReadIdent(a), ReadIdent(b))
  {
    var (m, aNum) := Atoi(a);
    var (n, bNum) := Atoi(b);
    if aNum && bNum {
      c := if m < n then -1 else if m > n then 1 else 0;
    } else if aNum {
      c := -1;
    } else if bNum {
      c := 1;
    } else {
      c := TextOrder(a, b);
    }
  }

  method CmpPreRelease(a: string, b: string) returns (c: int)
    ensures c == PreOrder(Idents(Split(a, '.')), Idents(Split(b, '.')))
  {
    var xs, ys := Split(a, '.'), Split(b, '.');
    ghost var ms, ns := Idents(xs), Idents(ys);
    var n := if |ys| < |xs| then |ys| else |xs|;
    var i := 0;
    while i < n
      invariant 0 <= i <= n
      invariant PreOrder(ms, ns) == PreOrderFrom(ms, ns, i)
    {
      c := CmpPreIdent(xs[i], ys[i]);
      if c != 0 {
        return;
      }
      i := i + 1;
    }
    return if |xs| == |ys| then 0 else if |xs| < |ys| then -1 else 1;
  }

  method CompareSemver(a: string, b: string) returns (c: int)
    ensures c == TagOrder(a, b)
  {
    var an, bn := NormVer(a), NormVer(b);
    if an == "" || bn == "" {
      if an == bn {
        return 0;
      }
      return if an == "" then -1 else 1;     // the empty string is below any other
    }
    var (coreA, preA) := SplitPre(an);
    var (coreB, preB) := SplitPre(bn);
    c := CmpDots(coreA, coreB);
    if c != 0 {
      return;
    }
    if preA == "" && preB != "" {
      return 1;
    }
    if preA != "" && preB == "" {
      return -1;
    }
    if preA == preB {
      if preA != "" { PreOrderRefl(Idents(Split(preA, '.')), 0); }
      return 0;
    }
    c := CmpPreRelease(preA, preB);
  }

  // ----- the order is a total preorder --------------------------------------------------------

  lemma {:induction false} TextOrderRefl(a: string)
    ensures TextOrder(a, a) == 0
    decreases |a|
  {
    if a != "" { TextOrderRefl(a[1..]); }
  }

  lemma {:induction false} PreOrderRefl(a: seq<Ident>, i: nat)
    ensures PreOrderFrom(a, a, i) == 0
    decreases |a| - i
  {
    if i < |a| {
      if a[i].Alpha? { TextOrderRefl(a[i].text); }
      PreOrderRefl(a, i + 1);
    }
  }

  lemma {:induction false} TextOrderSwap(a: string, b: string)
    ensures TextOrder(b, a) == -TextOrder(a, b)
    decreases |a|
  {
    if a != "" && b != "" && a[0] == b[0] { TextOrderSwap(a[1..], b[1..]); }
  }

  lemma {:induction false} PreOrderSwap(a: seq<Ident>, b: seq<Ident>, i: nat)
    ensures PreOrderFrom(b, a, i) == -PreOrderFrom(a, b, i)
    decreases |a| - i
  {
    if i < |a| && i < |b| {
      if a[i].Alpha? && b[i].Alpha? { TextOrderSwap(a[i].text, b[i].text); }
      PreOrderSwap(a, b, i + 1);
    }
  }

  lemma {:induction false} CoreOrderSwap(a: seq<int>, b: seq<int>, i: nat)
    ensures CoreOrderFrom(b, a, i) == -CoreOrderFrom(a, b, i)
    decreases |a| + |b| - i
  {
    if i < |a| || i < |b| { CoreOrderSwap(a, b, i + 1); }
  }

  /** Whether `ac` is what `ab` and `bc` leave possible. */
  predicate Composes(ab: int, bc: int, ac: int) {
    (ab <= 0 && bc <= 0 ==> ac <= 0) && (ab <= 0 && bc <= 0 && (ab < 0 || bc < 0) ==> ac < 0)
  }

  lemma {:induction false} TextOrderTrans(a: string, b: string, c: string)
    ensures Composes(TextOrder(a, b), TextOrder(b, c), TextOrder(a, c))
    decreases |a|
  {
    if a != "" && b != "" && c != "" { TextOrderTrans(a[1..], b[1..], c[1..]); }
  }

  lemma IdentOrderTrans(a: Ident, b: Ident, c: Ident)
    ensures Composes(IdentOrder(a, b), IdentOrder(b, c), IdentOrder(a, c))
  {
    if a.Alpha? && b.Alpha? && c.Alpha? { TextOrderTrans(a.text, b.text, c.text); }
  }

  lemma {:induction false} PreOrderTrans(a: seq<Ident>, b: seq<Ident>, c: seq<Ident>, i: nat)
    ensures Composes(PreOrderFrom(a, b, i), PreOrderFrom(b, c, i), PreOrderFrom(a, c, i))
    decreases |a| - i
  {
    if i < |a| && i < |b| && i < |c| {
      IdentOrderTrans(a[i], b[i], c[i]);
      PreOrderTrans(a, b, c, i + 1);
    }
  }

  lemma {:induction false} CoreOrderTrans(a: seq<int>, b: seq<int>, c: seq<int>, i: nat)
    ensures Composes(CoreOrderFrom(a, b, i), CoreOrderFrom(b, c, i), CoreOrderFrom(a, c, i))
    decreases |a| + |b| + |c| - i
  {
    if i < |a| || i < |b| || i < |c| { CoreOrderTrans(a, b, c, i + 1); }
  }

  lemma VersionOrderTrans(a: Version, b: Version, c: Version)
    ensures Composes(VersionOrder(a, b), VersionOrder(b, c), VersionOrder(a, c))
  {
    CoreOrderTrans(a.core, b.core, c.core, 0);
    PreOrderTrans(a.pre, b.pre, c.pre, 0);
  }

  lemma ReadOrderBasics(x: Option<Version>, y: Option<Version>)
    ensures ReadOrder(x, x) == 0 && ReadOrder(x, y) in {-1, 0, 1} && ReadOrder(y, x) == -ReadOrder(x, y)
  {
    if x.Some? {
      CoreOrderSwap(x.value.core, x.value.core, 0);
      PreOrderRefl(x.value.pre, 0);
      if y.Some? {
        CoreOrderSwap(x.value.core, y.value.core, 0);
        PreOrderSwap(x.value.pre, y.value.pre, 0);
        CoreOrderSign(x.value.core, y.value.core, 0);
        PreOrderSign(x.value.pre, y.value.pre, 0);
      }
    }
  }

  lemma ReadOrderTrans(x: Option<Version>, y: Option<Version>, z: Option<Version>)
    ensures Composes(ReadOrder(x, y), ReadOrder(y, z), ReadOrder(x, z))
  {
    if x.Some? && y.Some? && z.Some? { VersionOrderTrans(x.value, y.value, z.value); }
  }

  /** Main result: the order of whatever can be read is reflexive, sign-symmetric and
      transitive, ties are interchangeable, and what holds no version is below all
      that does. */
  lemma ReadOrderIsTotalPreorder(x: Option<Version>, y: Option<Version>, z: Option<Version>)
    ensures ReadOrder(x, x) == 0 && ReadOrder(x, y) in {-1, 0, 1} && ReadOrder(y, x) == -ReadOrder(x, y)
    ensures Composes(ReadOrder(x, y), ReadOrder(y, z), ReadOrder(x, z))
    ensures ReadOrder(x, y) == 0 ==> ReadOrder(x, z) == ReadOrder(y, z)
    ensures x.None? ==> ReadOrder(x, y) == if y.Some? then -1 else 0
  {
    ReadOrderBasics(x, y);
    ReadOrderBasics(x, z);
    ReadOrderBasics(y, z);
    ReadOrderTrans(x, y, z);
    ReadOrderTrans(y, x, z);
    ReadOrderTrans(z, x, y);
    ReadOrderTrans(z, y, x);
  }

  /** And so it is for all tags, of any text. */
  lemma TagOrderIsTotalPreorder(a: string, b: string, c: string)
    ensures TagOrder(a, a) == 0 && TagOrder(a, b) in {-1, 0, 1} && TagOrder(b, a) == -TagOrder(a, b)
    ensures Composes(TagOrder(a, b), TagOrder(b, c), TagOrder(a, c))
    ensures TagOrder(a, b) == 0 ==> TagOrder(a, c) == TagOrder(b, c)
    ensures Read(a).None? ==> TagOrder(a, b) == if Read(b).Some? then -1 else 0
  {
    ReadOrderIsTotalPreorder(Read(a), Read(b), Read(c));
  }

  lemma TagOrderBasics(a: string, b: string)
    ensures TagOrder(a, a) == 0 && TagOrder(a, b) in {-1, 0, 1} && TagOrder(b, a) == -TagOrder(a, b)
  {
    ReadOrderBasics(Read(a), Read(b));
  }

  lemma {:induction false} CoreOrderSign(a: seq<int>, b: seq<int>, i: nat)
    ensures CoreOrderFrom(a, b, i) in {-1, 0, 1}
    decreases |a| + |b| - i
  {
    if i < |a| || i < |b| { CoreOrderSign(a, b, i + 1); }
  }

  lemma {:induction false} PreOrderSign(a: seq<Ident>, b: seq<Ident>, i: nat)
    ensures PreOrderFrom(a, b, i) in {-1, 0, 1}
    decreases |a| - i
  {
    if i < |a| && i < |b| {
      if a[i].Alpha? && b[i].Alpha? { TextOrderSign(a[i].text, b[i].text); }
      PreOrderSign(a, b, i + 1);
    }
  }

  lemma {:induction false} TextOrderSign(a: string, b: string)
    ensures TextOrder(a, b) in {-1, 0, 1}
    decreases |a|
  {
    if a != "" && b != "" { TextOrderSign(a[1..], b[1..]); }
  }
}

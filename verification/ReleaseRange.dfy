/** Releases in a range of tags, newest first, for any order of tags. */
module ReleaseRange {
  import opened Semver

  /** `notes` stands for everything of a release but its tag. */
  datatype Release = Release(tag: string, notes: seq<string>)

  /** How tags compare, and which of them can be placed at all. */
  datatype Order = Order(cmp: (string, string) -> int, has: string -> bool)

  predicate Lawful(o: Order, a: string, b: string, c: string) {
    && o.cmp(a, a) == 0 && o.cmp(a, b) in {-1, 0, 1} && o.cmp(b, a) == -o.cmp(a, b)
    && Composes(o.cmp(a, b), o.cmp(b, c), o.cmp(a, c))
    && (o.cmp(a, b) == 0 ==> o.cmp(a, c) == o.cmp(b, c))
  }

  /** A total preorder. */
  ghost predicate Total(o: Order) {
    forall a, b, c :: Lawful(o, a, b, c)
  }

  lemma Law(o: Order, a: string, b: string, c: string)
    requires Total(o)
    ensures Lawful(o, a, b, c) && Lawful(o, b, a, c)
  {
    assert Lawful(o, a, b, c) && Lawful(o, b, a, c);
  }

  predicate Newer(o: Order, x: Release, y: Release) {
    o.cmp(x.tag, y.tag) > 0
  }

  // ----- a stable sort, newest first ------------------------------------------------

  /** In front of the first release that is not newer. */
  function Insert(o: Order, x: Release, s: seq<Release>): (t: seq<Release>)
    ensures |t| == |s| + 1
  {
    if s != [] && Newer(o, s[0], x) then [s[0]] + Insert(o, x, s[1..]) else [x] + s
  }

  function StableSorted(o: Order, s: seq<Release>): seq<Release> {
    if s == [] then [] else Insert(o, s[0], StableSorted(o, s[1..]))
  }

  ghost predicate NewestFirst(o: Order, s: seq<Release>) {
    forall i, j :: 0 <= i < j < |s| ==> !Newer(o, s[j], s[i])
  }

  /** The releases of the same precedence as `tag`, in their order. */
  function Peers(o: Order, s: seq<Release>, tag: string): seq<Release> {
    if s == [] then []
    else if o.cmp(s[0].tag, tag) == 0 then [s[0]] + Peers(o, s[1..], tag)
    else Peers(o, s[1..], tag)
  }

  /** `t` is a stable newest-first arrangement of `s`: releases of the same precedence
      keep their order. */
  ghost predicate Arranges(o: Order, t: seq<Release>, s: seq<Release>) {
    NewestFirst(o, t) && forall tag :: Peers(o, t, tag) == Peers(o, s, tag)
  }

  lemma PeersOfCons(o: Order, x: Release, s: seq<Release>, tag: string)
    ensures Peers(o, [x] + s, tag) == (if o.cmp(x.tag, tag) == 0 then [x] else []) + Peers(o, s, tag)
  {
    assert ([x] + s)[1..] == s;
  }

  lemma NewerIsNoPeer(o: Order, y: Release, x: Release, tag: string)
    requires Total(o)
    ensures Newer(o, y, x) ==> o.cmp(x.tag, tag) != 0 || o.cmp(y.tag, tag) != 0
  {
    Law(o, y.tag, tag, x.tag);
    Law(o, x.tag, tag, y.tag);
  }

  lemma {:induction false} InsertKeepsPeers(o: Order, x: Release, s: seq<Release>, tag: string)
    requires Total(o)
    ensures Peers(o, Insert(o, x, s), tag) == Peers(o, [x] + s, tag)
  {
    if s != [] && Newer(o, s[0], x) {
      InsertKeepsPeers(o, x, s[1..], tag);
      NewerIsNoPeer(o, s[0], x, tag);
      PeersOfCons(o, x, s, tag);
      PeersOfCons(o, x, s[1..], tag);
      PeersOfCons(o, s[0], Insert(o, x, s[1..]), tag);
    }
  }

  lemma {:induction false} InsertKeepsOrder(o: Order, x: Release, s: seq<Release>)
    requires Total(o)
    requires NewestFirst(o, s)
    ensures NewestFirst(o, Insert(o, x, s))
    ensures forall y :: y in Insert(o, x, s) ==> y == x || y in s
  {
    if s != [] && Newer(o, s[0], x) {
      InsertKeepsOrder(o, x, s[1..]);
      Law(o, x.tag, s[0].tag, x.tag);
      var rest := Insert(o, x, s[1..]);
      forall j | 0 <= j < |rest| ensures !Newer(o, rest[j], s[0]) {
        assert rest[j] in rest;
        if rest[j] != x {
          var k :| 0 <= k < |s[1..]| && s[1..][k] == rest[j];
          assert s[k + 1] == rest[j];
        }
      }
    } else if s != [] {
      forall j | 0 <= j < |s| ensures !Newer(o, s[j], x) {
        Law(o, s[j].tag, s[0].tag, x.tag);
      }
    }
  }

  lemma {:induction false} SortedArranges(o: Order, s: seq<Release>)
    requires Total(o)
    ensures Arranges(o, StableSorted(o, s), s)
  {
    if s != [] {
      SortedArranges(o, s[1..]);
      var rest := StableSorted(o, s[1..]);
      InsertKeepsOrder(o, s[0], rest);
      forall tag ensures Peers(o, StableSorted(o, s), tag) == Peers(o, s, tag) {
        InsertKeepsPeers(o, s[0], rest, tag);
        assert ([s[0]] + rest)[1..] == rest;
      }
    }
  }

  lemma CountOfCons(y: Release, s: seq<Release>, x: Release)
    ensures multiset([y] + s)[x] == (if y == x then 1 else 0) + multiset(s)[x]
  {
  }

  /** An arrangement has the same releases, each as often. */
  lemma {:induction false} PeersCount(o: Order, s: seq<Release>, x: Release)
    requires Total(o)
    ensures multiset(Peers(o, s, x.tag))[x] == multiset(s)[x]
  {
    if s != [] {
      PeersCount(o, s[1..], x);
      Law(o, x.tag, x.tag, x.tag);
      CountOfCons(s[0], s[1..], x);
      CountOfCons(s[0], Peers(o, s[1..], x.tag), x);
      assert s == [s[0]] + s[1..];
    }
  }

  lemma ArrangesSame(o: Order, t: seq<Release>, s: seq<Release>)
    requires Total(o)
    requires Arranges(o, t, s)
    ensures multiset(t) == multiset(s)
  {
    forall x ensures multiset(t)[x] == multiset(s)[x] {
      PeersCount(o, t, x);
      PeersCount(o, s, x);
    }
  }

  lemma {:induction false} PeersIn(o: Order, s: seq<Release>, tag: string)
    ensures forall x :: x in Peers(o, s, tag) ==> x in s && o.cmp(x.tag, tag) == 0
  {
    if s != [] { PeersIn(o, s[1..], tag); }
  }

  /** The first of a sorted sequence is at least as new as all of it. */
  lemma HeadIsNewest(o: Order, s: seq<Release>, x: Release)
    requires Total(o)
    requires NewestFirst(o, s) && x in s
    ensures o.cmp(x.tag, s[0].tag) <= 0
  {
    var i :| 0 <= i < |s| && s[i] == x;
    Law(o, x.tag, x.tag, x.tag);
  }

  lemma HeadIsPeer(o: Order, s: seq<Release>)
    requires Total(o)
    requires s != []
    ensures Peers(o, s, s[0].tag) != [] && Peers(o, s, s[0].tag)[0] == s[0]
  {
    Law(o, s[0].tag, s[0].tag, s[0].tag);
  }

  /** There is only one stable arrangement, so it does not matter how it is found. */
  lemma {:induction false} ArrangementIsUnique(o: Order, t: seq<Release>, u: seq<Release>)
    requires Total(o)
    requires NewestFirst(o, t) && NewestFirst(o, u) && forall tag :: Peers(o, t, tag) == Peers(o, u, tag)
    ensures t == u
    decreases |t|
  {
    if t == [] {
      if u != [] { HeadIsPeer(o, u); }
    } else {
      SameHead(o, t, u);
      forall tag ensures Peers(o, t[1..], tag) == Peers(o, u[1..], tag) {
        assert Peers(o, t, tag) == Peers(o, u, tag);
        if o.cmp(t[0].tag, tag) == 0 {
          assert Peers(o, t, tag)[1..] == Peers(o, t[1..], tag) && Peers(o, u, tag)[1..] == Peers(o, u[1..], tag);
        }
      }
      ArrangementIsUnique(o, t[1..], u[1..]);
    }
  }

  lemma SameHead(o: Order, t: seq<Release>, u: seq<Release>)
    requires Total(o)
    requires t != [] && NewestFirst(o, t) && NewestFirst(o, u) && forall tag :: Peers(o, t, tag) == Peers(o, u, tag)
    ensures u != [] && t[0] == u[0]
  {
    var a := t[0].tag;
    Law(o, a, a, a);
    assert Peers(o, t, a) == Peers(o, u, a) && Peers(o, t, a)[0] == t[0];
    PeersIn(o, u, a);
    assert t[0] in u;
    var b := u[0].tag;
    Law(o, b, b, b);
    assert Peers(o, u, b) == Peers(o, t, b) && Peers(o, u, b)[0] == u[0];
    PeersIn(o, t, b);
    assert u[0] in t;
    HeadIsNewest(o, u, t[0]);
    HeadIsNewest(o, t, u[0]);
    Law(o, a, b, b);
    assert o.cmp(b, a) == 0;
    assert Peers(o, u, a)[0] == u[0];
  }

  // ----- the range --------------------------------------------------------------------------

  /** In the half-open range (from, to]; an empty bound is no bound, and a tag without
      a version is in the range only when there are no bounds. */
  predicate Wanted(o: Order, r: Release, from: string, to: string) {
    if from == "" && to == "" then true
    else
      && o.has(r.tag)
      && (from != "" ==> o.cmp(from, r.tag) < 0)
      && (to != "" ==> o.cmp(r.tag, to) <= 0)
  }

  function Kept(o: Order, s: seq<Release>, from: string, to: string): seq<Release> {
    if s == [] then []
    else
      var init := Kept(o, s[..|s| - 1], from, to);
      if Wanted(o, s[|s| - 1], from, to) then init + [s[|s| - 1]] else init
  }

  function Filtered(o: Order, s: seq<Release>, from: string, to: string): seq<Release> {
    StableSorted(o, Kept(o, s, from, to))
  }

  lemma KeptNext(o: Order, s: seq<Release>, i: nat, from: string, to: string)
    requires i < |s|
    ensures Kept(o, s[..i + 1], from, to) ==
            Kept(o, s[..i], from, to) + if Wanted(o, s[i], from, to) then [s[i]] else []
  {
    assert s[..i + 1][..i] == s[..i];
  }

  lemma {:induction false} KeptIsWanted(o: Order, s: seq<Release>, from: string, to: string)
    ensures forall x :: x in Kept(o, s, from, to) <==> x in s && Wanted(o, x, from, to)
  {
    if s != [] {
      KeptIsWanted(o, s[..|s| - 1], from, to);
      assert s == s[..|s| - 1] + [s[|s| - 1]];
    }
  }

  lemma Unfold(s: seq<Release>, t: seq<Release>)
    requires s != []
    ensures s + t == [s[0]] + (s[1..] + t)
  {
  }

  lemma {:induction false} PeersOfSum(o: Order, s: seq<Release>, t: seq<Release>, tag: string)
    ensures Peers(o, s + t, tag) == Peers(o, s, tag) + Peers(o, t, tag)
  {
    if s == [] {
      assert s + t == t;
    } else {
      PeersOfSum(o, s[1..], t, tag);
      PeersOfCons(o, s[0], s[1..] + t, tag);
      Unfold(s, t);
    }
  }

  /** Two ranges that agree on the peers of a tag keep the same of them. */
  lemma {:induction false} SamePeersKept(o: Order, s: seq<Release>, from: string, to: string,
                                         from': string, to': string, tag: string)
    requires forall x: Release :: o.cmp(x.tag, tag) == 0 ==> Wanted(o, x, from, to) == Wanted(o, x, from', to')
    ensures Peers(o, Kept(o, s, from, to), tag) == Peers(o, Kept(o, s, from', to'), tag)
  {
    if s != [] {
      var init, x := s[..|s| - 1], s[|s| - 1];
      SamePeersKept(o, init, from, to, from', to', tag);
      PeersOfSum(o, Kept(o, init, from, to), [x], tag);
      PeersOfSum(o, Kept(o, init, from', to'), [x], tag);
    }
  }

  lemma {:induction false} NoPeersKept(o: Order, s: seq<Release>, from: string, to: string, tag: string)
    requires forall x: Release :: o.cmp(x.tag, tag) == 0 ==> !Wanted(o, x, from, to)
    ensures Peers(o, Kept(o, s, from, to), tag) == []
  {
    if s != [] {
      var init, x := s[..|s| - 1], s[|s| - 1];
      NoPeersKept(o, init, from, to, tag);
      PeersOfSum(o, Kept(o, init, from, to), [x], tag);
    }
  }

  /** The upper part of a range and its lower part have no release in common, and
      what is the same precedence as `tag` lies in one of them. */
  lemma PartsOfPeers(o: Order, s: seq<Release>, a: string, b: string, c: string, tag: string)
    requires Total(o)
    requires a != "" && b != "" && c != "" && o.cmp(a, b) <= 0 && o.cmp(b, c) <= 0
    ensures Peers(o, Kept(o, s, b, c), tag) + Peers(o, Kept(o, s, a, b), tag) == Peers(o, Kept(o, s, a, c), tag)
  {
    forall x: Release | o.cmp(x.tag, tag) == 0
      ensures o.cmp(b, tag) < 0 ==> !Wanted(o, x, a, b) && Wanted(o, x, b, c) == Wanted(o, x, a, c)
      ensures o.cmp(b, tag) >= 0 ==> !Wanted(o, x, b, c) && Wanted(o, x, a, b) == Wanted(o, x, a, c)
    {
      PartOfOne(o, x, a, b, c, tag);
    }
    if o.cmp(b, tag) < 0 {
      NoPeersKept(o, s, a, b, tag);
      SamePeersKept(o, s, b, c, a, c, tag);
    } else {
      NoPeersKept(o, s, b, c, tag);
      SamePeersKept(o, s, a, b, a, c, tag);
    }
  }

  lemma PartOfOne(o: Order, x: Release, a: string, b: string, c: string, tag: string)
    requires Total(o)
    requires a != "" && b != "" && c != "" && o.cmp(a, b) <= 0 && o.cmp(b, c) <= 0 && o.cmp(x.tag, tag) == 0
    ensures o.cmp(b, tag) < 0 ==> !Wanted(o, x, a, b) && Wanted(o, x, b, c) == Wanted(o, x, a, c)
    ensures o.cmp(b, tag) >= 0 ==> !Wanted(o, x, b, c) && Wanted(o, x, a, b) == Wanted(o, x, a, c)
  {
    Law(o, x.tag, tag, b);
    Law(o, b, x.tag, tag);
    Law(o, a, b, x.tag);
    Law(o, x.tag, b, c);
    Law(o, b, tag, tag);
  }

  /** Main result: a range splits at any version in between, as sequences and not
      only as sets: the releases of (a, c] are those of (b, c] followed by those of
      (a, b]. */
  lemma RangeSplits(o: Order, s: seq<Release>, a: string, b: string, c: string)
    requires Total(o)
    requires a != "" && b != "" && c != "" && o.cmp(a, b) <= 0 && o.cmp(b, c) <= 0
    ensures Filtered(o, s, a, c) == Filtered(o, s, b, c) + Filtered(o, s, a, b)
  {
    var hi, lo, all := Filtered(o, s, b, c), Filtered(o, s, a, b), Filtered(o, s, a, c);
    SortedArranges(o, Kept(o, s, b, c));
    SortedArranges(o, Kept(o, s, a, b));
    SortedArranges(o, Kept(o, s, a, c));
    forall tag ensures Peers(o, hi + lo, tag) == Peers(o, all, tag) {
      PeersOfSum(o, hi, lo, tag);
      PartsOfPeers(o, s, a, b, c, tag);
    }
    UpperIsNewer(o, s, a, b, c);
    ArrangementIsUnique(o, hi + lo, all);
  }

  lemma FilteredIsWanted(o: Order, s: seq<Release>, from: string, to: string, x: Release)
    requires Total(o)
    ensures x in Filtered(o, s, from, to) <==> x in s && Wanted(o, x, from, to)
  {
    SortedArranges(o, Kept(o, s, from, to));
    ArrangesSame(o, Filtered(o, s, from, to), Kept(o, s, from, to));
    KeptIsWanted(o, s, from, to);
    assert x in Filtered(o, s, from, to) <==> x in multiset(Filtered(o, s, from, to));
    assert x in Kept(o, s, from, to) <==> x in multiset(Kept(o, s, from, to));
  }

  lemma UpperIsNewer(o: Order, s: seq<Release>, a: string, b: string, c: string)
    requires Total(o)
    requires a != "" && b != "" && c != ""
    ensures NewestFirst(o, Filtered(o, s, b, c) + Filtered(o, s, a, b))
  {
    var hi, lo := Filtered(o, s, b, c), Filtered(o, s, a, b);
    SortedArranges(o, Kept(o, s, b, c));
    SortedArranges(o, Kept(o, s, a, b));
    forall i, j | 0 <= i < |hi| && 0 <= j < |lo| ensures !Newer(o, lo[j], hi[i]) {
      FilteredIsWanted(o, s, b, c, hi[i]);
      FilteredIsWanted(o, s, a, b, lo[j]);
      Law(o, lo[j].tag, b, hi[i].tag);
    }
  }

  /** Nothing is both above a version and at most that version. */
  lemma EmptyRange(o: Order, s: seq<Release>, a: string)
    requires Total(o)
    requires a != ""
    ensures Filtered(o, s, a, a) == []
  {
    if Filtered(o, s, a, a) != [] {
      var x := Filtered(o, s, a, a)[0];
      FilteredIsWanted(o, s, a, a, x);
      Law(o, a, x.tag, x.tag);
    }
  }

  /** Bounds that want the same keep the same. */
  lemma {:induction false} SameKept(o: Order, s: seq<Release>, from: string, to: string, from': string, to': string)
    requires forall x: Release :: Wanted(o, x, from, to) == Wanted(o, x, from', to')
    ensures Kept(o, s, from, to) == Kept(o, s, from', to')
  {
    if s != [] { SameKept(o, s[..|s| - 1], from, to, from', to'); }
  }

  /** The releases that can be placed. */
  function Versioned(o: Order, s: seq<Release>): seq<Release> {
    if s == [] then []
    else
      var init := Versioned(o, s[..|s| - 1]);
      if o.has(s[|s| - 1].tag) then init + [s[|s| - 1]] else init
  }

  /** A lower bound below every tag that can be placed keeps just those. */
  lemma {:induction false} KeptAbove(o: Order, s: seq<Release>, from: string)
    requires from != "" && forall tag :: o.has(tag) ==> o.cmp(from, tag) < 0
    ensures Kept(o, s, from, "") == Versioned(o, s)
  {
    if s != [] { KeptAbove(o, s[..|s| - 1], from); }
  }

  lemma {:induction false} AllKept(o: Order, s: seq<Release>)
    ensures Kept(o, s, "", "") == s
  {
    if s != [] { AllKept(o, s[..|s| - 1]); }
  }
}

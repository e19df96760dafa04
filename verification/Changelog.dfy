/** The changelog view: the releases in a version range, newest first. */
module Changelog {
  import opened VersionText
  import opened Semver
  import opened ReleaseRange

  /** Tags in the order of their versions; one without a version cannot be placed. */
  const TAGS := Order(TagOrder, (tag: string) => Read(tag).Some?)

  lemma TagsAreOrdered()
    ensures Total(TAGS)
  {
    forall a, b, c ensures Lawful(TAGS, a, b, c) { TagOrderIsTotalPreorder(a, b, c); }
  }

  /** Comparing the version found in a tag is comparing the tag. */
  lemma WantedByVersion(r: Release, from: string, to: string)
    ensures var tag := NormVer(r.tag);
            Wanted(TAGS, r, from, to) <==>
              if tag == "" then from == "" && to == ""
              else (from == "" || TagOrder(tag, from) > 0) && (to == "" || TagOrder(tag, to) <= 0)
  {
    NormVerIdempotent(r.tag);
    TagOrderBasics(from, r.tag);
  }

  method FilterChangelogReleases(releases: seq<Release>, from: string, to: string) returns (out: seq<Release>)
    ensures out == Filtered(TAGS, releases, from, to)
    ensures Arranges(TAGS, out, Kept(TAGS, releases, from, to))
    ensures multiset(out) == multiset(Kept(TAGS, releases, from, to))
  {
    out := [];
    var bounded := from != "" || to != "";
    var i := 0;
    while i < |releases|
      invariant 0 <= i <= |releases|
      invariant out == Kept(TAGS, releases[..i], from, to)
    {
      var r := releases[i];
      KeptNext(TAGS, releases, i, from, to);
      WantedByVersion(r, from, to);
      i := i + 1;
      var tag := NormVer(r.tag);
      if tag == "" {
        if !bounded {
          out := out + [r];
        }
        continue;
      }
      if from != "" {
        var c := CompareSemver(tag, from);
        if c <= 0 {
          continue;
        }
      }
      if to != "" {
        var c := CompareSemver(tag, to);
        if c > 0 {
          continue;
        }
      }
      out := out + [r];
    }
    assert releases[..i] == releases;
    TagsAreOrdered();
    SortedArranges(TAGS, out);
    ArrangesSame(TAGS, StableSorted(TAGS, out), out);
    out := StableSorted(TAGS, out);
  }

  /** Main result: a range splits at any version in between, as sequences and not only
      as sets: the releases of (a, c] are those of (b, c] followed by those of (a, b]. */
  lemma RangesPartition(s: seq<Release>, a: string, b: string, c: string)
    requires a != "" && b != "" && c != "" && TagOrder(a, b) <= 0 && TagOrder(b, c) <= 0
    ensures Filtered(TAGS, s, a, c) == Filtered(TAGS, s, b, c) + Filtered(TAGS, s, a, b)
  {
    TagsAreOrdered();
    RangeSplits(TAGS, s, a, b, c);
  }

  /** A bound without a version is not like an empty one: as an upper bound it excludes
      everything, as a lower bound it excludes only tags without one, also where there
      is no upper bound. */
  lemma UnparseableBounds(s: seq<Release>, from: string, to: string)
    ensures to != "" && Read(to).None? ==> Filtered(TAGS, s, from, to) == []
    ensures from != "" && Read(from).None? && to != "" ==> Filtered(TAGS, s, from, to) == Filtered(TAGS, s, "", to)
    ensures from != "" && Read(from).None? && to == "" ==>
              Filtered(TAGS, s, from, to) == Filtered(TAGS, Versioned(TAGS, s), "", "")
  {
    TagsAreOrdered();
    if to != "" && Read(to).None? && Filtered(TAGS, s, from, to) != [] {
      FilteredIsWanted(TAGS, s, from, to, Filtered(TAGS, s, from, to)[0]);
    }
    if from != "" && Read(from).None? && to != "" {
      SameKept(TAGS, s, from, to, "", to);
    }
    if from != "" && Read(from).None? && to == "" {
      forall tag | TAGS.has(tag) ensures TAGS.cmp(from, tag) < 0 { TagOrderIsTotalPreorder(from, tag, tag); }
      KeptAbove(TAGS, s, from);
      AllKept(TAGS, Versioned(TAGS, s));
    }
  }
}

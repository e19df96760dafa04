/** The bounded byte ring behind the log views: it retains the last `cap` bytes
    appended to it, however they were cut into appends. */
module RingLog {
  const DEFAULT_CAP: nat := 0x40000

  type Byte = bv8

  /** The last `cap` bytes of `s`. */
  function Last(cap: nat, s: seq<Byte>): seq<Byte> {
    if |s| <= cap then s else s[|s| - cap..]
  }

  function Concat(parts: seq<seq<Byte>>): seq<Byte> {
    if parts == [] then [] else Concat(parts[..|parts| - 1]) + parts[|parts| - 1]
  }

  /** Forgetting early and late is the same as forgetting late. */
  lemma LastOfLast(cap: nat, s: seq<Byte>, t: seq<Byte>)
    ensures Last(cap, Last(cap, s) + t) == Last(cap, s + t)
  {
    if |s| > cap {
      var k := |s| - cap;
      assert s[k..] + t == (s + t)[k..];
      DropDrop(s + t, k, |t|);
    }
  }

  lemma DropDrop(s: seq<Byte>, k: nat, j: nat)
    requires k + j <= |s|
    ensures s[k..][j..] == s[k + j..]
  {
  }

  /** The ring goes on from what it holds. */
  lemma RingGrows(cap: nat, prior: seq<Byte>, out: seq<Byte>, chunk: seq<Byte>)
    ensures Last(cap, Last(cap, prior + out) + chunk) == Last(cap, prior + (out + chunk))
  {
    LastOfLast(cap, prior + out, chunk);
    assert prior + out + chunk == prior + (out + chunk);
  }

  class Ring {
    var buf: seq<Byte>
    const cap: nat

    ghost predicate Valid()
      reads this
    {
      0 < cap && |buf| <= cap
    }

    constructor (cap: int)
      ensures Valid() && buf == [] && this.cap == if cap <= 0 then DEFAULT_CAP else cap
    {
      this.cap := if cap <= 0 then DEFAULT_CAP else cap;
      buf := [];
    }

    method Append(s: seq<Byte>)
      requires Valid()
      modifies this
      ensures Valid() && buf == Last(cap, old(buf) + s)
    {
      buf := buf + s;
      if |buf| > cap {
        buf := buf[|buf| - cap..];
      }
    }

    /** Up to the last `max` bytes; a non-positive `max` means all of them. */
    method Tail(max: int) returns (b: seq<Byte>)
      requires Valid()
      ensures b == if max <= 0 then buf else Last(max, buf)
    {
      b := buf;
      if max > 0 && |b| > max {
        b := b[|b| - max..];
      }
    }
  }

  /** A ring holding `held` after the appends `parts`. */
  function Fed(cap: nat, held: seq<Byte>, parts: seq<seq<Byte>>): seq<Byte> {
    if parts == [] then Last(cap, held) else Last(cap, Fed(cap, held, parts[..|parts| - 1]) + parts[|parts| - 1])
  }

  lemma {:induction false} FedIsLast(cap: nat, held: seq<Byte>, parts: seq<seq<Byte>>)
    ensures Fed(cap, held, parts) == Last(cap, held + Concat(parts))
  {
    if parts == [] {
      assert held + [] == held;
    } else {
      var init, last := parts[..|parts| - 1], parts[|parts| - 1];
      FedIsLast(cap, held, init);
      LastOfLast(cap, held + Concat(init), last);
      assert held + Concat(parts) == held + Concat(init) + last;
    }
  }

  lemma LastTwice(a: nat, b: nat, s: seq<Byte>)
    ensures Last(a, Last(b, s)) == Last(if a < b then a else b, s)
  {
    if |s| > b && b > a { DropDrop(s, |s| - b, b - a); }
  }

  /** What a tail of the ring shows is the end of all that was ever appended, as long as
      it was asked for or as the ring holds. */
  lemma TailOfFed(cap: nat, held: seq<Byte>, parts: seq<seq<Byte>>, max: nat)
    ensures Last(max, Fed(cap, held, parts)) == Last(if max < cap then max else cap, held + Concat(parts))
  {
    FedIsLast(cap, held, parts);
    LastTwice(max, cap, held + Concat(parts));
  }

  /** How the pieces were cut does not show: only their concatenation counts. */
  lemma PiecesDoNotShow(cap: nat, held: seq<Byte>, parts: seq<seq<Byte>>, others: seq<seq<Byte>>)
    requires Concat(parts) == Concat(others)
    ensures Fed(cap, held, parts) == Fed(cap, held, others)
  {
    FedIsLast(cap, held, parts);
    FedIsLast(cap, held, others);
  }
}

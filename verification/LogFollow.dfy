/**
 The followers of the detached child's disk log: one loop per follow, the
 takeover of a running follower by the next one, flush requests, and writers that
 append at any moment.  The log is append-only; opening and reading it may fail.
*/
module LogFollow {
  import opened Wrappers
  import opened RingLog

  const MAX_CHUNK: nat := 0x10000

  /** Where a follower's loop is.  It is running until it has published its offset
      and cleared the registry (Removed), and then closes `done` (Closed). */
  datatype Phase = Sampling | Draining | Selecting | Leaving | Removed | Closed

  /** `off` is the field other goroutines read, `pos` the loop's own offset, `pid`
      the child it watches.  `ended` says that the loop left because the child was
      gone, `clean` that its last pass read up to the end of the file. */
  datatype Follower = Follower(
    pid: nat, chain: nat, off: nat, pos: nat, phase: Phase, alive: bool, stop: bool, ack: Option<nat>,
    ended: bool, clean: bool)

  /** The goroutine that follows: idle, with a start offset in hand, or waiting for
      the follower it stopped. */
  datatype Caller = Idle | Noted(from: nat, seeded: bool) | Waiting(prev: nat, pid: nat)

  /** A flush request that a follower accepted when the log was `size` long. */
  datatype Flush = Flush(follower: nat, size: nat, answer: Option<bool>)

  /** A chain is a fresh follow and the takeovers after it.  The current one, number
      `chain`, started at `base` with `prior` in the ring, and `out` is what it
      delivered since. */
  datatype State = State(
    log: seq<Byte>, gone: set<nat>, wrote: map<nat, nat>,
    fs: seq<Follower>, cur: Option<nat>, caller: Caller, flushes: seq<Flush>,
    ring: seq<Byte>, cap: nat,
    chain: nat, base: nat, prior: seq<Byte>, seeded: bool, out: seq<Byte>)

  function Start(cap: nat): State {
    State([], {}, map[], [], None, Idle, [], [], cap, 0, 0, [], false, [])
  }

  datatype Event =
    | Append(pid: nat, bytes: seq<Byte>)
    | Die(pid: nat)
    | Note                               // a spawn notes the size of the log
    | Seed                               // a reattach seeds the ring
    | Drop                               // the spawn failed: nothing to follow
    | Follow(pid: nat)
    | TakeOver
    | Sample(f: nat, alive: bool)
    | Read(f: nat, n: nat)
    | EndPass(f: nat, eof: bool)         // end of file, or an error
    | TakeStop(f: nat)
    | TakeFlush(f: nat)
    | Poll(f: nat)
    | Remove(f: nat)
    | CloseDone(f: nat)

  predicate Running(f: Follower) {
    !f.phase.Removed? && !f.phase.Closed?
  }

  predicate In(s: State, f: nat, phase: Phase) {
    f < |s.fs| && s.fs[f].phase == phase
  }

  predicate Enabled(s: State, e: Event) {
    match e
    case Append(p, _) => p !in s.gone
    case Die(_) => true
    case Note => s.caller.Idle?
    case Seed => s.caller.Idle? && s.fs == [] && s.ring == []   // a reattach is the first thing a daemon does
    case Drop => s.caller.Noted?
    case Follow(_) => s.caller.Noted?
    case TakeOver => s.caller.Waiting? && In(s, s.caller.prev, Closed)
    case Sample(f, alive) => In(s, f, Sampling) && (!alive ==> s.fs[f].pid in s.gone)
    case Read(f, n) => In(s, f, Draining) && 0 < n <= MAX_CHUNK && s.fs[f].pos + n <= |s.log|
    case EndPass(f, eof) => In(s, f, Draining) && (eof ==> s.fs[f].pos >= |s.log|)
    case TakeStop(f) => In(s, f, Selecting) && s.fs[f].stop
    case TakeFlush(f) => In(s, f, Selecting)
    case Poll(f) => In(s, f, Selecting)
    case Remove(f) => In(s, f, Leaving)
    case CloseDone(f) => In(s, f, Removed)
  }

  function NewFollower(pid: nat, chain: nat, from: nat): Follower {
    Follower(pid, chain, from, from, Sampling, true, false, None, false, false)
  }

  function Put(s: State, f: nat, v: Follower): State
    requires f < |s.fs|
  {
    s.(fs := s.fs[f := v])
  }

  function Spawned(s: State, pid: nat, from: nat): State {
    s.(fs := s.fs + [NewFollower(pid, s.chain, from)], cur := Some(|s.fs|), caller := Idle)
  }

  function OnFollow(s: State, pid: nat): State
    requires Enabled(s, Follow(pid))
  {
    if s.cur.Some? && s.cur.value < |s.fs| then
      Put(s, s.cur.value, s.fs[s.cur.value].(stop := true)).(caller := Waiting(s.cur.value, pid))
    else
      var s1 := Spawned(s.(chain := s.chain + 1), pid, s.caller.from);
      s1.(base := s.caller.from, prior := s.ring, seeded := s.caller.seeded, out := [])
  }

  function OnRead(s: State, f: nat, n: nat): State
    requires Enabled(s, Read(f, n))
  {
    var chunk := s.log[s.fs[f].pos..s.fs[f].pos + n];
    Put(s, f, s.fs[f].(pos := s.fs[f].pos + n)).(out := s.out + chunk, ring := Last(s.cap, s.ring + chunk))
  }

  function OnEndPass(s: State, f: nat, eof: bool): State
    requires Enabled(s, EndPass(f, eof))
  {
    var v := s.fs[f];
    var s1 := Put(s, f, v.(ack := None, clean := eof, ended := !v.alive,
                           phase := if v.alive then Selecting else Leaving));
    if v.ack.Some? && v.ack.value < |s.flushes| then
      s1.(flushes := s.flushes[v.ack.value := s.flushes[v.ack.value].(answer := Some(eof))])
    else s1
  }

  function SeedOf(log: seq<Byte>): seq<Byte> {
    Last(DEFAULT_CAP, log)
  }

  function Next(s: State, e: Event): State
    requires Enabled(s, e)
  {
    match e
    case Append(p, b) => s.(log := s.log + b, wrote := if b == [] then s.wrote else s.wrote[p := |s.log| + |b|])
    case Die(p) => s.(gone := s.gone + {p})
    case Note => s.(caller := Noted(|s.log|, false))
    case Seed => s.(ring := Last(s.cap, s.ring + SeedOf(s.log)), caller := Noted(|s.log|, true))
    case Drop => s.(caller := Idle)
    case Follow(p) => OnFollow(s, p)
    case TakeOver => Spawned(s, s.caller.pid, s.fs[s.caller.prev].off)
    case Sample(f, alive) => Put(s, f, s.fs[f].(alive := alive, phase := Draining))
    case Read(f, n) => OnRead(s, f, n)
    case EndPass(f, eof) => OnEndPass(s, f, eof)
    case TakeStop(f) => Put(s, f, s.fs[f].(phase := Leaving))
    case TakeFlush(f) =>
      var s1 := Put(s, f, s.fs[f].(phase := Sampling, ack := Some(|s.flushes|)));
      s1.(flushes := s.flushes + [Flush(f, |s.log|, None)])
    case Poll(f) => Put(s, f, s.fs[f].(phase := Sampling))
    case Remove(f) =>
      Put(s, f, s.fs[f].(off := s.fs[f].pos, phase := Removed)).(cur := if s.cur == Some(f) then None else s.cur)
    case CloseDone(f) => Put(s, f, s.fs[f].(phase := Closed))
  }

  predicate Run(s: State, es: seq<Event>, t: State)
    decreases |es|
  {
    if es == [] then s == t else Enabled(s, es[0]) && Run(Next(s, es[0]), es[1..], t)
  }

  // ----- the invariant ------------------------------------------------------------------

  /** All that the child `p` ever wrote lies before `end`. */
  predicate AllWritten(s: State, p: nat, end: nat) {
    p in s.gone && (p in s.wrote ==> s.wrote[p] <= end)
  }

  ghost predicate FollowerOk(s: State, i: nat)
    requires i < |s.fs|
  {
    var f := s.fs[i];
    && (i + 1 < |s.fs| ==> !Running(f))
    && (!Running(f) ==> f.off == f.pos)
    && f.off <= f.pos <= |s.log|
    && f.chain <= s.chain && (f.chain == s.chain ==> f.pos <= s.fs[|s.fs| - 1].pos)
    && (f.phase.Draining? && !f.alive ==> f.pid in s.gone)
    && (f.ended ==> f.pid in s.gone && !f.phase.Sampling? && !f.phase.Draining? && !f.phase.Selecting?)
    && (f.ended && f.clean ==> AllWritten(s, f.pid, f.pos))
    && (f.ack.Some? ==> f.ack.value < |s.flushes| && s.flushes[f.ack.value].follower == i)
  }

  ghost predicate FlushOk(s: State, k: nat)
    requires k < |s.flushes|
  {
    var r := s.flushes[k];
    && r.follower < |s.fs| && r.size <= |s.log|
    && (r.answer == Some(true) ==> r.size <= s.fs[r.follower].pos)
  }

  /** What the current chain delivered, and what the ring made of it. */
  ghost predicate ChainOk(s: State) {
    && (s.fs == [] ==> s.cur.None? && s.out == [])
    && (s.fs != [] ==>
          var pos := s.fs[|s.fs| - 1].pos;
          && s.fs[|s.fs| - 1].chain == s.chain && s.base <= pos <= |s.log|
          && s.out == s.log[s.base..pos] && s.ring == Last(s.cap, s.prior + s.out)
          && (s.cap <= DEFAULT_CAP && s.seeded ==> s.prior == Last(s.cap, s.log[..s.base])))
  }

  ghost predicate CallerOk(s: State) {
    && (s.fs == [] ==> s.cur.None?)
    && (s.fs != [] ==> s.cur == if Running(s.fs[|s.fs| - 1]) then Some(|s.fs| - 1) else None)
    && (s.caller.Waiting? ==> s.fs != [] && s.caller.prev == |s.fs| - 1 && s.fs[s.caller.prev].stop)
    && (s.caller.Noted? ==> s.caller.from <= |s.log|)
    && (s.caller.Noted? && s.caller.seeded ==>
          s.fs == [] && (s.cap <= DEFAULT_CAP ==> s.ring == Last(s.cap, s.log[..s.caller.from])))
    && |s.ring| <= s.cap
  }

  ghost predicate WritersOk(s: State) {
    forall p :: p in s.wrote ==> s.wrote[p] <= |s.log|
  }

  ghost predicate Inv(s: State) {
    && (forall i :: 0 <= i < |s.fs| ==> FollowerOk(s, i))
    && (forall k :: 0 <= k < |s.flushes| ==> FlushOk(s, k))
    && ChainOk(s) && CallerOk(s) && WritersOk(s)
  }

  // ----- every step keeps the invariant ---------------------------------------------------

  lemma StartOk(cap: nat)
    ensures Inv(Start(cap))
  {
  }

  /** A step that only moves one follower within its loop. */
  lemma MoveKeeps(s: State, f: nat, v: Follower)
    requires Inv(s) && f < |s.fs|
    requires v.pos == s.fs[f].pos && v.chain == s.fs[f].chain
    requires (Running(v) <==> Running(s.fs[f])) && (s.fs[f].stop ==> v.stop)
    requires FollowerOk(Put(s, f, v), f)
    ensures Inv(Put(s, f, v))
  {
    var t := Put(s, f, v);
    forall i | 0 <= i < |t.fs| ensures FollowerOk(t, i) { assert FollowerOk(s, i); }
    forall k | 0 <= k < |t.flushes| ensures FlushOk(t, k) { assert FlushOk(s, k); }
  }

  lemma AppendKeeps(s: State, p: nat, b: seq<Byte>)
    requires Inv(s) && Enabled(s, Append(p, b))
    ensures Inv(Next(s, Append(p, b)))
  {
    var t := Next(s, Append(p, b));
    forall i | 0 <= i < |t.fs| ensures FollowerOk(t, i) { assert FollowerOk(s, i); }
    forall k | 0 <= k < |t.flushes| ensures FlushOk(t, k) { assert FlushOk(s, k); }
    if s.fs != [] {
      var pos := s.fs[|s.fs| - 1].pos;
      assert t.log[t.base..pos] == s.log[s.base..pos];
      assert t.log[..t.base] == s.log[..s.base];
    }
    if s.caller.Noted? {
      assert t.log[..s.caller.from] == s.log[..s.caller.from];
    }
  }

  lemma CallerEventKeeps(s: State, e: Event)
    requires Inv(s) && Enabled(s, e) && (e.Die? || e.Note? || e.Seed? || e.Drop?)
    ensures Inv(Next(s, e))
  {
    var t := Next(s, e);
    forall i | 0 <= i < |t.fs| ensures FollowerOk(t, i) { assert FollowerOk(s, i); }
    forall k | 0 <= k < |t.flushes| ensures FlushOk(t, k) { assert FlushOk(s, k); }
    if e.Seed? {
      assert s.ring + SeedOf(s.log) == [] + SeedOf(s.log) == SeedOf(s.log);
      assert s.log[..|s.log|] == s.log;
      if s.cap <= DEFAULT_CAP { SeedSuffices(s.cap, s.log); }
    }
  }

  lemma SeedSuffices(cap: nat, log: seq<Byte>)
    requires cap <= DEFAULT_CAP
    ensures Last(cap, SeedOf(log)) == Last(cap, log)
  {
    LastOfLast(cap, [], log);
    if |log| > DEFAULT_CAP {
      assert SeedOf(log)[DEFAULT_CAP - cap..] == log[|log| - cap..];
    }
  }

  /** Adding a follower at the position where the chain stands, or starting a chain. */
  lemma SpawnedKeeps(s: State, pid: nat, from: nat)
    requires Inv(s) && s.cur.None? && from <= |s.log|
    requires s.fs != [] && s.fs[|s.fs| - 1].pos == from
    ensures Inv(Spawned(s, pid, from))
  {
    var t := Spawned(s, pid, from);
    forall i | 0 <= i < |t.fs| ensures FollowerOk(t, i) {
      if i < |s.fs| { assert FollowerOk(s, i); assert t.fs[i] == s.fs[i]; }
    }
    forall k | 0 <= k < |t.flushes| ensures FlushOk(t, k) { assert FlushOk(s, k); }
  }

  lemma FreshKeeps(s: State, pid: nat)
    requires Inv(s) && Enabled(s, Follow(pid)) && s.cur.None?
    ensures Inv(OnFollow(s, pid))
  {
    var t := OnFollow(s, pid);
    forall i | 0 <= i < |t.fs| ensures FollowerOk(t, i) {
      if i < |s.fs| { assert FollowerOk(s, i); assert t.fs[i] == s.fs[i]; }
    }
    forall k | 0 <= k < |t.flushes| ensures FlushOk(t, k) { assert FlushOk(s, k); }
    assert s.ring + [] == s.ring;
  }

  lemma FollowKeeps(s: State, pid: nat)
    requires Inv(s) && Enabled(s, Follow(pid))
    ensures Inv(OnFollow(s, pid))
  {
    if s.cur.None? {
      FreshKeeps(s, pid);
    } else {
      var p := s.cur.value;
      assert FollowerOk(s, p);
      var s1 := Put(s, p, s.fs[p].(stop := true));
      MoveKeeps(s, p, s.fs[p].(stop := true));
      var t := OnFollow(s, pid);
      forall i | 0 <= i < |t.fs| ensures FollowerOk(t, i) { assert FollowerOk(s1, i); }
      forall k | 0 <= k < |t.flushes| ensures FlushOk(t, k) { assert FlushOk(s1, k); }
    }
  }

  lemma SliceGrows(log: seq<Byte>, base: nat, pos: nat, n: nat)
    requires base <= pos && pos + n <= |log|
    ensures log[base..pos] + log[pos..pos + n] == log[base..pos + n]
  {
  }

  /** A chunk continues what the chain delivered. */
  lemma ChunkContinues(log: seq<Byte>, base: nat, pos: nat, n: nat, out: seq<Byte>, prior: seq<Byte>, cap: nat)
    requires base <= pos && pos + n <= |log| && out == log[base..pos]
    ensures out + log[pos..pos + n] == log[base..pos + n]
    ensures Last(cap, Last(cap, prior + out) + log[pos..pos + n]) == Last(cap, prior + (out + log[pos..pos + n]))
  {
    SliceGrows(log, base, pos, n);
    RingGrows(cap, prior, out, log[pos..pos + n]);
  }

  lemma ReadKeepsChain(s: State, f: nat, n: nat)
    requires ChainOk(s) && Enabled(s, Read(f, n)) && f == |s.fs| - 1
    ensures ChainOk(OnRead(s, f, n))
  {
    ChunkContinues(s.log, s.base, s.fs[f].pos, n, s.out, s.prior, s.cap);
    assert Newest(OnRead(s, f, n)) == s.fs[f].(pos := s.fs[f].pos + n);
  }

  lemma ReadKeeps(s: State, f: nat, n: nat)
    requires Inv(s) && Enabled(s, Read(f, n))
    ensures Inv(OnRead(s, f, n))
  {
    var t := OnRead(s, f, n);
    assert FollowerOk(s, f);
    assert f == |s.fs| - 1;
    ReadKeepsChain(s, f, n);
    forall i | 0 <= i < |t.fs| ensures FollowerOk(t, i) { assert FollowerOk(s, i); }
    forall k | 0 <= k < |t.flushes| ensures FlushOk(t, k) { assert FlushOk(s, k); }
  }

  lemma EndPassKeeps(s: State, f: nat, eof: bool)
    requires Inv(s) && Enabled(s, EndPass(f, eof))
    ensures Inv(OnEndPass(s, f, eof))
  {
    var t := OnEndPass(s, f, eof);
    assert FollowerOk(s, f);
    forall i | 0 <= i < |t.fs| ensures FollowerOk(t, i) { assert FollowerOk(s, i); }
    forall k | 0 <= k < |t.flushes| ensures FlushOk(t, k) { assert FlushOk(s, k); }
  }

  lemma TakeFlushKeeps(s: State, f: nat)
    requires Inv(s) && Enabled(s, TakeFlush(f))
    ensures Inv(Next(s, TakeFlush(f)))
  {
    var t := Next(s, TakeFlush(f));
    forall i | 0 <= i < |t.fs| ensures FollowerOk(t, i) { assert FollowerOk(s, i); }
    forall k | 0 <= k < |t.flushes| ensures FlushOk(t, k) {
      if k < |s.flushes| { assert FlushOk(s, k); assert t.flushes[k] == s.flushes[k]; }
    }
  }

  lemma RemoveKeeps(s: State, f: nat)
    requires Inv(s) && Enabled(s, Remove(f))
    ensures Inv(Next(s, Remove(f)))
  {
    var t := Next(s, Remove(f));
    assert FollowerOk(s, f);
    forall i | 0 <= i < |t.fs| ensures FollowerOk(t, i) { assert FollowerOk(s, i); }
    forall k | 0 <= k < |t.flushes| ensures FlushOk(t, k) { assert FlushOk(s, k); }
  }

  lemma StepKeeps(s: State, e: Event)
    requires Inv(s) && Enabled(s, e)
    ensures Inv(Next(s, e))
  {
    match e {
      case Append(p, b) => AppendKeeps(s, p, b);
      case Follow(p) => FollowKeeps(s, p);
      case TakeOver =>
        assert FollowerOk(s, s.caller.prev);
        SpawnedKeeps(s, s.caller.pid, s.fs[s.caller.prev].off);
      case Read(f, n) => ReadKeeps(s, f, n);
      case EndPass(f, eof) => EndPassKeeps(s, f, eof);
      case TakeFlush(f) => TakeFlushKeeps(s, f);
      case Remove(f) => RemoveKeeps(s, f);
      case Sample(f, alive) =>
        assert FollowerOk(s, f);
        MoveKeeps(s, f, s.fs[f].(alive := alive, phase := Draining));
      case TakeStop(f) =>
        assert FollowerOk(s, f);
        MoveKeeps(s, f, s.fs[f].(phase := Leaving));
      case Poll(f) =>
        assert FollowerOk(s, f);
        MoveKeeps(s, f, s.fs[f].(phase := Sampling));
      case CloseDone(f) =>
        assert FollowerOk(s, f);
        MoveKeeps(s, f, s.fs[f].(phase := Closed));
      case _ => CallerEventKeeps(s, e);
    }
  }

  lemma {:induction false} RunKeeps(s: State, es: seq<Event>, t: State)
    requires Inv(s) && Run(s, es, t)
    ensures Inv(t)
    decreases |es|
  {
    if es != [] {
      StepKeeps(s, es[0]);
      RunKeeps(Next(s, es[0]), es[1..], t);
    }
  }

  // ----- main results -----------------------------------------------------------------------

  function Newest(s: State): Follower
    requires s.fs != []
  {
    s.fs[|s.fs| - 1]
  }

  lemma ReachedOk(cap: nat, es: seq<Event>, s: State)
    requires Run(Start(cap), es, s)
    ensures Inv(s)
  {
    StartOk(cap);
    RunKeeps(Start(cap), es, s);
  }

  /** At most one follower runs, and it is the registered one. */
  lemma OneRunning(cap: nat, es: seq<Event>, s: State, i: nat)
    requires Run(Start(cap), es, s) && i < |s.fs| && Running(s.fs[i])
    ensures s.cur == Some(i) && forall j :: 0 <= j < |s.fs| && j != i ==> !Running(s.fs[j])
  {
    ReachedOk(cap, es, s);
    forall j | 0 <= j < |s.fs| && j != i ensures !Running(s.fs[j]) {
      assert FollowerOk(s, i) && FollowerOk(s, j);
    }
    assert FollowerOk(s, i);
  }

  /** Exactly once: what a chain delivered is one slice of the log, from where its
      first follower started to where the newest one stands. */
  lemma ExactlyOnce(cap: nat, es: seq<Event>, s: State)
    requires Run(Start(cap), es, s) && s.fs != []
    ensures s.base <= Newest(s).pos <= |s.log|
    ensures s.out == s.log[s.base..Newest(s).pos]
    ensures s.ring == Last(cap, s.prior + s.log[s.base..Newest(s).pos])
  {
    ReachedOk(cap, es, s);
    CapKept(Start(cap), es, s);
  }

  lemma {:induction false} CapKept(s: State, es: seq<Event>, t: State)
    requires Run(s, es, t)
    ensures t.cap == s.cap
    decreases |es|
  {
    if es != [] { CapKept(Next(s, es[0]), es[1..], t); }
  }

  /** A stretch in which every follow found a follower to take over from. */
  predicate TakeoverRun(s: State, es: seq<Event>, t: State)
    decreases |es|
  {
    if es == [] then s == t
    else Enabled(s, es[0]) && (es[0].Follow? ==> s.cur.Some?) && TakeoverRun(Next(s, es[0]), es[1..], t)
  }

  predicate Grown(s: State, t: State) {
    s.log <= t.log && s.out <= t.out && t.base == s.base && t.chain == s.chain && t.fs != []
  }

  lemma TakeoverStep(s: State, e: Event)
    requires Inv(s) && s.fs != [] && Enabled(s, e) && (e.Follow? ==> s.cur.Some?)
    ensures Grown(s, Next(s, e))
  {
  }

  /** Any number of takeovers later the same slice has only grown: no byte was
      delivered twice and none was skipped where one follower stopped and the next
      began. */
  lemma {:induction false} TakeoversAddUp(s: State, es: seq<Event>, t: State)
    requires Inv(s) && s.fs != [] && TakeoverRun(s, es, t)
    ensures Inv(t) && Grown(s, t)
    ensures t.out == s.out + t.log[Newest(s).pos..Newest(t).pos]
    decreases |es|
  {
    if es == [] {
      assert s.out == s.out + s.log[Newest(s).pos..Newest(s).pos];
    } else {
      var v := Next(s, es[0]);
      StepKeeps(s, es[0]);
      TakeoverStep(s, es[0]);
      TakeoversAddUp(v, es[1..], t);
      Continued(s, t);
    }
  }

  lemma Continued(s: State, t: State)
    requires Inv(s) && Inv(t) && s.fs != [] && Grown(s, t)
    ensures Newest(s).pos <= Newest(t).pos <= |t.log|
    ensures t.out == s.out + t.log[Newest(s).pos..Newest(t).pos]
  {
    var m, n := Newest(s).pos, Newest(t).pos;
    assert |s.out| == m - s.base && |t.out| == n - s.base;
    assert t.log[..|s.log|] == s.log;
    assert s.out == t.log[s.base..m];
    assert t.log[s.base..n] == t.log[s.base..m] + t.log[m..n];
  }

  // ----- a respawn: the size is noted, the child started, the follow issued -----------------

  /** All that was delivered since `t.base` when the follow issued at `t` has led to `u`. */
  function Delivered(t: State, u: State): seq<Byte> {
    if t.cur.Some? then u.out else t.out + u.out
  }

  ghost predicate OneSlice(t: State, u: State) {
    && u.fs != [] && t.base <= Newest(u).pos <= |u.log|
    && Delivered(t, u) == u.log[t.base..Newest(u).pos]
  }

  /** Whatever happens after the follow, short of another fresh one, the bytes are
      those of one slice of the log: none twice and none skipped. */
  ghost predicate Joins(t: State, pid: nat)
    requires Enabled(t, Follow(pid))
  {
    forall more, u :: TakeoverRun(OnFollow(t, pid), more, u) ==> OneSlice(t, u)
  }

  /** In the stretch `es` from `s` some read ended at `m` or beyond. */
  predicate ReadTo(s: State, es: seq<Event>, m: nat)
    decreases |es|
  {
    && es != [] && Enabled(s, es[0])
    && ((es[0].Read? && s.fs[es[0].f].pos + es[0].n >= m) || ReadTo(Next(s, es[0]), es[1..], m))
  }

  /** The size of the log when the last pass of the stretch ended, if one did. */
  function LastPassSize(s: State, es: seq<Event>): Option<nat>
    decreases |es|
  {
    if es == [] || !Enabled(s, es[0]) then None
    else
      var rest := LastPassSize(Next(s, es[0]), es[1..]);
      if rest.Some? then rest else if es[0].EndPass? then Some(|s.log|) else None
  }

  /** Between the note and the follow nothing is followed and the note is kept. */
  predicate Between(es: seq<Event>) {
    forall k :: 0 <= k < |es| ==> !es[k].Drop? && !es[k].Follow?
  }

  lemma BetweenTail(es: seq<Event>)
    requires Between(es) && es != []
    ensures !es[0].Drop? && !es[0].Follow? && Between(es[1..])
  {
    forall k | 0 <= k < |es[1..]| ensures !es[1..][k].Drop? && !es[1..][k].Follow? { assert es[1..][k] == es[k + 1]; }
  }

  lemma BetweenStep(s: State, e: Event)
    requires Inv(s) && s.fs != [] && s.caller.Noted? && Enabled(s, e) && !e.Drop? && !e.Follow?
    ensures var v := Next(s, e);
            && |v.fs| == |s.fs| && v.caller == s.caller && s.log <= v.log && v.base == s.base
            && Newest(v).pos == Newest(s).pos + (if e.Read? then e.n else 0)
            && (e.Read? ==> e.f == |s.fs| - 1)
  {
    if e.Read? { assert FollowerOk(s, e.f); }
  }

  lemma {:induction false} BetweenKeeps(s: State, es: seq<Event>, t: State, m: nat)
    requires Inv(s) && s.fs != [] && s.caller.Noted? && Between(es) && Run(s, es, t)
    ensures Inv(t) && |t.fs| == |s.fs| && t.caller == s.caller && s.log <= t.log && t.base == s.base
    ensures Newest(t).pos >= m <==> Newest(s).pos >= m || ReadTo(s, es, m)
    ensures Newest(t).pos >= Newest(s).pos
    decreases |es|
  {
    if es != [] {
      BetweenTail(es);
      StepKeeps(s, es[0]);
      BetweenStep(s, es[0]);
      BetweenKeeps(Next(s, es[0]), es[1..], t, m);
    }
  }

  /** Joining comes down to where the old follower stood. */
  lemma JoinsByPosition(t: State, pid: nat)
    requires Inv(t) && t.fs != [] && Enabled(t, Follow(pid)) && t.base <= t.caller.from
    ensures Joins(t, pid) <==> t.cur.Some? || Newest(t).pos == t.caller.from
  {
    var v := OnFollow(t, pid);
    FollowKeeps(t, pid);
    forall more, u | TakeoverRun(v, more, u) && (t.cur.Some? || Newest(t).pos == t.caller.from) ensures OneSlice(t, u) {
      TakeoversAddUp(v, more, u);
      if t.cur.None? { SliceJoins(t, v, u); }
    }
    if t.cur.None? {
      assert TakeoverRun(v, [], v);
      assert OneSlice(t, v) ==> |t.out + v.out| == t.caller.from - t.base;
    }
  }

  lemma SliceJoins(t: State, v: State, u: State)
    requires Inv(t) && Inv(u) && t.fs != [] && u.fs != [] && t.log <= u.log && u.base == Newest(t).pos
    ensures t.base <= Newest(u).pos <= |u.log|
    ensures t.out + u.out == u.log[t.base..Newest(u).pos]
  {
    var p, q := Newest(t).pos, Newest(u).pos;
    assert t.log[t.base..p] == u.log[..|t.log|][t.base..p] == u.log[t.base..p];
    assert u.log[t.base..p] + u.log[p..q] == u.log[t.base..q];
  }

  /** Main result: a respawn delivers every byte once exactly when the follow still
      finds the old follower, or that one's reads had come to the noted size and none
      of them went beyond. */
  lemma RespawnJoins(s: State, pid: nat, es: seq<Event>, t: State)
    requires Inv(s) && s.fs != [] && Enabled(s, Note) && Run(Next(s, Note), es, t) && Between(es)
    ensures var v, size := Next(s, Note), |s.log|;
            && Enabled(t, Follow(pid))
            && (Joins(t, pid) <==>
                  || t.cur.Some?
                  || ((Newest(s).pos == size || ReadTo(v, es, size)) && !ReadTo(v, es, size + 1)))
  {
    var v, size := Next(s, Note), |s.log|;
    StepKeeps(s, Note);
    BetweenKeeps(v, es, t, size);
    BetweenKeeps(v, es, t, size + 1);
    JoinsByPosition(t, pid);
  }

  /** What the last pass left, once the follower no longer runs. */
  lemma {:induction false} LastPassDecides(s: State, es: seq<Event>, t: State)
    requires Inv(s) && s.fs != [] && s.caller.Noted? && Between(es) && Run(s, es, t)
    requires t.fs != [] && !Running(Newest(t))
    ensures LastPassSize(s, es).None? ==>
              && Newest(t).pos == Newest(s).pos && Newest(t).clean == Newest(s).clean
              && !Newest(s).phase.Sampling? && !Newest(s).phase.Draining?
    ensures LastPassSize(s, es).Some? && Newest(t).clean ==> Newest(t).pos == LastPassSize(s, es).value
    decreases |es|
  {
    if es != [] {
      BetweenTail(es);
      StepKeeps(s, es[0]);
      BetweenStep(s, es[0]);
      LastPassDecides(Next(s, es[0]), es[1..], t);
      if OfFollower(es[0]) { assert FollowerOk(s, es[0].f); }
    }
  }

  predicate OfFollower(e: Event) {
    e.Sample? || e.Read? || e.EndPass? || e.TakeStop? || e.TakeFlush? || e.Poll? || e.Remove? || e.CloseDone?
  }

  /** And without a read error in the old follower's last pass: when it ended that
      pass after the note, exactly when the log had not grown by then; when before,
      exactly when the log has not grown since. */
  lemma CleanRespawnJoins(s: State, pid: nat, es: seq<Event>, t: State)
    requires Inv(s) && s.fs != [] && Enabled(s, Note) && Run(Next(s, Note), es, t) && Between(es)
    requires t.fs != [] && t.cur.None? && Newest(t).clean
    ensures var last := LastPassSize(Next(s, Note), es);
            && Enabled(t, Follow(pid))
            && (Joins(t, pid) <==> if last.Some? then last.value == |s.log| else Newest(s).pos == |s.log|)
  {
    var v := Next(s, Note);
    StepKeeps(s, Note);
    BetweenKeeps(v, es, t, 0);
    LastPassDecides(v, es, t);
    JoinsByPosition(t, pid);
  }

  /** Both sides of that condition fail in runs from the start.  The old follower may
      make its final pass after the note, and read what the new child wrote. */
  lemma RespawnMayRepeat(b: Byte) returns (es: seq<Event>, s: State)
    ensures Run(Start(DEFAULT_CAP), es, s)
    ensures s.log == [b] && s.ring == [b, b]
  {
    es, s := Overtaken(b);
    es, s := Then(es, s, Follow(2));
    es, s := Then(es, s, Sample(1, true));
    es, s := Then(es, s, Read(1, 1));
  }

  /** Or its final pass may come before a byte that another writer adds, a process that
      the old child left behind, and then the note is past that byte. */
  lemma RespawnMaySkip(b: Byte) returns (es: seq<Event>, s: State)
    ensures Run(Start(DEFAULT_CAP), es, s)
    ensures s.log == [b] && s.ring == [] && s.fs != [] && Newest(s).pos == 1 && s.cur.Some?
  {
    es, s := EndedEarly();
    es, s := Then(es, s, Append(2, [b]));
    es, s := Then(es, s, Note);
    es, s := Then(es, s, Follow(3));
  }

  /** The follower of child 1 has ended and nobody is registered. */
  lemma EndedEarly() returns (es: seq<Event>, s: State)
    ensures Run(Start(DEFAULT_CAP), es, s)
    ensures s.log == [] && s.ring == [] && s.cur.None? && s.caller.Idle? && |s.fs| == 1 && s.gone == {1}
    ensures s.cap == DEFAULT_CAP
  {
    es, s := Begun();
    es, s := Then(es, s, Drop);
    es, s := Then(es, s, Poll(0));
    es, s := Then(es, s, Sample(0, false));
    es, s := Then(es, s, EndPass(0, true));
    es, s := Then(es, s, Remove(0));
  }

  /** The final pass read the new child's first byte. */
  lemma Overtaken(b: Byte) returns (es: seq<Event>, s: State)
    ensures Run(Start(DEFAULT_CAP), es, s)
    ensures s.log == [b] && s.ring == [b] && s.cur.None? && s.caller == Noted(0, false)
    ensures |s.fs| == 1 && s.cap == DEFAULT_CAP && s.gone == {1}
  {
    es, s := LastPass(b);
    es, s := Then(es, s, Read(0, 1));
    es, s := Then(es, s, EndPass(0, true));
    es, s := Then(es, s, Remove(0));
  }

  lemma LastPass(b: Byte) returns (es: seq<Event>, s: State)
    ensures Run(Start(DEFAULT_CAP), es, s)
    ensures s == Start(DEFAULT_CAP).(log := [b], wrote := map[2 := 1], gone := {1}, cur := Some(0),
                                     caller := Noted(0, false),
                                     chain := 1,
                                     fs := [Follower(1, 1, 0, 0, Draining, false, false, None, false, true)])
  {
    es, s := Begun();
    es, s := Then(es, s, Append(2, [b]));
    es, s := Then(es, s, Poll(0));
    es, s := Then(es, s, Sample(0, false));
  }

  /** A follower of child 1 waits, the child is gone, and a respawn notes the size. */
  lemma Begun() returns (es: seq<Event>, s: State)
    ensures Run(Start(DEFAULT_CAP), es, s)
    ensures s == Start(DEFAULT_CAP).(gone := {1}, chain := 1,
                                     fs := [Follower(1, 1, 0, 0, Selecting, true, false, None, false, true)],
                                     cur := Some(0), caller := Noted(0, false))
  {
    es, s := [], Start(DEFAULT_CAP);
    es, s := Then(es, s, Note);
    es, s := Then(es, s, Follow(1));
    es, s := Then(es, s, Sample(0, true));
    es, s := Then(es, s, EndPass(0, true));
    es, s := Then(es, s, Die(1));
    es, s := Then(es, s, Note);
  }

  lemma Then(es: seq<Event>, s: State, e: Event) returns (es': seq<Event>, s': State)
    requires Run(Start(DEFAULT_CAP), es, s) && Enabled(s, e)
    ensures es' == es + [e] && s' == Next(s, e) && Run(Start(DEFAULT_CAP), es', s')
  {
    es', s' := es + [e], Next(s, e);
    RunThen(Start(DEFAULT_CAP), es, s, e);
  }

  lemma {:induction false} RunThen(s: State, es: seq<Event>, t: State, e: Event)
    requires Run(s, es, t) && Enabled(t, e)
    ensures Run(s, es + [e], Next(t, e))
    decreases |es|
  {
    if es == [] {
      assert (es + [e])[1..] == [];
    } else {
      assert (es + [e])[1..] == es[1..] + [e];
      RunThen(Next(s, es[0]), es[1..], t, e);
    }
  }

  // ----- flushes and final passes -------------------------------------------------------------

  lemma {:induction false} FlushKept(s: State, es: seq<Event>, t: State, k: nat)
    requires Run(s, es, t) && k < |s.flushes|
    ensures s.log <= t.log && k < |t.flushes|
    ensures t.flushes[k].size == s.flushes[k].size && t.flushes[k].follower == s.flushes[k].follower
    decreases |es|
  {
    if es != [] { FlushKept(Next(s, es[0]), es[1..], t, k); }
  }

  /** An acknowledged flush, unless its pass met a read error, has everything that
      was in the log when the follower accepted it: that follower is past it, and its
      chain, however often it was taken over since, has delivered it. */
  lemma FlushDelivers(s: State, f: nat, es: seq<Event>, t: State)
    requires Inv(s) && Enabled(s, TakeFlush(f)) && Run(Next(s, TakeFlush(f)), es, t)
    requires |s.flushes| < |t.flushes| && t.flushes[|s.flushes|].answer == Some(true)
    ensures s.log <= t.log && f < |t.fs| && |s.log| <= t.fs[f].pos <= |t.log|
    ensures t.fs[f].chain == t.chain && t.base <= |s.log| ==> s.log[t.base..] <= t.out
  {
    var v := Next(s, TakeFlush(f));
    var k := |s.flushes|;
    StepKeeps(s, TakeFlush(f));
    RunKeeps(v, es, t);
    FlushKept(v, es, t, k);
    assert FlushOk(t, k) && FollowerOk(t, f);
    if t.fs[f].chain == t.chain && t.base <= |s.log| {
      assert t.log[..|s.log|] == s.log;
      assert t.out[..|s.log| - t.base] == t.log[t.base..|s.log|];
    }
  }

  /** A follower that ended because its child was gone, with a last pass that met no
      error, delivered all that the child ever wrote: nothing later changes that. */
  lemma FinalPassIsComplete(cap: nat, es: seq<Event>, s: State, more: seq<Event>, t: State, i: nat)
    requires Run(Start(cap), es, s) && Run(s, more, t)
    requires i < |s.fs| && s.fs[i].ended && s.fs[i].clean
    ensures i < |t.fs| && t.fs[i].pos == s.fs[i].pos
    ensures AllWritten(t, s.fs[i].pid, s.fs[i].pos)
  {
    ReachedOk(cap, es, s);
    EndedStays(s, more, t, i);
  }

  lemma {:induction false} EndedStays(s: State, es: seq<Event>, t: State, i: nat)
    requires Inv(s) && Run(s, es, t) && i < |s.fs| && s.fs[i].ended && s.fs[i].clean
    ensures i < |t.fs| && t.fs[i].pos == s.fs[i].pos && AllWritten(t, s.fs[i].pid, s.fs[i].pos)
    decreases |es|
  {
    assert FollowerOk(s, i);
    if es != [] {
      var v := Next(s, es[0]);
      StepKeeps(s, es[0]);
      EndedStep(s, es[0], i);
      EndedStays(v, es[1..], t, i);
    }
  }

  lemma EndedStep(s: State, e: Event, i: nat)
    requires Inv(s) && Enabled(s, e) && i < |s.fs| && s.fs[i].ended && s.fs[i].clean
    ensures var v := Next(s, e);
            i < |v.fs| && v.fs[i].ended && v.fs[i].clean && v.fs[i].pos == s.fs[i].pos && v.fs[i].pid == s.fs[i].pid
  {
    assert FollowerOk(s, i);
  }

  // ----- the ring after a reattach -------------------------------------------------------------

  /** The seed is what a ring of capacity `cap` would hold of the whole log exactly
      when the log or the ring is no longer than the seed. */
  lemma SeedIsTail(cap: nat, log: seq<Byte>)
    ensures Last(cap, SeedOf(log)) == Last(cap, log) <==> cap <= DEFAULT_CAP || |log| <= DEFAULT_CAP
  {
    if cap <= DEFAULT_CAP { SeedSuffices(cap, log); }
  }

  /** After a reattach the ring is at every moment the end of the log read so far,
      as if the daemon had never been away. */
  lemma ReattachedRingIsTail(cap: nat, es: seq<Event>, s: State)
    requires Run(Start(cap), es, s) && cap <= DEFAULT_CAP && s.fs != [] && s.seeded
    ensures Newest(s).pos <= |s.log| && s.ring == Last(cap, s.log[..Newest(s).pos])
  {
    ReachedOk(cap, es, s);
    CapKept(Start(cap), es, s);
    var pos := Newest(s).pos;
    LastOfLast(cap, s.log[..s.base], s.out);
    assert s.log[..s.base] + s.log[s.base..pos] == s.log[..pos];
  }

  /** A chain that a reattach began stays one: only a fresh follow starts another. */
  lemma {:induction false} SeededStays(s: State, es: seq<Event>, t: State)
    requires Inv(s) && s.fs != [] && s.seeded && TakeoverRun(s, es, t)
    ensures t.seeded && t.fs != []
    decreases |es|
  {
    if es != [] {
      StepKeeps(s, es[0]);
      SeededStays(Next(s, es[0]), es[1..], t);
    }
  }
}

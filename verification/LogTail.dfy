/**
 The follower's code in its own form.  A Tails object holds the state of LogFollow;
 every effect of a function is one `Do` of an event that is possible there, and
 between two of them `Others` lets writers, children and other goroutines take any
 number of steps.  A bound given as `patience` or `turns` stands for how long the
 rest of the system goes on; nothing is assumed about it.  `mayFail` says whether
 opening or reading the log may fail, `lingers` whether something may still answer for
 a pid whose process is gone: a zombie, or another process with that pid.
*/
module LogTail {
  import opened Wrappers
  import opened RingLog
  import opened LogFollow

  ghost predicate Reachable(s: State) {
    exists es :: Run(Start(s.cap), es, s)
  }

  lemma ReachableOk(s: State)
    requires Reachable(s)
    ensures Inv(s)
  {
    var es :| Run(Start(s.cap), es, s);
    ReachedOk(s.cap, es, s);
  }

  lemma ReachableNext(s: State, e: Event)
    requires Reachable(s) && Enabled(s, e)
    ensures Reachable(Next(s, e))
  {
    var es :| Run(Start(s.cap), es, s);
    RunThen(Start(s.cap), es, s, e);
    assert Next(s, e).cap == s.cap;
  }

  /** Events of everyone but follower `f`. */
  predicate ByOthers(f: nat, e: Event) {
    OfFollower(e) ==> e.f != f
  }

  /** While `f` runs the others can append to the log and ask `f` to stop, but what
      was delivered, and where, is up to `f`. */
  ghost predicate Undisturbed(f: nat, s: State, t: State)
    requires f < |s.fs|
  {
    && s.log <= t.log && s.gone <= t.gone && |t.fs| == |s.fs| && t.cap == s.cap && t.cur == s.cur
    && t.fs[f] == s.fs[f].(stop := t.fs[f].stop)
    && t.base == s.base && t.prior == s.prior && t.out == s.out && t.ring == s.ring && t.flushes == s.flushes
    && (s.caller.Waiting? ==> t.caller == s.caller)
  }

  lemma UndisturbedStep(f: nat, s: State, e: Event)
    requires Inv(s) && f < |s.fs| && Running(s.fs[f]) && ByOthers(f, e) && Enabled(s, e)
    ensures Undisturbed(f, s, Next(s, e))
  {
    assert FollowerOk(s, f);
    if s.caller.Waiting? { assert FollowerOk(s, s.caller.prev); }
    if OfFollower(e) { assert FollowerOk(s, e.f); }
  }

  // ----- how far a follower has come -----------------------------------------------------

  /** Between `s` and `t` follower `f` delivered just what lies between its offsets. */
  ghost predicate Advanced(f: nat, s: State, t: State) {
    && f < |s.fs| == |t.fs| && s.log <= t.log && s.gone <= t.gone
    && t.cap == s.cap && t.base == s.base && t.prior == s.prior && t.fs[f].pid == s.fs[f].pid
    && (s.caller.Waiting? ==> t.caller == s.caller)
    && s.fs[f].pos <= t.fs[f].pos <= |t.log|
    && t.out == s.out + t.log[s.fs[f].pos..t.fs[f].pos]
  }

  /** The newest follower goes on in the chain of the one before it. */
  ghost predicate Continues(s: State, t: State)
    requires s.fs != [] && t.fs != []
  {
    var a, b := Newest(s).pos, Newest(t).pos;
    t.base == s.base && t.prior == s.prior && a <= b <= |t.log| && t.out == s.out + t.log[a..b]
  }

  /** And nothing but its offset and the stop flag changed about it. */
  ghost predicate Drained(f: nat, s: State, t: State) {
    && Advanced(f, s, t) && t.flushes == s.flushes && t.cur == s.cur
    && t.fs[f] == s.fs[f].(stop := t.fs[f].stop, pos := t.fs[f].pos)
  }

  lemma AdvancedTrans(f: nat, s: State, t: State, u: State)
    requires Advanced(f, s, t) && Advanced(f, t, u)
    ensures Advanced(f, s, u)
  {
    var a, b, c := s.fs[f].pos, t.fs[f].pos, u.fs[f].pos;
    assert u.log[..|t.log|] == t.log;
    assert u.log[a..b] == t.log[a..b];
    assert u.log[a..b] + u.log[b..c] == u.log[a..c];
  }

  lemma DrainedTrans(f: nat, s: State, t: State, u: State)
    requires Drained(f, s, t) && Drained(f, t, u)
    ensures Drained(f, s, u)
  {
    AdvancedTrans(f, s, t, u);
  }

  lemma AdvancedNot(f: nat, s: State, t: State)
    requires f < |s.fs| == |t.fs| && s.log <= t.log && s.gone <= t.gone && s.fs[f].pos <= |s.log|
    requires t.cap == s.cap && t.base == s.base && t.prior == s.prior && t.out == s.out
    requires t.fs[f].pid == s.fs[f].pid && t.fs[f].pos == s.fs[f].pos && (s.caller.Waiting? ==> t.caller == s.caller)
    ensures Advanced(f, s, t)
  {
    assert t.log[s.fs[f].pos..s.fs[f].pos] == [];
  }

  lemma ReadDrains(f: nat, s: State, n: nat)
    requires Enabled(s, Read(f, n))
    ensures Drained(f, s, Next(s, Read(f, n)))
  {
    var t := OnRead(s, f, n);
    assert t.fs[f] == s.fs[f].(pos := s.fs[f].pos + n);
  }

  class Tails {
    var s: State
    ghost var waits: nat     // rounds that flushes have waited

    ghost predicate Valid()
      reads this
    {
      Reachable(s)
    }

    constructor (cap: nat)
      ensures Valid() && s == Start(cap)
    {
      s, waits := Start(cap), 0;
      new;
      assert Run(Start(s.cap), [], s);
    }

    method Do(e: Event)
      requires Valid() && Enabled(s, e)
      modifies this`s
      ensures Valid() && s == Next(old(s), e)
    {
      ReachableNext(s, e);
      s := Next(s, e);
    }

    /** A step of follower `f` that delivers nothing. */
    method Own(f: nat, e: Event)
      requires Valid() && Enabled(s, e) && OfFollower(e) && !e.Read? && e.f == f
      modifies this`s
      ensures Valid() && s == Next(old(s), e) && Advanced(f, old(s), s)
    {
      ReachableOk(s);
      assert FollowerOk(s, f);
      Do(e);
      AdvancedNot(f, old(s), s);
    }

    /** Any number of steps of everyone but the running follower `f`. */
    method Others(f: nat)
      requires Valid() && f < |s.fs| && Running(s.fs[f])
      modifies this`s
      ensures Valid() && Undisturbed(f, old(s), s) && Drained(f, old(s), s)
    {
      var steps: nat := *;
      while steps > 0
        invariant Valid() && Undisturbed(f, old(s), s)
      {
        var e: Event := *;
        if ByOthers(f, e) && Enabled(s, e) {
          ReachableOk(s);
          UndisturbedStep(f, s, e);
          Do(e);
        }
        steps := steps - 1;
      }
      assert FollowerOk(old(s), f) by { ReachableOk(old(s)); }
      AdvancedNot(f, old(s), s);
    }

    /** One read of at most a chunk. */
    method ReadChunk(f: nat, mayFail: bool) returns (failed: bool)
      requires Valid() && In(s, f, Draining) && s.fs[f].pos < |s.log|
      modifies this`s
      ensures Valid() && Drained(f, old(s), s) && s.log == old(s.log) && s.fs[f].pos > old(s.fs[f].pos)
      ensures failed ==> mayFail
    {
      var n: int := *;
      if n <= 0 || n > MAX_CHUNK || n > |s.log| - s.fs[f].pos {
        n := 1;
      }
      ReadDrains(f, s, n);
      Do(Read(f, n));
      var fails: bool := *;
      failed := mayFail && fails;
    }

    /** Copies the log from the follower's offset to the end of the file.  Writers may
        append for `patience` reads.  An error ends it early. */
    method DrainLog(f: nat, patience: nat, mayFail: bool) returns (eof: bool)
      requires Valid() && In(s, f, Draining)
      modifies this`s
      ensures Valid() && Drained(f, old(s), s)
      ensures eof ==> s.fs[f].pos == |s.log|
      ensures !mayFail ==> eof
    {
      ReachableOk(s);
      assert FollowerOk(s, f);
      AdvancedNot(f, s, s);
      var unreadable: bool := *;
      if mayFail && unreadable {
        return false;
      }
      assert s.fs[f].pos <= |s.log|;   // so the file never looks truncated
      var more := patience;
      while true
        invariant Valid() && Drained(f, old(s), s)
        decreases more, |s.log| - s.fs[f].pos
      {
        ghost var was := s;
        if more > 0 {
          Others(f);
          DrainedTrans(f, old(s), was, s);
          more := more - 1;
        }
        if s.fs[f].pos == |s.log| {
          return true;
        }
        was := s;
        var failed := ReadChunk(f, mayFail);
        DrainedTrans(f, old(s), was, s);
        if failed {
          return false;
        }
      }
    }

    /** Liveness is sampled before the drain: only a child that is gone for good can
        be reported dead. */
    method ProbeChild(f: nat, lingers: bool) returns (alive: bool)
      requires Valid() && In(s, f, Sampling)
      modifies this`s
      ensures Valid() && Advanced(f, old(s), s) && In(s, f, Draining) && s.fs[f].alive == alive
      ensures !alive ==> s.fs[f].pid in s.gone
      ensures !lingers ==> (alive <==> s.fs[f].pid !in s.gone)
    {
      Others(f);
      ghost var was := s;
      var answers: bool := *;
      alive := s.fs[f].pid !in s.gone || (lingers && answers);
      Own(f, Sample(f, alive));
      AdvancedTrans(f, old(s), was, s);
    }

    /** Drains, then answers the flush that was accepted. */
    method FinishPass(f: nat, patience: nat, mayFail: bool)
      requires Valid() && In(s, f, Draining)
      modifies this`s
      ensures Valid() && Advanced(f, old(s), s)
      ensures In(s, f, if old(s.fs[f].alive) then Selecting else Leaving) && s.fs[f].ended == !old(s.fs[f].alive)
      ensures !mayFail ==> s.fs[f].clean && s.fs[f].pos >= |old(s).log|
    {
      var eof := DrainLog(f, patience, mayFail);
      ghost var was := s;
      Own(f, EndPass(f, eof));
      AdvancedTrans(f, old(s), was, s);
    }

    /** The top of the loop: liveness, then the drain, then the answer to a flush. */
    method Pass(f: nat, patience: nat, mayFail: bool, lingers: bool) returns (alive: bool)
      requires Valid() && In(s, f, Sampling)
      modifies this`s
      ensures Valid() && Advanced(f, old(s), s)
      ensures In(s, f, if alive then Selecting else Leaving) && s.fs[f].ended == !alive
      ensures !mayFail ==> s.fs[f].clean && s.fs[f].pos >= |old(s).log|
      ensures !lingers && old(s.fs[f].pid) in old(s).gone ==> !alive
    {
      alive := ProbeChild(f, lingers);
      ghost var was := s;
      FinishPass(f, patience, mayFail);
      AdvancedTrans(f, old(s), was, s);
    }

    /** The way out: the offset is published and the registry cleared before `done`
        is closed. */
    method Leave(f: nat)
      requires Valid() && In(s, f, Leaving)
      modifies this`s
      ensures Valid() && Advanced(f, old(s), s) && In(s, f, Closed)
      ensures s.fs[f].off == s.fs[f].pos && s.fs[f].ended == old(s.fs[f].ended) && s.fs[f].clean == old(s.fs[f].clean)
      ensures s.cur.None?
    {
      ReachableOk(s);
      assert FollowerOk(s, f);
      Others(f);
      ghost var s1 := s;
      Own(f, Remove(f));
      AdvancedTrans(f, old(s), s1, s);
      ghost var s2 := s;
      Own(f, CloseDone(f));
      AdvancedTrans(f, old(s), s2, s);
    }

    /** The loop, watched for `turns` passes. */
    method RunFollower(f: nat, turns: nat, patience: nat, mayFail: bool, lingers: bool) returns (done: bool)
      requires Valid() && In(s, f, Sampling)
      modifies this`s
      ensures Valid() && Advanced(f, old(s), s) && In(s, f, if done then Closed else Sampling)
      ensures done ==> s.fs[f].off == s.fs[f].pos && s.cur.None?
      ensures done && s.fs[f].ended && s.fs[f].clean ==> AllWritten(s, s.fs[f].pid, s.fs[f].pos)
      ensures turns > 0 && !mayFail ==> s.fs[f].pos >= |old(s).log|
      ensures turns > 0 && !lingers && old(s.fs[f].pid) in old(s).gone ==> done && s.fs[f].ended
      ensures done && s.fs[f].ended && !mayFail ==> AllWritten(s, s.fs[f].pid, s.fs[f].pos)
    {
      ReachableOk(s);
      assert FollowerOk(s, f);
      AdvancedNot(f, s, s);
      done := false;
      var i := 0;
      while i < turns
        invariant Valid() && Advanced(f, old(s), s) && In(s, f, Sampling)
        invariant i > 0 && !mayFail ==> s.fs[f].pos >= |old(s).log|
        invariant i > 0 && !lingers ==> old(s.fs[f].pid) !in old(s).gone
      {
        ghost var was := s;
        var leave := Round(f, patience, mayFail, lingers);
        AdvancedTrans(f, old(s), was, s);
        if leave {
          was := s;
          Leave(f);
          AdvancedTrans(f, old(s), was, s);
          ReachableOk(s);
          assert FollowerOk(s, f);
          return true;
        }
        i := i + 1;
      }
    }

    /** One turn of the loop. */
    method Round(f: nat, patience: nat, mayFail: bool, lingers: bool) returns (leave: bool)
      requires Valid() && In(s, f, Sampling)
      modifies this`s
      ensures Valid() && Advanced(f, old(s), s) && In(s, f, if leave then Leaving else Sampling)
      ensures !mayFail ==> s.fs[f].clean && s.fs[f].pos >= |old(s).log|
      ensures !lingers && old(s.fs[f].pid) in old(s).gone ==> leave && s.fs[f].ended
    {
      var alive := Pass(f, patience, mayFail, lingers);
      leave := !alive;
      if alive {
        ghost var was := s;
        leave := Select(f);
        AdvancedTrans(f, old(s), was, s);
      }
    }

    /** The select at the bottom of the loop: a stop, a flush request or the tick. */
    method Select(f: nat) returns (leave: bool)
      requires Valid() && In(s, f, Selecting)
      modifies this`s
      ensures Valid() && Advanced(f, old(s), s) && In(s, f, if leave then Leaving else Sampling)
      ensures leave ==> s.fs[f].stop
      ensures s.fs[f].clean == old(s.fs[f].clean)
    {
      Others(f);
      ghost var was := s;
      var flush: bool, stop: bool := *, *;
      leave := stop && s.fs[f].stop;
      if leave {
        Own(f, TakeStop(f));
      } else if flush {
        Own(f, TakeFlush(f));
      } else {
        Own(f, Poll(f));
      }
      AdvancedTrans(f, old(s), was, s);
    }

    /** One stage of a stopped follower's way to its end.  In a hurry, the select takes
        the stop. */
    method Turn(f: nat, patience: nat, hurry: bool, mayFail: bool, lingers: bool)
      requires Valid() && s.caller.Waiting? && s.caller.prev == f && f < |s.fs| && !s.fs[f].phase.Closed?
      modifies this`s
      ensures Valid() && Advanced(f, old(s), s)
      ensures hurry ==> Rank(s.fs[f].phase) < Rank(old(s.fs[f].phase))
    {
      ReachableOk(s);
      assert FollowerOk(s, f);
      match s.fs[f].phase {
        case Sampling =>
          var alive := Pass(f, patience, mayFail, lingers);
        case Draining =>
          FinishPass(f, patience, mayFail);
        case Selecting =>
          if hurry {
            Own(f, TakeStop(f));
          } else {
            var leave := Select(f);
          }
        case Leaving => Leave(f);
        case Removed => Own(f, CloseDone(f));
        case Closed =>
      }
    }

    /** Waits for a stopped follower's `done`.  Wherever its loop is, it gets there. */
    method AwaitDone(f: nat, patience: nat, mayFail: bool, lingers: bool)
      requires Valid() && s.caller.Waiting? && s.caller.prev == f
      modifies this`s
      ensures Valid() && Advanced(f, old(s), s) && In(s, f, Closed)
    {
      ReachableOk(s);
      assert FollowerOk(s, f);
      AdvancedNot(f, s, s);
      var turns := patience;
      while !s.fs[f].phase.Closed?
        invariant Valid() && Advanced(f, old(s), s)
        decreases turns, Rank(s.fs[f].phase)
      {
        ghost var was := s;
        Turn(f, patience, turns == 0, mayFail, lingers);
        AdvancedTrans(f, old(s), was, s);
        turns := if turns == 0 then 0 else turns - 1;
      }
    }

    /** Starts a follower of `pid`.  It resumes where the registered one stopped, if
        there is one, and at the offset in hand otherwise. */
    method FollowDetachedLog(pid: nat, patience: nat, mayFail: bool, lingers: bool)
      requires Valid() && s.caller.Noted?
      modifies this`s
      ensures Valid() && s.caller.Idle? && s.fs != [] && s.cur == Some(|s.fs| - 1)
      ensures Newest(s) == NewFollower(pid, s.chain, Newest(s).pos) && old(s.log) <= s.log
      ensures old(s.cur).None? ==> Newest(s).pos == s.base == old(s.caller.from)
      ensures old(s.cur).None? ==> s.out == [] && s.prior == old(s.ring)
      ensures old(s.cur).Some? ==> old(s.fs) != [] && Continues(old(s), s)
    {
      ReachableOk(s);
      if s.cur.None? {
        Do(Follow(pid));
      } else {
        var prev := s.cur.value;
        ghost var s0 := s;
        Do(Follow(pid));
        assert FollowerOk(s0, prev);
        AdvancedNot(prev, s0, s);
        ghost var s1 := s;
        AwaitDone(prev, patience, mayFail, lingers);
        AdvancedTrans(prev, s0, s1, s);
        ReachableOk(s);
        assert FollowerOk(s, prev);
        Do(TakeOver);
      }
    }

    /** Any number of steps of anyone. */
    method Anything()
      requires Valid()
      modifies this`s
      ensures Valid() && Went(old(s), s)
    {
      WentNowhere(s);
      var steps: nat := *;
      while steps > 0
        invariant Valid() && Went(old(s), s)
      {
        var e: Event := *;
        if Enabled(s, e) {
          WentThen(old(s), s, e);
          Do(e);
        }
        steps := steps - 1;
      }
    }

    /** A round of a flush's wait. */
    method Wait()
      requires Valid()
      modifies this
      ensures Valid() && Went(old(s), s) && waits == old(waits) + 1
    {
      Anything();
      waits := waits + 1;
    }

    /** Asks the registered follower for a drain and waits for its answer, giving up
        after `turns` rounds.  An acknowledgement is the recorded answer to a request
        that this follower accepted during the call; `clean` is what it says.  Without
        one there was no follower, or it has ended, or all rounds were waited. */
    method FlushDetachedLog(turns: nat) returns (acked: bool, ghost clean: bool)
      requires Valid()
      modifies this
      ensures Valid() && Went(old(s), s)
      ensures acked ==> old(s.cur).Some? && AnsweredSince(old(s), old(s.cur).value, s, clean)
      ensures acked && clean ==> Flushed(old(s), old(s.cur).value, s)
      ensures !acked && old(s.cur).Some? ==> In(s, old(s.cur).value, Closed) || waits == old(waits) + turns
    {
      WentNowhere(s);
      acked, clean := false, false;
      if s.cur.None? {
        return;
      }
      var f := s.cur.value;
      var i, sent := 0, false;
      while i < turns && !sent
        invariant Valid() && Went(old(s), s) && (sent ==> In(s, f, Selecting))
        invariant waits == old(waits) + i && i <= turns
      {
        ghost var was := s;
        Wait();
        WentTrans(old(s), was, s);
        i := i + 1;
        if In(s, f, Closed) {
          return;
        }
        var accepted: bool := *;
        sent := accepted && In(s, f, Selecting);
      }
      if !sent {
        return;
      }
      ghost var asked := s;
      ReachableOk(asked);
      var k := |s.flushes|;
      WentThen(old(s), s, TakeFlush(f));
      Do(TakeFlush(f));
      ghost var began := s;
      WentNowhere(began);
      while i < turns
        invariant Valid() && Went(old(s), s) && Went(began, s) && waits == old(waits) + i && i <= turns
      {
        ghost var was := s;
        Wait();
        WentTrans(old(s), was, s);
        WentTrans(began, was, s);
        FlushAnswered(old(s), asked, f, s);
        i := i + 1;
        if s.flushes[k].answer.Some? {
          acked, clean := true, s.flushes[k].answer.value;
          assert AnsweredBy(s.flushes[k], f, |old(s).log|, clean);
          return;
        }
      }
    }
  }

  /** Since `s` follower `f` accepted a flush, when the log was at least as long, and
      answered it with `clean`. */
  predicate AnsweredSince(s: State, f: nat, t: State, clean: bool) {
    exists k :: |s.flushes| <= k < |t.flushes| && AnsweredBy(t.flushes[k], f, |s.log|, clean)
  }

  predicate AnsweredBy(r: Flush, f: nat, size: nat, clean: bool) {
    r.follower == f && r.size >= size && r.answer == Some(clean)
  }

  ghost predicate Went(s: State, t: State) {
    exists es :: Run(s, es, t)
  }

  lemma WentNowhere(s: State)
    ensures Went(s, s)
  {
    assert Run(s, [], s);
  }

  lemma WentThen(s: State, t: State, e: Event)
    requires Went(s, t) && Enabled(t, e)
    ensures Went(s, Next(t, e))
  {
    var es :| Run(s, es, t);
    RunThen(s, es, t, e);
  }

  lemma WentTrans(s: State, t: State, u: State)
    requires Went(s, t) && Went(t, u)
    ensures Went(s, u)
  {
    var es :| Run(s, es, t);
    var more :| Run(t, more, u);
    RunConcat(s, es, t, more, u);
  }

  lemma {:induction false} RunConcat(s: State, es: seq<Event>, t: State, more: seq<Event>, u: State)
    requires Run(s, es, t) && Run(t, more, u)
    ensures Run(s, es + more, u)
    decreases |es|
  {
    if es == [] {
      assert es + more == more;
    } else {
      assert (es + more)[1..] == es[1..] + more;
      RunConcat(Next(s, es[0]), es[1..], t, more, u);
    }
  }

  lemma {:induction false} LogGrows(s: State, es: seq<Event>, t: State)
    requires Run(s, es, t)
    ensures s.log <= t.log && |s.flushes| <= |t.flushes|
    decreases |es|
  {
    if es != [] { LogGrows(Next(s, es[0]), es[1..], t); }
  }

  /** Follower `f` is past all that the log held at `s`, and the chain it belongs to
      delivered it, unless a fresh follow has begun another chain. */
  predicate Flushed(s: State, f: nat, t: State) {
    && f < |t.fs| && s.log <= t.log && |s.log| <= t.fs[f].pos <= |t.log|
    && (t.fs[f].chain == t.chain && t.base <= |s.log| ==> s.log[t.base..] <= t.out)
  }

  lemma FlushAnswered(first: State, s: State, f: nat, t: State)
    requires Went(first, s) && Inv(s) && Enabled(s, TakeFlush(f)) && Went(Next(s, TakeFlush(f)), t)
    ensures |first.flushes| <= |s.flushes| < |t.flushes|
    ensures t.flushes[|s.flushes|].follower == f && t.flushes[|s.flushes|].size >= |first.log|
    ensures t.flushes[|s.flushes|].answer == Some(true) ==> Flushed(first, f, t)
  {
    var before :| Run(first, before, s);
    LogGrows(first, before, s);
    var v := Next(s, TakeFlush(f));
    var es :| Run(v, es, t);
    FlushKept(v, es, t, |s.flushes|);
    if t.flushes[|s.flushes|].answer == Some(true) {
      FlushDelivers(s, f, es, t);
      if t.fs[f].chain == t.chain && t.base <= |first.log| {
        assert first.log == s.log[..|first.log|];
        assert first.log[t.base..] <= s.log[t.base..];
      }
    }
  }

  /** Seeds a ring from the end of the log file and returns the offset the seed
      covers, where a follower resumes.  A missing file seeds nothing.  `readable`
      says whether the file can be opened and positioned; `fault` is where reading
      the seed fails, if it does, and then the ring keeps what was read before. */
  method SeedRingFromDiskLog(ring: Ring?, file: Option<seq<Byte>>, readable: bool, fault: Option<nat>)
    returns (from: nat)
    requires ring != null ==> ring.Valid()
    modifies ring
    ensures ring != null ==> ring.Valid()
    ensures ring == null || !readable ==> from == |Content(file)|
    ensures ring != null && !readable ==> ring.buf == old(ring.buf)
    ensures ring != null && readable ==>
              from == |Content(file)| - |SeedOf(Content(file))| + Got(SeedOf(Content(file)), fault)
    ensures ring != null && readable ==>
              var seed := SeedOf(Content(file));
              ring.buf == Last(ring.cap, old(ring.buf) + seed[..Got(seed, fault)])
    ensures ring != null && readable && fault.None? && old(ring.buf) == [] && ring.cap <= DEFAULT_CAP ==>
              from == |Content(file)| && ring.buf == Last(ring.cap, Content(file))
  {
    var log := Content(file);
    if ring == null {
      return |log|;
    }
    assert ring.buf + [] == ring.buf;
    if file.None? || |log| == 0 {
      return 0;
    }
    if !readable {
      return |log|;
    }
    var off := if |log| > DEFAULT_CAP then |log| - DEFAULT_CAP else 0;
    var n := Got(log[off..], fault);
    var tail := log[off..off + n];
    ghost var was := ring.buf;
    assert log[off..] == SeedOf(log) && tail == SeedOf(log)[..n];
    ring.Append(tail);
    from := off + n;
    if fault.None? {
      assert tail == SeedOf(log) && [] + tail == tail;
      if ring.cap <= DEFAULT_CAP { SeedSuffices(ring.cap, log); }
    }
  }

  /** How much of the seed is read. */
  function Got(seed: seq<Byte>, fault: Option<nat>): (n: nat)
    ensures n <= |seed|
  {
    if fault.Some? && fault.value < |seed| then fault.value else |seed|
  }

  /** A missing file counts as empty. */
  function Content(file: Option<seq<Byte>>): seq<Byte> {
    if file.Some? then file.value else []
  }

  function Rank(p: Phase): nat {
    match p
    case Sampling => 5
    case Draining => 4
    case Selecting => 3
    case Leaving => 2
    case Removed => 1
    case Closed => 0
  }
}

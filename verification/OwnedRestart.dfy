/**
 The owned topology: one daemon thread boots and restarts `opencode serve`
 children, and one reaper per child records its exit.  The two meet in the exit
 gate of the child.

 The daemon thread is the code of the methods below.  Between any two of its
 steps `Reapers` lets every reaper take any number of its own: the child exits,
 the reaper takes the gate's mutex, writes the lifecycle, closes the oracle, and
 lets go of the mutex, each a step of its own.
*/
module OwnedRestart {
  import opened Wrappers
  import opened Lifecycle
  import opened Ports
  import opened Pacing

  // All times are in milliseconds.
  const READY_WAIT: nat := 30000
  const STABILIZE: nat := 750
  const STOP_GRACE: nat := 10000
  const KILL_WAIT: nat := 5000
  const DIAL_TIMEOUT: nat := 500
  const POLL: nat := 250

  // ----- exit gates and reapers --------------------------------------------------

  datatype Holder = Nobody | Reaper | Publisher

  /** Where the reaper of a child is: waiting for the exit or for the mutex, in
      the critical section before the record, after it, after the close, done. */
  datatype Stage = Waiting | Entered | Recorded | Closed | Finished

  /** One spawned child with its gate, `born` at its spawn.  `done` is the close-once
      oracle. */
  datatype Kid = Kid(port: int, exited: Option<int>, mu: Holder, done: bool, stage: Stage, born: int)

  /** One SetReady: the child it was for, the URL shown then. */
  datatype Flip = Flip(kid: nat, url: int)

  /** A signal to a child. */
  datatype Sent = Term(kid: nat) | Kill(kid: nat)

  /** One dial of a readiness wait: when it returned, the child waited for, the port
      dialled, whether it was accepted, and whether the oracle was open then. */
  datatype Dial = Dial(at: int, kid: nat, port: int, accepted: bool, open: bool)

  datatype Shared = Shared(life: Life, kids: seq<Kid>, flips: seq<Flip>, sent: seq<Sent>, dials: seq<Dial>,
                           wired: bool, now: int)

  datatype ReaperStep =
    | ChildExits(i: nat, code: int)
    | Enter(i: nat)
    | Record(i: nat)
    | Close(i: nat)
    | Leave(i: nat)

  predicate CanReap(s: Shared, e: ReaperStep) {
    && e.i < |s.kids|
    && match e {
         case ChildExits(i, _) => s.kids[i].exited.None?
         case Enter(i) => s.kids[i].exited.Some? && s.kids[i].stage.Waiting? && s.kids[i].mu.Nobody?
         case Record(i) => s.kids[i].stage.Entered?
         case Close(i) => s.kids[i].stage.Recorded?
         case Leave(i) => s.kids[i].stage.Closed?
       }
  }

  /** A clean exit is recorded as stopped, any other as failed with its code. */
  function RecordExit(life: Life, code: int): Life {
    if code == 0 then life.SetStopped() else life.SetFailed(Some(code))
  }

  function SetKid(s: Shared, i: nat, x: Kid): Shared
    requires i < |s.kids|
  {
    s.(kids := s.kids[i := x])
  }

  function Reap(s: Shared, e: ReaperStep): Shared
    requires CanReap(s, e)
  {
    match e
    case ChildExits(i, code) => SetKid(s, i, s.kids[i].(exited := Some(code)))
    case Enter(i) => SetKid(s, i, s.kids[i].(mu := Reaper, stage := Entered))
    case Record(i) =>
      SetKid(s.(life := if s.kids[i].exited.Some? then RecordExit(s.life, s.kids[i].exited.value) else s.life),
             i, s.kids[i].(stage := Recorded))
    case Close(i) => SetKid(s, i, s.kids[i].(done := true, stage := Closed))
    case Leave(i) => SetKid(s, i, s.kids[i].(mu := Nobody, stage := Finished))
  }

  // ----- the invariant ------------------------------------------------------------------

  ghost predicate KidOk(x: Kid) {
    && x.port > 0
    && (x.done <==> x.stage.Closed? || x.stage.Finished?)
    && (x.mu.Reaper? <==> x.stage.Entered? || x.stage.Recorded? || x.stage.Closed?)
    && (!x.stage.Waiting? ==> x.exited.Some?)
  }

  /** The exit of every child but the newest is recorded. */
  ghost predicate OnlyLastOpen(s: Shared) {
    forall i :: 0 <= i < |s.kids| - 1 ==> s.kids[i].done
  }

  ghost predicate AllDone(s: Shared) {
    forall i :: 0 <= i < |s.kids| ==> s.kids[i].done
  }

  /** Ready is shown only over a child whose exit is not recorded, and names its port. */
  ghost predicate ReadyIsTrue(s: Shared) {
    s.life.state.Ready? ==>
      && |s.kids| > 0 && !s.kids[|s.kids| - 1].done && !s.kids[|s.kids| - 1].stage.Recorded?
      && (s.wired ==> s.life.url == s.kids[|s.kids| - 1].port)
  }

  /** Only children that were spawned are waited for. */
  ghost predicate DialsOk(s: Shared) {
    forall k :: 0 <= k < |s.dials| ==> s.dials[k].kid < |s.kids|
  }

  ghost predicate Inv(s: Shared) {
    && (forall i :: 0 <= i < |s.kids| ==> KidOk(s.kids[i]))
    && DialsOk(s)
    && OnlyLastOpen(s)
    && ReadyIsTrue(s)
  }

  /** What a lifecycle says about an exit: a clean one is a stop, any other a failure
      with its code. */
  predicate SaysExit(life: Life, code: int) {
    if code == 0 then life.state.Stopped? && life.exitCode.None? else life.state.Failed? && life.exitCode == Some(code)
  }

  /** Once the exit of the newest child is recorded the lifecycle says so, until the
      daemon thread writes again. */
  ghost predicate ExitShown(s: Shared) {
    |s.kids| > 0 ==>
      var x := s.kids[|s.kids| - 1];
      x.stage.Recorded? || x.stage.Closed? || x.stage.Finished? ==> x.exited.Some? && SaysExit(s.life, x.exited.value)
  }

  lemma ReapKeeps(s: Shared, e: ReaperStep)
    requires Inv(s) && CanReap(s, e)
    ensures Inv(Reap(s, e))
    ensures ExitShown(s) ==> ExitShown(Reap(s, e))
  {
    assert KidOk(s.kids[e.i]);
  }

  /** No cross-child interference: whoever writes the lifecycle is the reaper of
      the newest child. */
  lemma OnlyNewestRecords(s: Shared, e: ReaperStep)
    requires Inv(s) && CanReap(s, e)
    ensures Reap(s, e).life != s.life ==> e.Record? && e.i == |s.kids| - 1
  {
    assert KidOk(s.kids[e.i]);
  }

  // ----- what reapers leave alone --------------------------------------------------------

  ghost predicate KidLater(x: Kid, x': Kid) {
    && x'.port == x.port && x'.born == x.born
    && (x.done ==> x'.done)
    && (x.exited.Some? ==> x'.exited == x.exited)
    && (x.mu.Publisher? ==> x' == x.(exited := x'.exited))
    && (x'.mu.Publisher? ==> x.mu.Publisher?)
  }

  /** What any steps of reapers, and the clock, leave of a state. */
  ghost predicate Later(s: Shared, s': Shared) {
    && |s'.kids| == |s.kids|
    && (forall i :: 0 <= i < |s.kids| ==> KidLater(s.kids[i], s'.kids[i]))
    && s'.flips == s.flips && s'.sent == s.sent && s.dials <= s'.dials && s'.wired == s.wired
    && s'.life.url == s.life.url && s'.life.generation == s.life.generation
    && (s'.life.state.Ready? ==> s.life.state.Ready?)
    && (AllDone(s) ==> s'.life == s.life) && (ExitShown(s) ==> ExitShown(s'))
    && (|s.kids| > 0 && s.kids[|s.kids| - 1].mu.Publisher? ==> s'.life == s.life)
  }

  lemma ReapLater(s: Shared, e: ReaperStep)
    requires Inv(s) && CanReap(s, e)
    ensures Later(s, Reap(s, e))
  {
    assert KidOk(s.kids[e.i]);
    ReapKeeps(s, e);
    if AllDone(s) { assert s.kids[e.i].done; }
  }

  /** The children are the same ones, and no recorded exit is forgotten. */
  ghost predicate KidsOnward(kids: seq<Kid>, kids': seq<Kid>) {
    && |kids'| == |kids|
    && forall i :: 0 <= i < |kids| ==>
         kids'[i].port == kids[i].port && kids'[i].born == kids[i].born && (kids[i].done ==> kids'[i].done)
  }

  /** The publisher, and nobody else, is inside the gate of child `i`. */
  ghost predicate Inside(kids: seq<Kid>, kids': seq<Kid>, i: nat) {
    && KidsOnward(kids, kids') && i < |kids'|
    && forall k :: 0 <= k < |kids'| ==> (kids'[k].mu.Publisher? <==> k == i)
  }

  lemma Entering(s: Shared, s': Shared, i: nat)
    requires Inv(s') && Later(s, s') && NoPublisher(s) && i < |s.kids| && s'.kids[i].mu.Nobody?
    ensures Inside(s.kids, s'.kids[i := s'.kids[i].(mu := Publisher)], i)
    ensures KidOk(s'.kids[i].(mu := Publisher))
  {
    assert KidOk(s'.kids[i]);
    forall k | 0 <= k < |s.kids|
      ensures s'.kids[k].port == s.kids[k].port && s'.kids[k].born == s.kids[k].born
      ensures (s.kids[k].done ==> s'.kids[k].done) && !s'.kids[k].mu.Publisher?
    {
      assert KidLater(s.kids[k], s'.kids[k]);
    }
  }

  lemma StaysInside(kids: seq<Kid>, s: Shared, s': Shared, i: nat)
    requires Later(s, s') && Inside(kids, s.kids, i) && i == |s.kids| - 1
    ensures Inside(kids, s'.kids, i) && s'.life == s.life
    ensures s'.kids[i].done == s.kids[i].done && s'.kids[i].stage == s.kids[i].stage
  {
    forall k | 0 <= k < |s.kids|
      ensures s'.kids[k].port == s.kids[k].port && s'.kids[k].born == s.kids[k].born
      ensures s.kids[k].done ==> s'.kids[k].done
      ensures s'.kids[k].mu.Publisher? <==> k == i
    {
      assert KidLater(s.kids[k], s'.kids[k]);
    }
  }

  lemma LaterTrans(s: Shared, s': Shared, s'': Shared)
    requires Later(s, s') && Later(s', s'')
    ensures Later(s, s'')
  {
    forall i | 0 <= i < |s.kids| ensures KidLater(s.kids[i], s''.kids[i]) {
      assert KidLater(s.kids[i], s'.kids[i]) && KidLater(s'.kids[i], s''.kids[i]);
    }
    if AllDone(s) {
      forall i | 0 <= i < |s'.kids| ensures s'.kids[i].done { assert KidLater(s.kids[i], s'.kids[i]); }
    }
    if |s.kids| > 0 && s.kids[|s.kids| - 1].mu.Publisher? {
      assert KidLater(s.kids[|s.kids| - 1], s'.kids[|s.kids| - 1]);
    }
  }

  // ----- the daemon thread --------------------------------------------------------------------

  datatype Outcome = Good | SpawnFailed | ChildExited | TimedOut

  class Runtime {
    var s: Shared
    var cmd: Option<nat>   // the retained child with its oracle
    var port: int

    constructor (now: int)
      ensures Inv(s) && s.kids == [] && s.flips == [] && !s.wired && s.life == NEW_LIFE && s.now == now
      ensures cmd == None && port == 0
    {
      s := Shared(NEW_LIFE, [], [], [], [], false, now);
      cmd, port := None, 0;
    }

    method Reapers()
      requires Inv(s)
      modifies this`s
      ensures Inv(s) && Later(old(s), s) && s.now == old(s).now && s.dials == old(s).dials
    {
      var steps: nat := *;
      while steps > 0
        invariant Inv(s) && Later(old(s), s) && s.now == old(s).now && s.dials == old(s).dials
      {
        var e: ReaperStep := *;
        if CanReap(s, e) {
          ReapKeeps(s, e);
          ReapLater(s, e);
          LaterTrans(old(s), s, Reap(s, e));
          s := Reap(s, e);
        }
        steps := steps - 1;
      }
    }

    /** Time passes only where the code waits. */
    method Pass(ms: nat)
      requires Inv(s)
      modifies this`s
      ensures Inv(s) && s == old(s).(now := old(s).now + ms)
      ensures forall s0: Shared :: Later(s0, old(s)) ==> Later(s0, s)
    {
      s := s.(now := s.now + ms);
    }

    // --- stopping the previous child ----------------------------------------------

    /** select on the oracle against a timer. */
    method AwaitDone(i: nat, limit: nat) returns (seen: bool)
      requires Inv(s) && i < |s.kids|
      modifies this`s
      ensures Inv(s) && Later(old(s), s)
      ensures seen <==> s.kids[i].done
      ensures old(s).now <= s.now <= old(s).now + limit
      ensures !seen ==> s.now == old(s).now + limit
    {
      Reapers();
      var early: int := *;
      seen := s.kids[i].done;
      Pass(if seen && 0 <= early <= limit then early else limit);
    }

    method Send(x: Sent)
      requires Inv(s)
      modifies this`s
      ensures Inv(s) && s == old(s).(sent := old(s).sent + [x])
    {
      s := s.(sent := s.sent + [x]);
    }

    /** SIGTERM, a bounded wait, SIGKILL, a second bounded wait.  It succeeds only
        when the exit of the retained child is recorded; otherwise it fails closed.
        The second signal follows only a full grace period without an exit. */
    method StopOwnedChild() returns (ok: bool)
      requires Inv(s) && Retains(s, cmd) && s.life.state.Starting?
      modifies this`s
      ensures Inv(s) && KidsLater(old(s), s) && s.flips == old(s).flips && s.wired == old(s).wired
      ensures s.life.url == old(s).life.url && !s.life.state.Ready? && old(s).dials <= s.dials
      ensures ok <==> AllDone(s)
      ensures !ok ==> s.life.state.Failed?
      ensures old(s).now <= s.now <= old(s).now + STOP_GRACE + KILL_WAIT
      ensures Escalation(cmd, old(s).sent, s.sent, s.now - old(s).now, ok)
    {
      if cmd.None? {
        LaterSelf(s);
        return true;
      }
      Send(Term(cmd.value));
      ghost var s1 := s;
      ok := AwaitDone(cmd.value, STOP_GRACE);
      if ok {
        RetainedDone(old(s), s, cmd);
        return;
      }
      Send(Kill(cmd.value));
      ghost var s2 := s;
      ok := AwaitDone(cmd.value, KILL_WAIT);
      KidsLaterTrans(s1, s2, s);
      if ok {
        RetainedDone(old(s), s, cmd);
      } else {
        s := s.(life := s.life.SetFailed(None));
      }
    }

    // --- waiting for the child's own listener ---------------------------------------

    /** One dial of the port of child `i`. */
    method DialPort(i: nat) returns (accepted: bool)
      requires Inv(s) && i < |s.kids|
      modifies this`s
      ensures Inv(s) && KidsLater(old(s), s) && s.kids == old(s).kids
      ensures old(s).now <= s.now <= old(s).now + DIAL_TIMEOUT
      ensures var d := Dial(s.now, i, s.kids[i].port, accepted, !s.kids[i].done);
              s == old(s).(now := s.now, dials := old(s).dials + [d])
      ensures forall s0: Shared :: Later(s0, old(s)) ==> Later(s0, s)
    {
      var took: int := *;
      accepted := *;
      Pass(if 0 <= took <= DIAL_TIMEOUT then took else DIAL_TIMEOUT);
      s := s.(dials := s.dials + [Dial(s.now, i, s.kids[i].port, accepted, !s.kids[i].done)]);
      LaterSelf(s);
    }

    /** A dial that was accepted counts only after the oracle was seen open again
        at least STABILIZE later; the exit of the child ends the wait at any point. */
    method WaitForChildOwnedPort(i: nat, timeout: nat) returns (r: Outcome)
      requires Inv(s) && i < |s.kids|
      modifies this`s
      ensures Inv(s) && Later(old(s), s)
      ensures r.Good? || r.ChildExited? || r.TimedOut?
      ensures r.ChildExited? ==> s.kids[i].done
      ensures r.ChildExited? ==> StandsIfLast(old(s), s, i)
      ensures |s.dials| > |old(s).dials| ==> DialledSince(|old(s).dials|, s.dials, i, s.kids[i].port, old(s).now)
      ensures r.Good? ==> !s.kids[i].done && Answered(|old(s).dials|, s.dials, i, s.kids[i].port, s.now)
      ensures r.TimedOut? ==> Unanswered(|old(s).dials|, s.dials) && s.now > old(s).now + timeout
      ensures r.TimedOut? ==> |s.dials| > |old(s).dials| && s.dials[|s.dials| - 1].at + POLL > old(s).now + timeout
      ensures old(s).now <= s.now <= old(s).now + timeout + DIAL_TIMEOUT + STABILIZE + POLL
    {
      var start := s.now;
      var deadline := s.now + timeout;
      var accepted := false;
      var at := 0;
      ghost var n, port := |s.dials|, s.kids[i].port;
      LaterSelf(s);
      while true
        invariant Inv(s) && Later(old(s), s) && s.kids[i].port == port && start <= s.now
        invariant !accepted ==> s.now <= deadline + DIAL_TIMEOUT + POLL && Dialling(n, s.dials, i, port, start, s.now)
        invariant accepted ==> start <= at <= deadline + DIAL_TIMEOUT && at <= s.now < at + STABILIZE + POLL
        invariant accepted ==> Accepted(n, s.dials, i, port, start, at)
        decreases deadline + DIAL_TIMEOUT + STABILIZE + 2 * POLL - s.now
      {
        if s.kids[i].done {
          ExitedStands(old(s), s, i);
          return ChildExited;
        }
        if !accepted {
          if s.now > deadline {
            return TimedOut;
          }
          accepted := DialAgain(old(s), i, n, start);
          if accepted {
            at := s.now;
          }
        } else if s.now - at >= STABILIZE {
          return Good;
        }
        var exited := Pause(old(s), i);
        if exited {
          ExitedStands(old(s), s, i);
          return ChildExited;
        }
      }
    }

    /** A dial of a child that no dial has found yet. */
    method DialAgain(ghost s0: Shared, i: nat, ghost n: nat, ghost start: int) returns (accepted: bool)
      requires Inv(s) && Later(s0, s) && i < |s.kids| && !s.kids[i].done
      requires Dialling(n, s.dials, i, s.kids[i].port, start, s.now)
      modifies this`s
      ensures Inv(s) && Later(s0, s) && s.kids == old(s).kids && old(s).now <= s.now <= old(s).now + DIAL_TIMEOUT
      ensures accepted ==> Accepted(n, s.dials, i, s.kids[i].port, start, s.now)
      ensures !accepted ==> Dialling(n, s.dials, i, s.kids[i].port, start, s.now + POLL)
    {
      ghost var before, now := s.dials, s.now;
      accepted := DialPort(i);
      DialResult(n, before, s.dials[|before|], i, s.kids[i].port, start, now);
    }

    /** A poll's sleep, which the exit of the child ends. */
    method Pause(ghost s0: Shared, i: nat) returns (exited: bool)
      requires Inv(s) && Later(s0, s) && i < |s.kids|
      modifies this`s
      ensures Inv(s) && Later(s0, s) && s.dials == old(s).dials && s.kids[i].port == old(s).kids[i].port
      ensures exited <==> s.kids[i].done
      ensures s.now == old(s).now + if exited then 0 else POLL
    {
      Reapers();
      assert KidLater(old(s).kids[i], s.kids[i]);
      LaterTrans(s0, old(s), s);
      exited := s.kids[i].done;
      if !exited {
        Pass(POLL);
      }
    }

    // --- publishing readiness ---------------------------------------------------------

    /** The reaper inside the critical section of child `i` leaves it. */
    method FinishReaper(i: nat)
      requires Inv(s) && i < |s.kids| && s.kids[i].mu.Reaper?
      modifies this`s
      ensures Inv(s) && Later(old(s), s) && s.now == old(s).now && s.dials == old(s).dials && s.kids[i].mu.Nobody?
    {
      LaterSelf(s);
      if s.kids[i].stage.Entered? { OneReap(old(s), Record(i)); }
      if s.kids[i].stage.Recorded? { OneReap(old(s), Close(i)); }
      OneReap(old(s), Leave(i));
    }

    method OneReap(ghost s0: Shared, e: ReaperStep)
      requires Inv(s) && Later(s0, s) && CanReap(s, e)
      modifies this`s
      ensures Inv(s) && Later(s0, s) && s == Reap(old(s), e)
    {
      ReapKeeps(s, e);
      ReapLater(s, e);
      LaterTrans(s0, s, Reap(s, e));
      s := Reap(s, e);
    }

    /** Waits for the mutex of child `i`: the reaper may be inside. */
    method AwaitGate(i: nat)
      requires Inv(s) && i < |s.kids| && NoPublisher(s)
      modifies this`s
      ensures Inv(s) && Later(old(s), s) && s.now == old(s).now && s.dials == old(s).dials && s.kids[i].mu.Nobody?
    {
      Reapers();
      assert KidLater(old(s).kids[i], s.kids[i]) && KidOk(s.kids[i]);
      if s.kids[i].mu.Reaper? {
        ghost var mid := s;
        FinishReaper(i);
        LaterTrans(old(s), mid, s);
      }
    }

    /** Takes the mutex of child `i`. */
    method LockGate(i: nat)
      requires Inv(s) && i < |s.kids| && NoPublisher(s)
      modifies this`s
      ensures Inv(s) && s.now == old(s).now && Inside(old(s).kids, s.kids, i)
      ensures s.flips == old(s).flips && s.wired == old(s).wired && s.life.url == old(s).life.url
      ensures s.dials == old(s).dials && s.sent == old(s).sent && (ExitShown(old(s)) ==> ExitShown(s))
      ensures s.life.state.Ready? ==> old(s).life.state.Ready?
    {
      AwaitGate(i);
      Entering(old(s), s, i);
      s := SetKid(s, i, s.kids[i].(mu := Publisher));
    }

    /** Reapers while the publisher is inside the gate of the newest child: they
        cannot record its exit. */
    method ReapersOutside(ghost kids0: seq<Kid>, i: nat)
      requires Inv(s) && Inside(kids0, s.kids, i) && i == |s.kids| - 1
      modifies this`s
      ensures Inv(s) && Inside(kids0, s.kids, i) && s.now == old(s).now
      ensures s.life == old(s).life && s.flips == old(s).flips && s.wired == old(s).wired && s.dials == old(s).dials
      ensures s.kids[i].done == old(s).kids[i].done && s.kids[i].stage == old(s).kids[i].stage
      ensures s.sent == old(s).sent && (ExitShown(old(s)) ==> ExitShown(s))
    {
      Reapers();
      StaysInside(kids0, old(s), s, i);
    }

    /** The publication as one critical section: refuse when the exit is recorded,
        else retarget, then flip to ready.  Each is a step of its own, and reapers
        run in between. */
    method PublishIfAlive(i: nat, stable: int) returns (ok: bool)
      requires Inv(s) && i == |s.kids| - 1 && NoPublisher(s) && !s.life.state.Ready?
      requires s.wired ==> s.life.url == stable
      modifies this`s
      ensures Inv(s) && s.now == old(s).now && NoPublisher(s) && s.wired == old(s).wired
      ensures KidsOnward(old(s).kids, s.kids) && s.dials == old(s).dials
      ensures ok ==> s.flips == old(s).flips + [Flip(i, Target(old(s).life.url, stable, s.kids[i].port))]
      ensures ok ==> s.life.state.Ready? && !s.kids[i].done
      ensures ok ==> s.life.url == Target(old(s).life.url, stable, s.kids[i].port)
      ensures !ok ==> s.flips == old(s).flips && s.kids[i].done && !s.life.state.Ready? && s.life.url == old(s).life.url
      ensures s.sent == old(s).sent && (!ok && ExitShown(old(s)) ==> ExitShown(s))
    {
      LockGate(i);
      ReapersOutside(old(s).kids, i);
      if s.kids[i].done {
        ok := false;
      } else {
        ok := true;
        Publish(old(s).kids, i, stable);
      }
      UnlockGate(old(s).kids, i);
    }

    method UnlockGate(ghost kids0: seq<Kid>, i: nat)
      requires Inv(s) && Inside(kids0, s.kids, i)
      modifies this`s
      ensures Inv(s) && NoPublisher(s) && KidsOnward(kids0, s.kids) && s == old(s).(kids := s.kids)
      ensures s.kids[i].done == old(s).kids[i].done && s.kids[i].port == old(s).kids[i].port
      ensures ExitShown(old(s)) ==> ExitShown(s)
    {
      assert KidOk(s.kids[i]);
      s := SetKid(s, i, s.kids[i].(mu := Nobody));
    }

    /** Inside the gate of a child whose exit is not recorded: retarget, then flip. */
    method Publish(ghost kids0: seq<Kid>, i: nat, stable: int)
      requires Inv(s) && Inside(kids0, s.kids, i) && i == |s.kids| - 1 && !s.kids[i].done
      requires (s.wired ==> s.life.url == stable) && !s.life.state.Ready?
      modifies this`s
      ensures Inv(s) && Inside(kids0, s.kids, i) && !s.kids[i].done && s.now == old(s).now
      ensures s.wired == old(s).wired && s.dials == old(s).dials && s.sent == old(s).sent
      ensures s.life.state.Ready? && s.life.url == Target(old(s).life.url, stable, old(s).kids[i].port)
      ensures s.flips == old(s).flips + [Flip(i, s.life.url)]
    {
      assert KidOk(s.kids[i]);
      s := s.(life := s.life.SetOpenCodeURL(Target(s.life.url, stable, s.kids[i].port)));
      ReapersOutside(kids0, i);
      assert KidOk(s.kids[i]);
      s := s.(life := s.life.SetReady(), flips := s.flips + [Flip(i, s.life.url)]);
      ReapersOutside(kids0, i);
    }

    // --- one attempt, two attempts ------------------------------------------------------

    /** Spawns one child on `p` and waits for it, unless the spawn `fails`; the failure
        is retryable only when the child's exit was recorded before readiness. */
    method Attempt(p: int, stable: int, fails: bool) returns (r: Outcome, kid: Option<nat>)
      requires Inv(s) && AllDone(s) && NoPublisher(s) && p > 0 && (s.wired ==> s.life.url == stable)
      modifies this`s
      ensures Inv(s) && NoPublisher(s) && AttemptReport(old(s), s, p, stable, fails, r, kid)
      ensures old(s).now <= s.now <= old(s).now + READY_WAIT + DIAL_TIMEOUT + STABILIZE + POLL
    {
      s := s.(life := s.life.SetStarting());
      if fails {
        s := s.(life := s.life.SetFailed(None));
        return SpawnFailed, None;
      }
      var i := |s.kids|;
      kid := Some(i);
      r := SpawnAndWait(p);
      if r.TimedOut? {
        s := s.(life := s.life.SetFailed(None));
      } else if r.Good? {
        var published := PublishIfAlive(i, stable);
        if !published {
          r := ChildExited;
        }
      }
      assert KidOk(s.kids[i]);
    }

    /** A spawn that succeeds, and the wait for the child's own listener. */
    method SpawnAndWait(p: int) returns (r: Outcome)
      requires Inv(s) && AllDone(s) && NoPublisher(s) && p > 0 && !s.life.state.Ready?
      modifies this`s
      ensures Inv(s) && NoPublisher(s) && ExitShown(s) && !s.life.state.Ready?
      ensures var i := |old(s).kids|;
              && |s.kids| == i + 1 && s.kids[i].port == p && s.kids[i].born == old(s).now
              && (forall j :: 0 <= j < i ==> s.kids[j].done && s.kids[j].port == old(s).kids[j].port)
              && (r.Good? || r.ChildExited? || r.TimedOut?)
              && (r.ChildExited? ==> s.kids[i].done)
              && (r.TimedOut? ==> InVain(i, s.dials, p, old(s).now))
              && (r.Good? ==> AnsweredFor(i, s.dials, p, s.now))
      ensures old(s).dials <= s.dials && s.flips == old(s).flips && s.sent == old(s).sent && s.wired == old(s).wired
      ensures s.life.url == old(s).life.url
      ensures old(s).now <= s.now <= old(s).now + READY_WAIT + DIAL_TIMEOUT + STABILIZE + POLL
    {
      s := s.(kids := s.kids + [Kid(p, None, Nobody, false, Waiting, s.now)]);
      ghost var spawned := s;
      r := WaitForChildOwnedPort(|s.kids| - 1, READY_WAIT);
      WaitedFor(old(s), spawned, s, p);
      if r.TimedOut? { WaitedInVain(old(s), s.dials, p); }
      if r.Good? { FirstAnswer(old(s), s.dials, p, s.now); }
    }

    /** The shared restart core: the stable port when it is free; then, only when
        that child's exit was recorded before readiness, one fresh port.  `fails` and
        `failsAgain` say whether a first and a second spawn fail. */
    method RestartCore(stable: int, free: bool, fails: bool, failsAgain: bool)
      returns (r: Outcome, kid: Option<nat>, p: int)
      requires Inv(s) && AllDone(s) && NoPublisher(s) && (s.wired ==> s.life.url == stable) && !s.life.state.Ready?
      modifies this`s
      ensures Inv(s) && NoPublisher(s) && CoreReport(old(s), s, stable, free, fails, failsAgain, r, kid, p)
      ensures old(s).now <= s.now <= old(s).now + 2 * (READY_WAIT + DIAL_TIMEOUT + STABILIZE + POLL)
    {
      if stable > 0 && free {
        p := stable;
        r, kid := Attempt(stable, stable, fails);
        if !r.ChildExited? {
          return;
        }
        ghost var mid := s;
        p := FreePort();
        r, kid := Attempt(p, stable, failsAgain);
        TwoAttempts(old(s), mid, s, stable, p, fails, failsAgain, r, kid);
        if !r.Good? && !r.ChildExited? {
          s := s.(life := s.life.SetFailed(None));
        }
      } else {
        p := FreePort();
        r, kid := Attempt(p, stable, fails);
        if !r.Good? {
          s := s.(life := s.life.SetFailed(None));
        }
      }
    }

    // --- boot, restart, and any number of them ------------------------------------------

    /** Between two operations of the daemon thread. */
    ghost predicate AtRest()
      reads this
    {
      Inv(s) && NoPublisher(s) && Retains(s, cmd) && s.wired && s.life.url == port > 0
    }

    /** Boot is the degenerate restart; it ends by recording the URL. */
    method Boot(free: bool, fails: bool, failsAgain: bool) returns (ok: bool, ghost p0: int, ghost r: Outcome)
      requires Inv(s) && s.kids == [] && !s.wired && port >= 0 && !s.life.state.Ready?
      modifies this
      ensures AtRest()
      ensures |s.kids| <= 2 && |s.flips| == |old(s).flips| + (if ok then 1 else 0)
      ensures p0 > 0 && (old(port) > 0 ==> p0 == old(port)) && ok == r.Good?
      ensures Attempts(0, s, p0, free, fails, failsAgain, r, port) && Failure(s, p0, free, r, cmd, port)
      ensures ok ==> cmd.Some? && s.kids[cmd.value].port == port && s.flips[|s.flips| - 1].kid == cmd.value
      ensures ok ==> cmd.Some? && AnsweredFor(cmd.value, s.dials, port, s.now)
      ensures !ok ==> !s.life.state.Ready?
    {
      if port == 0 {
        port := FreePort();
      }
      p0 := port;
      var out, kid, p := RestartCore(port, free, fails, failsAgain);
      ok, r := out.Good?, out;
      cmd, port := kid, p;
      s := s.(life := s.life.SetOpenCodeURL(port), wired := true);
    }

    /** The restart of the owned arm: stop, then the shared core.  Success publishes
        ready once, for the returned child, on the URL of that child; failure leaves
        the served port alone and never shows ready.  The time is bounded. */
    method Restart(free: bool, fails: bool, failsAgain: bool)
      returns (ok: bool, ghost mid: Shared, ghost r: Outcome, ghost p: int)
      requires AtRest()
      modifies this
      ensures AtRest()
      ensures |old(s).kids| <= |s.kids| <= |old(s).kids| + 2
      ensures ok ==> cmd.Some? && |old(s).kids| <= cmd.value && s.kids[cmd.value].port == port
                     && s.flips == old(s).flips + [Flip(cmd.value, port)]
      ensures ok ==> cmd.Some? && AnsweredFor(cmd.value, s.dials, port, s.now)
      ensures !ok ==> s.flips == old(s).flips && port == old(port) && !s.life.state.Ready?
      ensures Escalation(old(cmd), old(s).sent, mid.sent, mid.now - old(s).now, AllDone(mid)) && s.sent == mid.sent
      ensures if AllDone(mid) then ok == r.Good? && CoreReport(mid, s, old(port), free, fails, failsAgain, r, cmd, p)
              else !ok && s == mid && cmd == old(cmd) && s.life.state.Failed?
      ensures s.now - old(s).now <= STOP_GRACE + KILL_WAIT + 2 * (READY_WAIT + DIAL_TIMEOUT + STABILIZE + POLL)
    {
      s := s.(life := s.life.SetStarting());
      ghost var s1 := s;
      var stopped := StopOwnedChild();
      StillRetained(s1, s, cmd);
      mid, r, p := s, SpawnFailed, port;
      if !stopped {
        return false, mid, r, p;
      }
      var out, kid, took := RestartCore(port, free, fails, failsAgain);
      ok, r, p := out.Good?, out, took;
      cmd := kid;
      if ok {
        port := if took <= 0 || took == port then port else took;
      }
    }

    /** Any number of restarts after boot: the daemon is at rest again each time,
        whatever the reapers do in between. */
    method Serve(restarts: nat)
      requires Inv(s) && s.kids == [] && !s.wired && port >= 0 && !s.life.state.Ready?
      modifies this
      ensures AtRest()
    {
      var free: bool, fails: bool, failsAgain: bool := *, *, *;
      var booted, _, _ := Boot(free, fails, failsAgain);
      var left := restarts;
      while left > 0
        invariant AtRest()
      {
        ghost var s0 := s;
        Reapers();
        StillRetained(s0, s, cmd);
        free, fails, failsAgain := *, *, *;
        var ok, _, _, _ := Restart(free, fails, failsAgain);
        left := left - 1;
      }
    }
  }

  /** No dial from the `n`th on was accepted. */
  predicate Unanswered(n: nat, dials: seq<Dial>) {
    n <= |dials| && forall k :: n <= k < |dials| ==> !dials[k].accepted
  }

  /** When the dials from the `n`th on were made. */
  function Since(n: nat, dials: seq<Dial>): (ts: seq<int>)
    requires n <= |dials|
    ensures |ts| == |dials| - n && forall k :: 0 <= k < |ts| ==> ts[k] == dials[n + k].at
  {
    seq(|dials| - n, k requires 0 <= k < |dials| - n => dials[n + k].at)
  }

  /** From the `n`th on all dials were of `port` for child `i`, one at every poll. */
  ghost predicate DialledSince(n: nat, dials: seq<Dial>, i: nat, port: int, start: int) {
    && n <= |dials| && (forall k :: n <= k < |dials| ==> dials[k].kid == i && dials[k].port == port)
    && Paced(Since(n, dials), start, DIAL_TIMEOUT, POLL + DIAL_TIMEOUT)
  }

  lemma DialledMore(n: nat, dials: seq<Dial>, d: Dial, start: int, i: nat, port: int)
    requires n <= |dials| && d.kid == i && d.port == port
    requires |dials| == n ==> d.at <= start + DIAL_TIMEOUT
    requires |dials| > n ==>
               DialledSince(n, dials, i, port, start) && d.at <= dials[|dials| - 1].at + POLL + DIAL_TIMEOUT
    ensures DialledSince(n, dials + [d], i, port, start)
  {
    PacedMore(Since(n, dials), start, DIAL_TIMEOUT, POLL + DIAL_TIMEOUT, d.at);
    assert Since(n, dials + [d]) == Since(n, dials) + [d.at];
  }

  /** No dial was accepted so far, and the last one is a poll ago. */
  ghost predicate Dialling(n: nat, dials: seq<Dial>, i: nat, port: int, start: int, now: int) {
    && Unanswered(n, dials) && (|dials| == n ==> now == start)
    && (|dials| > n ==> DialledSince(n, dials, i, port, start) && dials[|dials| - 1].at + POLL == now)
  }

  ghost predicate Accepted(n: nat, dials: seq<Dial>, i: nat, port: int, start: int, at: int) {
    DialledSince(n, dials, i, port, start) && AnsweredAt(n, dials, i, port, at)
  }

  lemma DialResult(n: nat, dials: seq<Dial>, d: Dial, i: nat, port: int, start: int, now: int)
    requires Dialling(n, dials, i, port, start, now) && d.kid == i && d.port == port && d.open
    requires d.at <= now + DIAL_TIMEOUT
    ensures d.accepted ==> Accepted(n, dials + [d], i, port, start, d.at)
    ensures !d.accepted ==> Dialling(n, dials + [d], i, port, start, d.at + POLL)
  {
    DialledMore(n, dials, d, start, i, port);
    assert (dials + [d])[..|dials|] == dials;
  }

  /** When child `i` was dialled for. */
  function TimesFor(i: nat, dials: seq<Dial>): seq<int> {
    if dials == [] then []
    else TimesFor(i, dials[..|dials| - 1]) + (if dials[|dials| - 1].kid == i then [dials[|dials| - 1].at] else [])
  }

  /** Child `i` was waited for in vain from its birth on: its port was dialled at every
      poll until the budget was used up, and no dial was accepted.  So a port that had
      accepted for longer than a gap would have been found. */
  ghost predicate InVain(i: nat, dials: seq<Dial>, port: int, born: int) {
    && Paced(TimesFor(i, dials), born, DIAL_TIMEOUT, POLL + DIAL_TIMEOUT)
    && TimesFor(i, dials)[|TimesFor(i, dials)| - 1] + POLL > born + READY_WAIT
    && forall k :: 0 <= k < |dials| && dials[k].kid == i ==> dials[k].port == port && !dials[k].accepted
  }

  lemma {:induction false} TimeOfDial(i: nat, dials: seq<Dial>, j: nat) returns (k: nat)
    requires j < |TimesFor(i, dials)|
    ensures k < |dials| && dials[k].kid == i && dials[k].at == TimesFor(i, dials)[j]
  {
    var init := dials[..|dials| - 1];
    if j < |TimesFor(i, init)| {
      k := TimeOfDial(i, init, j);
    } else {
      k := |dials| - 1;
    }
  }

  /** Whenever during such a wait one looks, the port was dialled within a poll and a
      dial's time, and did not accept: one that accepts for that long cannot time out. */
  lemma NeverUnseen(i: nat, dials: seq<Dial>, port: int, born: int, t: int)
    requires InVain(i, dials, port, born) && born <= t <= born + READY_WAIT - POLL
    ensures exists k :: 0 <= k < |dials| && dials[k].kid == i && dials[k].port == port && !dials[k].accepted
                        && t <= dials[k].at <= t + POLL + DIAL_TIMEOUT
  {
    var ts := TimesFor(i, dials);
    SeenInTime(ts, born, DIAL_TIMEOUT, POLL + DIAL_TIMEOUT, t);
    var j :| 0 <= j < |ts| && t <= ts[j] <= t + (POLL + DIAL_TIMEOUT);
    var k := TimeOfDial(i, dials, j);
    assert dials[k].kid == i;
  }

  lemma {:induction false} NoneFor(i: nat, dials: seq<Dial>)
    requires forall k :: 0 <= k < |dials| ==> dials[k].kid < i
    ensures TimesFor(i, dials) == []
  {
    if dials != [] { NoneFor(i, dials[..|dials| - 1]); }
  }

  lemma {:induction false} AllFor(i: nat, n: nat, dials: seq<Dial>)
    requires n <= |dials| && (forall k :: 0 <= k < n ==> dials[k].kid < i)
    requires forall k :: n <= k < |dials| ==> dials[k].kid == i
    ensures TimesFor(i, dials) == Since(n, dials)
  {
    if |dials| == n {
      NoneFor(i, dials);
    } else {
      AllFor(i, n, dials[..|dials| - 1]);
      assert Since(n, dials) == Since(n, dials[..|dials| - 1]) + [dials[|dials| - 1].at];
    }
  }

  /** For a new child the dials of its wait are all there are for it. */
  lemma WaitedInVain(s0: Shared, dials: seq<Dial>, port: int)
    requires DialsOk(s0) && s0.dials <= dials && Unanswered(|s0.dials|, dials) && |dials| > |s0.dials|
    requires DialledSince(|s0.dials|, dials, |s0.kids|, port, s0.now)
    requires dials[|dials| - 1].at + POLL > s0.now + READY_WAIT
    ensures InVain(|s0.kids|, dials, port, s0.now)
  {
    assert forall k :: 0 <= k < |s0.dials| ==> dials[k] == s0.dials[k];
    AllFor(|s0.kids|, |s0.dials|, dials);
  }

  /** Of the dials from the `n`th on the last one, at time `at`, was the first to be
      accepted; it was of `port`, for child `i`, with the oracle open. */
  predicate AnsweredAt(n: nat, dials: seq<Dial>, i: nat, port: int, at: int) {
    n < |dials| && dials[|dials| - 1] == Dial(at, i, port, true, true) && Unanswered(n, dials[..|dials| - 1])
  }

  /** And that was at least the stabilization window before `now`. */
  predicate Answered(n: nat, dials: seq<Dial>, i: nat, port: int, now: int) {
    n < |dials| && AnsweredAt(n, dials, i, port, dials[|dials| - 1].at) && dials[|dials| - 1].at + STABILIZE <= now
  }

  /** The last dial of all was the first one for child `i` to be accepted, of `port`,
      with the oracle open, and at least the stabilization window before `now`. */
  predicate AnsweredFor(i: nat, dials: seq<Dial>, port: int, now: int) {
    && dials != []
    && var last := dials[|dials| - 1];
    && last == Dial(last.at, i, port, true, true) && last.at + STABILIZE <= now
    && forall k :: 0 <= k < |dials| - 1 && dials[k].kid == i ==> !dials[k].accepted
  }

  /** For a new child the dials of its wait are all there are for it. */
  lemma FirstAnswer(s0: Shared, dials: seq<Dial>, port: int, now: int)
    requires DialsOk(s0) && s0.dials <= dials && Answered(|s0.dials|, dials, |s0.kids|, port, now)
    ensures AnsweredFor(|s0.kids|, dials, port, now)
  {
    assert forall k :: 0 <= k < |s0.dials| ==> dials[k] == s0.dials[k];
    forall k | |s0.dials| <= k < |dials| - 1 ensures !dials[k].accepted {
      assert dials[..|dials| - 1][k] == dials[k];
    }
  }

  ghost predicate KidsLater(s: Shared, s': Shared) {
    |s'.kids| == |s.kids| && forall i :: 0 <= i < |s.kids| ==> KidLater(s.kids[i], s'.kids[i])
  }

  lemma KidsLaterTrans(s: Shared, s': Shared, s'': Shared)
    requires KidsLater(s, s') && KidsLater(s', s'')
    ensures KidsLater(s, s'')
  {
    forall i | 0 <= i < |s.kids| ensures KidLater(s.kids[i], s''.kids[i]) {
      assert KidLater(s.kids[i], s'.kids[i]) && KidLater(s'.kids[i], s''.kids[i]);
    }
  }

  /** What was sent to the retained child in `elapsed` milliseconds: SIGTERM, then
      SIGKILL exactly when the grace period passed without a recorded exit. */
  predicate Escalation(cmd: Option<nat>, before: seq<Sent>, after: seq<Sent>, elapsed: int, ok: bool) {
    match cmd
    case None => after == before && ok
    case Some(c) =>
      || (after == before + [Term(c)] && ok && elapsed <= STOP_GRACE)
      || (after == before + [Term(c), Kill(c)] && elapsed >= STOP_GRACE && (ok || elapsed == STOP_GRACE + KILL_WAIT))
  }

  ghost predicate NoPublisher(s: Shared) {
    forall i :: 0 <= i < |s.kids| ==> !s.kids[i].mu.Publisher?
  }

  lemma StillRetained(s: Shared, s': Shared, cmd: Option<nat>)
    requires |s'.kids| == |s.kids| && NoPublisher(s) && Retains(s, cmd)
    requires forall i :: 0 <= i < |s.kids| ==> KidLater(s.kids[i], s'.kids[i])
    ensures NoPublisher(s') && Retains(s', cmd)
  {
    forall i | 0 <= i < |s.kids| ensures !s'.kids[i].mu.Publisher? && (!s'.kids[i].done ==> cmd == Some(i)) {
      assert KidLater(s.kids[i], s'.kids[i]);
    }
  }

  lemma WaitedFor(s0: Shared, s1: Shared, s: Shared, p: int)
    requires AllDone(s0) && NoPublisher(s0) && Later(s1, s)
    requires s1.kids == s0.kids + [Kid(p, None, Nobody, false, Waiting, s0.now)]
    ensures NoPublisher(s) && |s.kids| == |s0.kids| + 1 && s.kids[|s0.kids|].port == p
    ensures forall i :: 0 <= i < |s0.kids| ==> s.kids[i].done && s.kids[i].port == s0.kids[i].port
  {
    forall i | 0 <= i < |s.kids|
      ensures !s.kids[i].mu.Publisher? && s.kids[i].port == s1.kids[i].port && (s1.kids[i].done ==> s.kids[i].done)
    {
      assert KidLater(s1.kids[i], s.kids[i]);
    }
  }

  /** What one attempt from a state without open children did. */
  ghost predicate AttemptReport(s0: Shared, s: Shared, p: int, stable: int, fails: bool, r: Outcome, kid: Option<nat>) {
    && (fails <==> r.SpawnFailed?)
    && (fails ==> kid.None? && s.kids == s0.kids && s.life.state.Failed? && s.life.exitCode.None?)
    && (!fails ==> kid == Some(|s0.kids|) && |s.kids| == |s0.kids| + 1 && s.kids[|s0.kids|].port == p)
    && (!fails ==> s.kids[|s0.kids|].born == s0.now)
    && (forall i :: 0 <= i < |s0.kids| && i < |s.kids| ==> s.kids[i].done && s.kids[i].port == s0.kids[i].port)
    && (r.ChildExited? ==> AllDone(s) && ExitStands(s))
    && (r.TimedOut? ==> InVain(|s0.kids|, s.dials, p, s0.now) && s.life.state.Failed? && s.life.exitCode.None?)
    && s0.dials <= s.dials
    && (r.Good? ==>
          && s.life.state.Ready? && !AllDone(s) && AnsweredFor(|s0.kids|, s.dials, p, s.now)
          && s.life.url == Target(s0.life.url, stable, p)
          && s.flips == s0.flips + [Flip(|s0.kids|, s.life.url)])
    && (!r.Good? ==> s.flips == s0.flips && s.life.url == s0.life.url && !s.life.state.Ready?)
    && s.wired == s0.wired && s.sent == s0.sent
  }

  /** The newest child exited, and the lifecycle says how. */
  ghost predicate ExitStands(s: Shared) {
    && |s.kids| > 0 && s.kids[|s.kids| - 1].exited.Some?
    && SaysExit(s.life, s.kids[|s.kids| - 1].exited.value)
  }

  /** So it is when `i` is the newest child, and nothing else was to be said before. */
  ghost predicate StandsIfLast(s0: Shared, s: Shared, i: nat) {
    i == |s.kids| - 1 && ExitShown(s0) ==> ExitStands(s)
  }

  lemma ExitedStands(s0: Shared, s: Shared, i: nat)
    requires Inv(s) && Later(s0, s) && i < |s.kids| && s.kids[i].done
    ensures StandsIfLast(s0, s, i)
  {
    assert KidOk(s.kids[i]);
  }

  /** Which spawns a restart makes: the stable port is tried exactly when it is free,
      and a fresh one then exactly when the exit of that child was recorded before
      readiness. */
  ghost predicate Attempts(n: nat, s: Shared, stable: int, free: bool, fails: bool, failsAgain: bool, r: Outcome,
                           p: int) {
    if !(stable > 0 && free) || fails then
      && |s.kids| == n + (if fails then 0 else 1) && (r.SpawnFailed? <==> fails)
      && (stable > 0 && free ==> p == stable)
    else
      && |s.kids| > n && s.kids[n].port == stable
      && if (r.Good? || r.TimedOut?) && |s.kids| == n + 1 then p == stable
         else s.kids[n].done && (r.SpawnFailed? <==> failsAgain) && |s.kids| == n + (if failsAgain then 1 else 2)
  }

  /** What a restart without success leaves in the lifecycle: the recorded exit of the
      last child when that was the second attempt, else a failure without a code; and a
      child that timed out was waited for in vain. */
  ghost predicate Failure(s: Shared, stable: int, free: bool, r: Outcome, kid: Option<nat>, p: int) {
    && (!r.Good? ==>
          if r.ChildExited? && stable > 0 && free then ExitStands(s) else s.life.state.Failed? && s.life.exitCode.None?)
    && (r.TimedOut? ==> kid.Some? && kid.value < |s.kids| && InVain(kid.value, s.dials, p, s.kids[kid.value].born))
  }

  /** What a whole restart did: at most two spawns, the second only after the exit
      of a first one on the stable port was recorded; one readiness flip exactly on
      success, for the returned child; and no readiness otherwise. */
  ghost predicate CoreReport(s0: Shared, s: Shared, stable: int, free: bool, fails: bool, failsAgain: bool, r: Outcome,
                             kid: Option<nat>, p: int) {
    && p > 0
    && Attempts(|s0.kids|, s, stable, free, fails, failsAgain, r, p) && Failure(s, stable, free, r, kid, p)
    && (forall i :: 0 <= i < |s0.kids| && i < |s.kids| ==> s.kids[i].done)
    && (forall i :: 0 <= i < |s.kids| && !s.kids[i].done ==> kid == Some(i))
    && (kid.Some? ==> kid.value == |s.kids| - 1 && kid.value >= |s0.kids| && s.kids[kid.value].port == p)
    && s0.dials <= s.dials
    && (r.Good? ==>
          && kid.Some? && !s.kids[kid.value].done && s.life.state.Ready?
          && AnsweredFor(kid.value, s.dials, p, s.now)
          && s.life.url == Target(s0.life.url, stable, p)
          && s.flips == s0.flips + [Flip(kid.value, s.life.url)])
    && (!r.Good? ==> s.flips == s0.flips && s.life.url == s0.life.url && !s.life.state.Ready?)
    && s.wired == s0.wired && s.sent == s0.sent
  }

  /** The second attempt's own failure is recorded as one without a code, unless its
      child exited. */
  function Exhausted(s: Shared, r: Outcome): Shared {
    if r.Good? || r.ChildExited? then s else s.(life := s.life.SetFailed(None))
  }

  lemma TwoAttempts(s0: Shared, s1: Shared, s: Shared, stable: int, p: int, fails: bool, failsAgain: bool, r: Outcome,
                    kid: Option<nat>)
    requires stable > 0 && p > 0 && AllDone(s0) && !fails
    requires AttemptReport(s0, s1, stable, stable, fails, ChildExited, Some(|s0.kids|))
    requires AttemptReport(s1, s, p, stable, failsAgain, r, kid)
    ensures CoreReport(s0, Exhausted(s, r), stable, true, fails, failsAgain, r, kid, p)
  {
  }

  /** The URL after the retarget: unchanged on the port already served. */
  function Target(url: int, stable: int, port: int): int {
    if port <= 0 || port == stable then url else port
  }

  /** The retained child is the only one whose exit may be unrecorded. */
  ghost predicate Retains(s: Shared, cmd: Option<nat>) {
    && (cmd.Some? ==> cmd.value < |s.kids|)
    && forall i :: 0 <= i < |s.kids| && !s.kids[i].done ==> cmd == Some(i)
  }

  lemma RetainedDone(s: Shared, s': Shared, cmd: Option<nat>)
    requires Retains(s, cmd) && cmd.Some? && |s'.kids| == |s.kids|
    requires forall i :: 0 <= i < |s.kids| ==> KidLater(s.kids[i], s'.kids[i])
    requires s'.kids[cmd.value].done
    ensures AllDone(s')
  {
    forall i | 0 <= i < |s'.kids| ensures s'.kids[i].done {
      assert KidLater(s.kids[i], s'.kids[i]);
    }
  }

  lemma LaterSelf(s: Shared)
    ensures Later(s, s)
  {
  }

  /** Why the gate is there: if the publisher only checked the oracle and then set
      ready, the reaper could record the exit in between, and ready would stand
      over a child that is recorded dead. */
  lemma CheckThenPublishIsNotEnough(s: Shared) returns (s1: Shared, s2: Shared, s3: Shared)
    requires Inv(s) && |s.kids| > 0
    requires var x := s.kids[|s.kids| - 1]; x.exited.Some? && x.stage.Waiting? && x.mu.Nobody? && !x.done
    ensures var i := |s.kids| - 1;
            && CanReap(s, Enter(i)) && s1 == Reap(s, Enter(i))
            && CanReap(s1, Record(i)) && s2 == Reap(s1, Record(i))
            && CanReap(s2, Close(i)) && s3 == Reap(s2, Close(i))
            && Inv(s3) && s3.kids[i].done
            && !ReadyIsTrue(s3.(life := s3.life.SetReady()))
  {
    var i := |s.kids| - 1;
    s1 := Reap(s, Enter(i));
    s2 := Reap(s1, Record(i));
    s3 := Reap(s2, Close(i));
    ReapKeeps(s, Enter(i));
    ReapKeeps(s1, Record(i));
    ReapKeeps(s2, Close(i));
  }
}

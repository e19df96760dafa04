/**
 What the detached transactions run on.

 A Machine holds the world of the owner-lock protocol.  Every system call of a
 transaction is one `Do` of an event that the protocol allows there, and between
 any two of them `Others` lets the rest of the system take any number of steps.
 So a transaction that verifies is a part of a run of the protocol.

 An Observer is the eyes and the watch of one starter: each of its looks at the
 system is recorded with the time and the world it was made in, so that what a
 transaction decides can be stated in terms of what was there to be seen.
*/
module DetachedMachine {
  import opened Wrappers
  import opened OwnerLock
  import opened OwnerLockInv
  import opened OwnerLockRuns
  import opened Ports
  import opened Pacing

  class Machine {
    var w: World

    ghost predicate Valid()
      reads this
    {
      Reachable(w)
    }

    constructor ()
      ensures Valid() && w == INIT
    {
      w := INIT;
      new;
      assert Run(INIT, [], w);
    }

    method Do(e: Event)
      requires Valid() && Enabled(w, e)
      modifies this
      ensures Valid() && w == Next(old(w), e) && Elapsed(old(w), w)
    {
      ReachableNext(w, e);
      IdentitiesKept(w, e);
      SignalsKept(w, e);
      w := Next(w, e);
    }

    /** A step of another process that this starter brings about: a signal takes
        effect, a wait returns. */
    method Cause(d: nat, e: Event)
      requires Valid() && LiveDaemon(w, d) && ByOthers(d, e) && Enabled(w, e)
      modifies this
      ensures Valid() && w == Next(old(w), e) && Undisturbed(d, old(w), w) && Elapsed(old(w), w)
    {
      ReachableInv(w);
      UndisturbedStep(d, w, e);
      Do(e);
    }

    /** Any number of steps that are not this starter's own and do not kill it. */
    method Others(d: nat)
      requires Valid() && LiveDaemon(w, d)
      modifies this
      ensures Valid() && Undisturbed(d, old(w), w) && Elapsed(old(w), w)
    {
      ReachableInv(w);
      UndisturbedRun(d, w, [], w);
      var steps: nat := *;
      while steps > 0
        invariant Valid() && Undisturbed(d, old(w), w)
      {
        var e: Event := *;
        if ByOthers(d, e) && Enabled(w, e) {
          ReachableInv(w);
          UndisturbedStep(d, w, e);
          UndisturbedTrans(d, old(w), w, Next(w, e));
          Do(e);
        }
        steps := steps - 1;
      }
    }
  }

  // ----- looks ------------------------------------------------------------------------

  // All times are in milliseconds.
  const READY_WAIT: nat := 30000
  const OWNER_RELEASE_WAIT: nat := 15000
  const DIAL_TIMEOUT: nat := 500
  const PORT_POLL: nat := 250
  const RELEASE_POLL: nat := 100
  const FLUSH_WAIT: nat := 2000
  const PROBE_ATTEMPTS: nat := 3
  const PROBE_TIMEOUT: nat := 2000
  const PROBE_GAP: nat := 500

  /** What a starter looks at: the flock on the starter lock, the state file, the pid
      and the command line of a record, the probe of the owner lock, a port it asks the
      system for, whether a port is free, fd 3 of a child, a dial of the port of a
      child, and the flush of the log follower. */
  datatype Sight =
    | LockTry
    | StateRead
    | AliveTest(pid: int)
    | CmdlineRead(pid: int, port: int)
    | OwnerProbe
    | FreshPort(port: int)
    | PortTest(port: int)
    | FdCheck(child: nat)
    | Dialled(child: nat, port: int, accepted: bool)
    | Flushed

  datatype Look = Look(what: Sight, at: int, w: World)

  /** kill(pid, 0): a zombie still answers. */
  predicate ProcessAlive(w: World, pid: int) {
    exists p :: 0 <= p < |w.procs| && w.procs[p].pid == pid && !w.procs[p].status.Gone?
  }

  /** Reads the command line of the pid.  A zombie's reads empty; a process that
      vanished in between cannot be read, which counts as a match. */
  predicate CmdlineMatches(w: World, pid: int, port: int) {
    ProcessAlive(w, pid) ==>
      exists p :: 0 <= p < |w.procs| && w.procs[p].pid == pid && w.procs[p].status.Live? && port in w.procs[p].claims
  }

  /** Is fd 3 of the child still there?  Reading /proc of a child that exited finds
      nothing. */
  predicate ChildRetainsOwner(w: World, c: nat) {
    IsLive(w, c) && w.procs[c].fd3
  }

  /** Time passes where a starter dials, probes, waits or sleeps; its other steps take none. */
  class Observer {
    var now: int
    ghost var seen: seq<Look>

    constructor (now: int)
      ensures this.now == now && seen == []
    {
      this.now := now;
      seen := [];
    }

    method Sleep(ms: nat)
      modifies this`now
      ensures now == old(now) + ms
    {
      now := now + ms;
    }

    /** Something that ends by itself or at its time limit. */
    method Wait(limit: nat)
      modifies this`now
      ensures old(now) <= now <= old(now) + limit
    {
      var took: int := *;
      Sleep(if 0 <= took <= limit then took else limit);
    }

    ghost method Note(what: Sight, m: Machine)
      modifies this`seen
      ensures seen == old(seen) + [Look(what, now, m.w)]
    {
      seen := seen + [Look(what, now, m.w)];
    }

    method ReadState(m: Machine) returns (st: Option<Rec>)
      modifies this`seen
      ensures st == m.w.file && seen == old(seen) + [Look(StateRead, now, m.w)]
    {
      Note(StateRead, m);
      st := m.w.file;
    }

    method Alive(m: Machine, pid: int) returns (yes: bool)
      modifies this`seen
      ensures yes == ProcessAlive(m.w, pid) && seen == old(seen) + [Look(AliveTest(pid), now, m.w)]
    {
      Note(AliveTest(pid), m);
      yes := ProcessAlive(m.w, pid);
    }

    method Matches(m: Machine, pid: int, port: int) returns (yes: bool)
      modifies this`seen
      ensures yes == CmdlineMatches(m.w, pid, port) && seen == old(seen) + [Look(CmdlineRead(pid, port), now, m.w)]
    {
      Note(CmdlineRead(pid, port), m);
      yes := CmdlineMatches(m.w, pid, port);
    }

    method PickPort(m: Machine) returns (port: int)
      modifies this`seen
      ensures port > 0 && seen == old(seen) + [Look(FreshPort(port), now, m.w)]
    {
      port := FreePort();
      Note(FreshPort(port), m);
    }

    method PortFree(m: Machine, port: int) returns (yes: bool)
      modifies this`seen
      ensures yes == !PortTaken(m.w, port) && seen == old(seen) + [Look(PortTest(port), now, m.w)]
    {
      Note(PortTest(port), m);
      yes := !PortTaken(m.w, port);
    }

    method Retains(m: Machine, c: nat) returns (yes: bool)
      modifies this`seen
      ensures yes == ChildRetainsOwner(m.w, c) && seen == old(seen) + [Look(FdCheck(c), now, m.w)]
    {
      Note(FdCheck(c), m);
      yes := ChildRetainsOwner(m.w, c);
    }

    /** A dial of the port of a child on the loopback. */
    method Dial(m: Machine, c: nat, port: int) returns (accepted: bool)
      modifies this
      ensures old(now) <= now <= old(now) + DIAL_TIMEOUT
      ensures seen == old(seen) + [Look(Dialled(c, port, accepted), now, m.w)]
    {
      Wait(DIAL_TIMEOUT);
      accepted := *;
      Note(Dialled(c, port, accepted), m);
    }

    /** The bounded wait for the log follower's answer. */
    method Flush(m: Machine)
      modifies this
      ensures old(now) <= now <= old(now) + FLUSH_WAIT
      ensures seen == old(seen) + [Look(Flushed, now, m.w)]
    {
      Wait(FLUSH_WAIT);
      Note(Flushed, m);
    }
  }

  /** Incarnations stay what they are over any stretch of time, and no signal is
      forgotten. */
  ghost predicate Elapsed(w: World, w': World) {
    && |w.procs| <= |w'.procs| && (forall p :: 0 <= p < |w.procs| ==> SameIdentity(w.procs[p], w'.procs[p]))
    && w.signals <= w'.signals
  }

  lemma SignalsKept(w: World, e: Event)
    requires Enabled(w, e)
    ensures w.signals <= Next(w, e).signals
  {
  }

  // ----- what a wait saw ---------------------------------------------------------------------

  function Times(ls: seq<Look>): (ts: seq<int>)
    ensures |ts| == |ls| && forall i :: 0 <= i < |ls| ==> ts[i] == ls[i].at
  {
    seq(|ls|, i requires 0 <= i < |ls| => ls[i].at)
  }

  /** A dial that found the child itself behind the port. */
  predicate OwnDial(l: Look, c: nat, port: int) {
    l.what == Dialled(c, port, true) && c < |l.w.procs| && port in l.w.procs[c].listens
  }

  /** A readiness wait that began at `start`: the child's port was dialled at every poll,
      until a dial found the child itself behind it or the budget was used up. */
  ghost predicate ReadyWait(ls: seq<Look>, start: int, c: nat, port: int, ok: bool) {
    && Paced(Times(ls), start, DIAL_TIMEOUT, PORT_POLL + DIAL_TIMEOUT)
    && (forall i :: 0 <= i < |ls| ==> ls[i].what.Dialled? && ls[i].what.child == c && ls[i].what.port == port)
    && (forall i :: 0 <= i < |ls| - 1 ==> !OwnDial(ls[i], c, port))
    && (ok <==> OwnDial(ls[|ls| - 1], c, port))
    && (!ok ==> ls[|ls| - 1].at + PORT_POLL >= start + READY_WAIT)
  }

  /** Whenever during a wait in vain one looks, the child's port was dialled within a poll
      and a dial's time, and the child was not found behind it. */
  lemma NeverUnseen(ls: seq<Look>, start: int, c: nat, port: int, t: int)
    requires ReadyWait(ls, start, c, port, false) && start <= t <= start + READY_WAIT - PORT_POLL
    ensures exists i :: 0 <= i < |ls| && t <= ls[i].at <= t + PORT_POLL + DIAL_TIMEOUT && !OwnDial(ls[i], c, port)
  {
    SeenInTime(Times(ls), start, DIAL_TIMEOUT, PORT_POLL + DIAL_TIMEOUT, t);
    var i :| 0 <= i < |ls| && t <= Times(ls)[i] <= t + (PORT_POLL + DIAL_TIMEOUT);
    assert t <= ls[i].at <= t + PORT_POLL + DIAL_TIMEOUT;
  }

  /** A wait for the release of the owner lock that began at `start`: a probe every
      RELEASE_POLL until one was granted or the budget was used up, and a last one that
      decides. */
  ghost predicate ReleaseWait(ls: seq<Look>, start: int, held: bool) {
    && |ls| >= 2 && ls[0].at == start
    && (forall i :: 0 <= i < |ls| ==> ls[i].what.OwnerProbe?)
    && (forall i, j :: 0 <= i < |ls| - 2 && j == i + 1 ==>
          ls[j].at == ls[i].at + RELEASE_POLL && !Free(ls[i].w, OwnerLock))
    && var turn := ls[|ls| - 2];
    && (Free(turn.w, OwnerLock) || turn.at >= start + OWNER_RELEASE_WAIT)
    && ls[|ls| - 1].at == turn.at
    && (held <==> !Free(ls[|ls| - 1].w, OwnerLock))
  }
}

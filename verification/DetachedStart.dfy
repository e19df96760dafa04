/**
 The detached start transaction, step by step: the guard, the handoff of the owner
 lock to the child, the gate, the readiness wait and the publication.
*/
module DetachedStart {
  import opened Wrappers
  import opened OwnerLock
  import opened OwnerLockInv
  import opened OwnerLockRuns
  import opened Pacing
  import opened DetachedMachine

  // ----- where a starter is in its transaction ----------------------------------------

  /** What a transaction leaves alone: the retained child and the records written. */
  datatype Keep = Keep(retained: Option<nat>, writes: seq<Rec>)

  function KeepOf(w: World, d: nat): Keep
    requires d < |w.threads|
  {
    Keep(w.threads[d].retained, w.threads[d].writes)
  }

  ghost predicate Idle(w: World, d: nat, k: Keep) {
    LiveDaemon(w, d) && w.threads[d] == NO_TRANSACTION.(retained := k.retained, writes := k.writes)
  }

  /** Holding the starter lock, with no other descriptor and no child. */
  ghost predicate Held(w: World, d: nat, k: Keep) {
    && LiveDaemon(w, d) && Holds(w, d)
    && var t := w.threads[d];
       t == NO_TRANSACTION.(starter := t.starter, sawFree := t.sawFree, retained := k.retained, writes := k.writes)
  }

  /** Holding the starter lock and the owner lock, before the spawn. */
  ghost predicate Armed(w: World, d: nat, k: Keep) {
    && LiveDaemon(w, d) && Holds(w, d)
    && var t := w.threads[d];
    && t == NO_TRANSACTION.(starter := t.starter, owner := t.owner, sawFree := true,
                            retained := k.retained, writes := k.writes)
    && t.owner.Some? && t.owner.value < |w.ofds| && w.ofds[t.owner.value].locked
  }

  /** The owner file is open but not yet locked. */
  ghost predicate Opened(w: World, d: nat, k: Keep) {
    && LiveDaemon(w, d) && Holds(w, d)
    && var t := w.threads[d];
    && t == NO_TRANSACTION.(starter := t.starter, owner := t.owner, sawFree := true,
                            retained := k.retained, writes := k.writes)
    && t.owner.Some? && t.owner.value < |w.ofds| && !w.ofds[t.owner.value].locked
  }

  /** Holding the starter lock and no other descriptor, with or without a child. */
  ghost predicate Settled(w: World, d: nat, k: Keep) {
    && LiveDaemon(w, d) && Holds(w, d) && KeepOf(w, d) == k
    && w.threads[d].probe.None? && w.threads[d].owner.None?
  }

  /** Both locks held and the child started, before the retention check. */
  ghost predicate Parenting(w: World, d: nat, k: Keep, c: nat, port: int) {
    && LiveDaemon(w, d) && Holds(w, d)
    && var t := w.threads[d];
    && t == NO_TRANSACTION.(starter := t.starter, owner := t.owner, sawFree := true, child := Some(c),
                            retained := k.retained, writes := k.writes)
    && t.owner.Some? && t.owner.value < |w.ofds| && w.ofds[t.owner.value].locked
    && IsServe(w, c) && w.procs[c].kind.port == port && w.procs[c].parent == d
  }

  /** Holding the starter lock with a child that passed the retention check and
      owns the slot alone. */
  ghost predicate HandedOff(w: World, d: nat, k: Keep, c: nat, port: int, ready: bool) {
    && LiveDaemon(w, d) && Holds(w, d)
    && var t := w.threads[d];
    && t == NO_TRANSACTION.(starter := t.starter, child := Some(c), checked := true, ready := ready,
                            retained := k.retained, writes := k.writes)
    && IsServe(w, c) && w.procs[c].kind.port == port
  }

  /** Which system calls of a transaction may fail by themselves, and not because of
      what others hold: on the starter file, on the probe, on the owner file, and the
      start of the child. */
  datatype Faults = Faults(lock: bool, probe: bool, take: bool, spawn: bool)

  // ----- the guard --------------------------------------------------------------------------

  datatype LockVerdict = Acquired | Contended | LockError

  datatype TakeResult = Taken | TakeOpenFailed | TakeFlockFailed | TakeContended

  /** The guard of one transaction: the starter descriptor, and the parent's copy
      of the owner descriptor between taking it and closing it. */
  class SpawnGuard {
    const d: nat
    var starterFD: Option<nat>
    var ownerFile: Option<nat>

    constructor (d: nat, fd: nat)
      ensures this.d == d && starterFD == Some(fd) && ownerFile == None
    {
      this.d := d;
      starterFD := Some(fd);
      ownerFile := None;
    }

    /** The fields say what the kernel's descriptor table says. */
    ghost predicate Mirrors(w: World)
      reads this
    {
      d < |w.threads| && starterFD == w.threads[d].starter && ownerFile == w.threads[d].owner
    }

    /** LOCK_UN and close of the starter descriptor.  Every caller arrives with
        ownerFile None, so the defensive close of the owner descriptor has
        nothing to do. */
    method Release(m: Machine, keep: bool, ghost k: Keep)
      requires m.Valid() && Mirrors(m.w)
      requires Settled(m.w, d, k)
      modifies this, m
      ensures m.Valid() && Elapsed(old(m.w), m.w) && starterFD == None && ownerFile == None
      ensures var child := old(m.w).threads[d].child;
              Idle(m.w, d, k.(retained := if keep && child.Some? then child else k.retained))
    {
      m.Do(UnlockStarter(d));
      m.Others(d);
      m.Do(CloseStarter(d, keep));
      starterFD := None;
    }

    /** The non-blocking flock on the owner descriptor just opened.  The branch
        for contention, which would close the descriptor again, is dead. */
    method FlockOwner(m: Machine, ghost k: Keep) returns (r: TakeResult)
      requires m.Valid() && Opened(m.w, d, k) && starterFD == m.w.threads[d].starter
      modifies this, m
      ensures m.Valid() && Elapsed(old(m.w), m.w)
      ensures r == Taken && Armed(m.w, d, k) && Mirrors(m.w) && ownerFile.Some?
    {
      ReachableInv(m.w);
      NoContention(d, m.w);
      r := TakeContended;
      if Enabled(m.w, LockOwner(d)) {
        m.Do(LockOwner(d));
        ownerFile := m.w.threads[d].owner;
        r := Taken;
      }
    }

    /** Opens and flocks the owner file for the child.  After a probe that saw it
        free, contention cannot happen. */
    method TakeOwnerForChild(m: Machine, ghost k: Keep, mayFail: bool) returns (r: TakeResult)
      requires m.Valid() && Mirrors(m.w) && Held(m.w, d, k) && m.w.threads[d].sawFree
      modifies this, m
      ensures m.Valid() && Mirrors(m.w) && Elapsed(old(m.w), m.w)
      ensures r != TakeContended && (!mayFail ==> r == Taken)
      ensures r == Taken ==> Armed(m.w, d, k) && ownerFile.Some?
      ensures r != Taken ==> Held(m.w, d, k) && ownerFile.None?
    {
      var openFails: bool := *;
      if mayFail && openFails {
        return TakeOpenFailed;
      }
      m.Do(OpenOwner(d));
      m.Others(d);
      var flockFails: bool := *;
      if mayFail && flockFails {
        m.Do(CloseOwner(d));
        return TakeFlockFailed;
      }
      r := FlockOwner(m, k);
    }

    /** Drops the parent's only reference; never LOCK_UN. */
    method CloseParentOwnerCopy(m: Machine, ghost k: Keep)
      requires m.Valid() && Mirrors(m.w) && Armed(m.w, d, k)
      modifies this, m
      ensures m.Valid() && Mirrors(m.w) && Elapsed(old(m.w), m.w) && Held(m.w, d, k) && ownerFile.None?
    {
      DescriptorsDiffer(m.w, d);
      m.Do(CloseOwner(d));
      ownerFile := None;
    }

    method Kill(m: Machine, ghost k: Keep, c: nat, ghost port: int)
      requires m.Valid() && Parenting(m.w, d, k, c, port)
      modifies m
      ensures m.Valid() && Elapsed(old(m.w), m.w) && Parenting(m.w, d, k, c, port)
      ensures m.w.threads[d] == old(m.w).threads[d]
      ensures !m.w.procs[c].status.Live?
    {
      if IsLive(m.w, c) {
        m.Cause(d, Exit(c));
      }
    }

    method Wait(m: Machine, ghost k: Keep, c: nat, ghost port: int)
      requires m.Valid() && Parenting(m.w, d, k, c, port) && !m.w.procs[c].status.Live?
      modifies m
      ensures m.Valid() && Elapsed(old(m.w), m.w) && Parenting(m.w, d, k, c, port)
      ensures m.w.threads[d] == old(m.w).threads[d]
      ensures m.w.procs[c].status.Gone?
    {
      if m.w.procs[c].status.Zombie? {
        m.Cause(d, Reap(c));
      }
    }

    /** The child failed the retention check: kill it, wait for it, and only then
        close the parent's copy. */
    method Abandon(m: Machine, ghost k: Keep, c: nat, ghost port: int)
      requires m.Valid() && Mirrors(m.w) && Parenting(m.w, d, k, c, port)
      requires !ChildRetainsOwner(m.w, c)
      modifies this, m
      ensures m.Valid() && Mirrors(m.w) && Elapsed(old(m.w), m.w) && Held(m.w, d, k) && ownerFile.None?
      ensures c < |m.w.procs| && m.w.procs[c].status.Gone?
    {
      Kill(m, k, c, port);
      Wait(m, k, c, port);
      DescriptorsDiffer(m.w, d);
      m.Do(CloseOwner(d));
      ownerFile := None;
    }

    /** The retention check passed at this moment; the parent lets go. */
    method Confirm(m: Machine, ghost k: Keep, c: nat, ghost port: int)
      requires m.Valid() && Mirrors(m.w) && Parenting(m.w, d, k, c, port)
      requires ChildRetainsOwner(m.w, c)
      modifies this, m
      ensures m.Valid() && Mirrors(m.w) && Elapsed(old(m.w), m.w) && ownerFile.None?
      ensures HandedOff(m.w, d, k, c, port, false)
    {
      m.Do(CheckRetained(d));
      m.Others(d);
      DescriptorsDiffer(m.w, d);
      m.Do(CloseOwner(d));
      ownerFile := None;
    }

    /** Fork and exec of `opencode serve` with the owner descriptor as fd 3; the
        kernel picks the pid. */
    method StartServe(m: Machine, ghost k: Keep, port: int, mayFail: bool) returns (child: Option<nat>)
      requires m.Valid() && Mirrors(m.w) && Armed(m.w, d, k) && port > 0
      modifies m
      ensures m.Valid() && Mirrors(m.w) && Elapsed(old(m.w), m.w)
      ensures child.None? ==> Armed(m.w, d, k) && mayFail
      ensures child.Some? ==> Parenting(m.w, d, k, child.value, port) && child.value >= |old(m.w).procs|
    {
      var fails: bool := *;
      if mayFail && fails {
        return None;
      }
      ghost var free := APidIsFree(m.w.procs);
      assert FreshPid(m.w, free);
      var pid :| pid > 0 && FreshPid(m.w, pid);
      var claims: set<int> := *;
      child := Some(|m.w.procs|);
      m.Do(Spawn(d, pid, port, claims + {port}));
    }

    /** The handoff: take the owner lock, spawn with it, check that the child kept
        it, close the parent's copy.  On every path the guard ends without an
        owner descriptor, and a child is returned exactly when it passed the check;
        one that failed it is reaped. */
    method StartChildWithOwner(m: Machine, obs: Observer, ghost k: Keep, port: int, faults: Faults)
      returns (child: Option<nat>, ghost check: seq<Look>)
      requires m.Valid() && Mirrors(m.w) && Held(m.w, d, k) && m.w.threads[d].sawFree && port > 0
      modifies this, m, obs`seen
      ensures m.Valid() && Mirrors(m.w) && Elapsed(old(m.w), m.w) && ownerFile.None?
      ensures child.None? ==> Held(m.w, d, k)
      ensures child.Some? ==> HandedOff(m.w, d, k, child.value, port, false) && child.value >= |old(m.w).procs|
      ensures obs.seen == old(obs.seen) + check && Handoff(check, |old(m.w).procs|, d, port, faults, obs.now, child)
      ensures check != [] && child.None? ==> var c := check[0].what.child; c < |m.w.procs| && m.w.procs[c].status.Gone?
    {
      check := [];
      var taken := TakeOwnerForChild(m, k, faults.take);
      if taken != Taken {
        return None, [];
      }
      m.Others(d);
      child := StartServe(m, k, port, faults.spawn);
      if child.None? {
        CloseParentOwnerCopy(m, k);
        return None, [];
      }
      m.Others(d);
      child, check := CheckChild(m, obs, k, child.value, port);
    }

    /** The retention check of a child just started. */
    method CheckChild(m: Machine, obs: Observer, ghost k: Keep, c: nat, ghost port: int)
      returns (child: Option<nat>, ghost check: seq<Look>)
      requires m.Valid() && Mirrors(m.w) && Parenting(m.w, d, k, c, port)
      modifies this, m, obs`seen
      ensures m.Valid() && Mirrors(m.w) && Elapsed(old(m.w), m.w) && ownerFile.None?
      ensures child == if ChildRetainsOwner(old(m.w), c) then Some(c) else None
      ensures if child.Some? then HandedOff(m.w, d, k, c, port, false)
              else Held(m.w, d, k) && c < |m.w.procs| && m.w.procs[c].status.Gone?
      ensures check == [Look(FdCheck(c), obs.now, old(m.w))] && obs.seen == old(obs.seen) + check
    {
      check := [Look(FdCheck(c), obs.now, m.w)];
      var retained := obs.Retains(m, c);
      if retained {
        Confirm(m, k, c, port);
        child := Some(c);
      } else {
        Abandon(m, k, c, port);
        child := None;
      }
    }
  }

  /** What a handoff saw: nothing when a system call failed, else the new child's fd 3,
      and then the child was kept exactly when it was alive and still had it. */
  ghost predicate Handoff(ls: seq<Look>, n: nat, d: nat, port: int, faults: Faults, now: int, child: Option<nat>) {
    if ls == [] then (faults.take || faults.spawn) && child.None?
    else
      && |ls| == 1 && ls[0].what.FdCheck? && ls[0].at == now
      && var c, v := ls[0].what.child, ls[0].w;
      && c >= n && IsServe(v, c) && v.procs[c].parent == d && v.procs[c].kind.port == port
      && child == if ChildRetainsOwner(v, c) then Some(c) else None
  }

  /** `d` has sent no signal since there were `from` of them. */
  ghost predicate NoneSent(w: World, from: nat, d: nat) {
    forall k :: from <= k < |w.signals| ==> w.signals[k].sender != d
  }

  /** Takes the starter lock without blocking, exactly when nobody holds it.  On
      contention or error the daemon is back where it was. */
  method AcquireSpawnGuard(m: Machine, obs: Observer, d: nat, ghost k: Keep, mayFail: bool)
    returns (g: SpawnGuard?, verdict: LockVerdict, ghost try: seq<Look>)
    requires m.Valid() && Idle(m.w, d, k)
    modifies m, obs`seen
    ensures m.Valid() && Elapsed(old(m.w), m.w)
    ensures verdict.Acquired? <==> g != null
    ensures g != null ==> fresh(g) && g.d == d && g.Mirrors(m.w) && Held(m.w, d, k)
    ensures g == null ==> Idle(m.w, d, k)
    ensures obs.seen == old(obs.seen) + try && Tried(try, d, mayFail, verdict)
    ensures NoneSent(m.w, |old(m.w).signals|, d)
  {
    g, try := null, [];
    var openFails: bool := *;
    if mayFail && openFails {
      return null, LockError, [];
    }
    m.Do(OpenStarter(d));
    m.Others(d);
    var flockFails: bool := *;
    if mayFail && flockFails {
      m.Do(CloseStarter(d, false));
      return null, LockError, [];
    }
    try := [Look(LockTry, obs.now, m.w)];
    obs.Note(LockTry, m);
    if Free(m.w, SpawnLock) {
      m.Do(LockStarter(d));
      g := new SpawnGuard(d, m.w.threads[d].starter.value);
      verdict := Acquired;
    } else {
      OtherHolds(m.w, d);
      verdict := Contended;
      m.Do(CloseStarter(d, false));
    }
  }

  /** What the attempt on the starter lock saw: nothing when a system call failed, else
      whether somebody holds it; and if so, another daemon does. */
  ghost predicate Tried(ls: seq<Look>, d: nat, mayFail: bool, verdict: LockVerdict) {
    if ls == [] then verdict.LockError? && mayFail
    else
      && |ls| == 1 && ls[0].what.LockTry?
      && verdict == (if Free(ls[0].w, SpawnLock) then Acquired else Contended)
      && (verdict.Contended? ==> exists a: nat :: a != d && Holds(ls[0].w, a))
  }

  lemma OtherHolds(w: World, d: nat)
    requires Reachable(w) && !Free(w, SpawnLock) && !Holds(w, d)
    ensures exists a: nat :: a != d && Holds(w, a)
  {
    ReachableInv(w);
    var o :| 0 <= o < |w.ofds| && w.ofds[o].locked && w.ofds[o].file == SpawnLock;
    assert OfdOk(w, o);
    var a :| a in w.ofds[o].refs;
    assert RefOk(w, o, a) && StarterOk(w, a);
    assert Holds(w, a);
  }

  /** Does some other description hold the owner lock?  When no system call fails the
      answer is exact; a call that fails counts as a yes. */
  method OwnerLockHeldByOthers(m: Machine, obs: Observer, d: nat, ghost k: Keep, mayFail: bool)
    returns (held: bool, ghost probe: seq<Look>)
    requires m.Valid() && Held(m.w, d, k)
    modifies m, obs`seen
    ensures m.Valid() && Elapsed(old(m.w), m.w) && Held(m.w, d, k)
    ensures m.w.threads[d].starter == old(m.w).threads[d].starter
    ensures !held ==> m.w.threads[d].sawFree
    ensures obs.seen == old(obs.seen) + probe && Probed(probe, mayFail, obs.now, held)
  {
    probe := [];
    var openFails: bool := *;
    if mayFail && openFails {
      return true, [];
    }
    m.Do(OpenProbe(d));
    m.Others(d);
    DescriptorsDiffer(m.w, d);
    var flockFails: bool := *;
    if mayFail && flockFails {
      m.Do(CloseProbe(d));
      return true, [];
    }
    probe := [Look(OwnerProbe, obs.now, m.w)];
    obs.Note(OwnerProbe, m);
    held := !Free(m.w, OwnerLock);
    if !held {
      Unprobe(m, d, k);
    } else {
      m.Do(CloseProbe(d));
    }
  }

  ghost predicate Probed(ls: seq<Look>, mayFail: bool, now: int, held: bool) {
    if ls == [] then mayFail && held
    else |ls| == 1 && ls[0].what.OwnerProbe? && ls[0].at == now && (held <==> !Free(ls[0].w, OwnerLock))
  }

  /** The probe's flock, LOCK_UN and close. */
  method Unprobe(m: Machine, d: nat, ghost k: Keep)
    requires m.Valid() && LiveDaemon(m.w, d) && Holds(m.w, d) && Free(m.w, OwnerLock)
    requires var t := m.w.threads[d];
             && t == NO_TRANSACTION.(starter := t.starter, probe := t.probe, retained := k.retained, writes := k.writes)
             && t.probe.Some? && t.probe.value < |m.w.ofds| && !m.w.ofds[t.probe.value].locked && t.probe != t.starter
    modifies m
    ensures m.Valid() && Elapsed(old(m.w), m.w) && Held(m.w, d, k) && m.w.threads[d].sawFree
    ensures m.w.threads[d].starter == old(m.w).threads[d].starter
  {
    m.Do(LockProbe(d));
    m.Others(d);
    m.Do(UnlockProbe(d));
    m.Others(d);
    m.Do(CloseProbe(d));
  }

  // ----- the probe --------------------------------------------------------------------------------

  /** What one GET comes back with. */
  datatype Reply = NoReply | Status(code: int)

  predicate Answers(r: Reply) {
    r.Status? && r.code < 500
  }

  /** What the GETs of a probe would get, the two paths of each attempt in turn. */
  predicate Probe(replies: seq<Reply>) {
    |replies| == 2 * PROBE_ATTEMPTS
  }

  predicate Attachable(replies: seq<Reply>) {
    exists i :: 0 <= i < |replies| && Answers(replies[i])
  }

  /** The longest that a probe takes. */
  const PROBE_TIME: nat := 2 * PROBE_ATTEMPTS * PROBE_TIMEOUT + (PROBE_ATTEMPTS - 1) * PROBE_GAP

  /** One attempt: the cheap path first, the other one only when that fails. */
  method ProbePort(obs: Observer, health: Reply, session: Reply) returns (ok: bool)
    modifies obs`now
    ensures ok <==> Answers(health) || Answers(session)
    ensures old(obs.now) <= obs.now <= old(obs.now) + 2 * PROBE_TIMEOUT
  {
    obs.Wait(PROBE_TIMEOUT);
    ok := Answers(health);
    if !ok {
      obs.Wait(PROBE_TIMEOUT);
      ok := Answers(session);
    }
  }

  /** Up to PROBE_ATTEMPTS attempts with a gap between them. */
  method ProbeAttachable(obs: Observer, replies: seq<Reply>) returns (ok: bool)
    requires Probe(replies)
    modifies obs`now
    ensures ok <==> Attachable(replies)
    ensures old(obs.now) <= obs.now <= old(obs.now) + PROBE_TIME
    ensures !ok ==> obs.now >= old(obs.now) + (PROBE_ATTEMPTS - 1) * PROBE_GAP
  {
    ok := false;
    var i := 0;
    while i < PROBE_ATTEMPTS && !ok
      invariant 0 <= i <= PROBE_ATTEMPTS
      invariant ok ==> Attachable(replies)
      invariant !ok ==> forall j :: 0 <= j < 2 * i ==> !Answers(replies[j])
      invariant !ok && i > 0 ==> obs.now >= old(obs.now) + (i - 1) * PROBE_GAP
      invariant old(obs.now) <= obs.now
      invariant obs.now <= old(obs.now) + 2 * i * PROBE_TIMEOUT + (if i > 0 then i - 1 else 0) * PROBE_GAP
    {
      if i > 0 {
        obs.Sleep(PROBE_GAP);
      }
      ok := ProbePort(obs, replies[2 * i], replies[2 * i + 1]);
      i := i + 1;
    }
  }

  // ----- the gate ---------------------------------------------------------------------------------

  datatype Gate = NoState | ForeignPid | Reattach | Occupied {
    predicate MaySpawn() {
      NoState? || ForeignPid?
    }
  }

  /** What the gate saw of the record: first whether the pid is alive, and if so its
      command line.  Both speak for the recorded instance, or the slot may be spawned
      into. */
  ghost predicate GateSaw(st: Option<Rec>, ls: seq<Look>, answers: bool, g: Gate) {
    match st
    case None => ls == [] && g.NoState?
    case Some(r) =>
      && ls != [] && ls[0].what == AliveTest(r.pid)
      && if !ProcessAlive(ls[0].w, r.pid) then |ls| == 1 && g.ForeignPid?
         else
           && |ls| == 2 && ls[1].what == CmdlineRead(r.pid, r.port)
           && g == if !CmdlineMatches(ls[1].w, r.pid, r.port) then ForeignPid
                   else if answers then Reattach else Occupied
  }

  lemma AliveRecord(w: World, r: Rec)
    requires Reachable(w) && RecOk(w, r)
    ensures IsLive(w, r.inc) ==> ProcessAlive(w, r.pid) && CmdlineMatches(w, r.pid, r.port)
  {
    ReachableInv(w);
    assert ProcOk(w, r.inc);
  }

  /** The gate of the start.  A verdict that permits spawning means that the recorded
      incarnation is dead; the probe only picks between the two that forbid it. */
  method ClassifyOCInstance(m: Machine, obs: Observer, d: nat, st: Option<Rec>, replies: seq<Reply>)
    returns (g: Gate, ghost gate: seq<Look>)
    requires m.Valid() && LiveDaemon(m.w, d) && Probe(replies)
    requires st.Some? ==> RecOk(m.w, st.value)
    modifies m, obs
    ensures old(obs.now) <= obs.now <= old(obs.now) + (if g.MaySpawn() then 0 else PROBE_TIME)
    ensures m.Valid() && Undisturbed(d, old(m.w), m.w) && Elapsed(old(m.w), m.w)
    ensures obs.seen == old(obs.seen) + gate && GateSaw(st, gate, Attachable(replies), g)
    ensures st.Some? && g.MaySpawn() ==> !IsLive(m.w, st.value.inc)
  {
    ReachableInv(m.w);
    UndisturbedRun(d, m.w, [], m.w);
    gate := [];
    if st.None? {
      return NoState, [];
    }
    var r := st.value;
    AliveRecord(m.w, r);
    gate := [Look(AliveTest(r.pid), obs.now, m.w)];
    var alive := obs.Alive(m, r.pid);
    if !alive {
      return ForeignPid, gate;
    }
    m.Others(d);
    LaterRecord(m, d, old(m.w), r);
    gate := gate + [Look(CmdlineRead(r.pid, r.port), obs.now, m.w)];
    var matches := obs.Matches(m, r.pid, r.port);
    if !matches {
      return ForeignPid, gate;
    }
    var answers := ProbeAttachable(obs, replies);
    g := if answers then Reattach else Occupied;
  }

  lemma LaterRecord(m: Machine, d: nat, w: World, r: Rec)
    requires m.Valid() && RecOk(w, r) && Elapsed(w, m.w)
    ensures IsLive(m.w, r.inc) ==> CmdlineMatches(m.w, r.pid, r.port)
  {
    ReachableInv(m.w);
    assert SameIdentity(w.procs[r.inc], m.w.procs[r.inc]);
    assert ProcOk(m.w, r.inc);
  }

  // ----- readiness -----------------------------------------------------------------------------------

  /** Polls until the child itself is seen to listen on the port, or the time is up. */
  method WaitForPortOwned(m: Machine, obs: Observer, d: nat, ghost k: Keep, c: nat, port: int)
    returns (ok: bool, ghost dials: seq<Look>)
    requires m.Valid() && HandedOff(m.w, d, k, c, port, false)
    modifies m, obs
    ensures m.Valid() && Elapsed(old(m.w), m.w) && HandedOff(m.w, d, k, c, port, ok)
    ensures m.w.threads[d].starter == old(m.w).threads[d].starter
    ensures old(obs.now) <= obs.now <= old(obs.now) + READY_TIME
    ensures obs.seen == old(obs.seen) + dials && ReadyWait(dials, old(obs.now), c, port, ok)
  {
    var deadline := obs.now + READY_WAIT;
    dials := [];
    ok := false;
    while obs.now < deadline
      invariant m.Valid() && Elapsed(old(m.w), m.w) && HandedOff(m.w, d, k, c, port, false)
      invariant m.w.threads[d].starter == old(m.w).threads[d].starter
      invariant old(obs.now) <= obs.now <= deadline + DIAL_TIMEOUT + PORT_POLL
      invariant obs.seen == old(obs.seen) + dials && StillWaiting(dials, old(obs.now), obs.now, c, port)
      decreases deadline - obs.now
    {
      ok, dials := DialChild(m, obs, d, k, c, port, dials, old(obs.now), old(obs.seen));
      if ok {
        return;
      }
      obs.Sleep(PORT_POLL);
    }
  }

  /** One dial, and the look behind the port when it is accepted. */
  method DialChild(m: Machine, obs: Observer, d: nat, ghost k: Keep, c: nat, port: int, ghost before: seq<Look>,
                   ghost start: int, ghost seen: seq<Look>)
    returns (ok: bool, ghost dials: seq<Look>)
    requires m.Valid() && HandedOff(m.w, d, k, c, port, false)
    requires obs.seen == seen + before && StillWaiting(before, start, obs.now, c, port)
    modifies m, obs
    ensures m.Valid() && Elapsed(old(m.w), m.w) && HandedOff(m.w, d, k, c, port, ok)
    ensures m.w.threads[d].starter == old(m.w).threads[d].starter
    ensures old(obs.now) <= obs.now <= old(obs.now) + DIAL_TIMEOUT && obs.seen == seen + dials
    ensures ok ==> ReadyWait(dials, start, c, port, true)
    ensures !ok ==> StillWaiting(dials, start, obs.now + PORT_POLL, c, port) && dials != []
    ensures !ok && obs.now + PORT_POLL >= start + READY_WAIT ==> ReadyWait(dials, start, c, port, false)
  {
    m.Others(d);
    var accepted := obs.Dial(m, c, port);
    dials := before + [Look(Dialled(c, port, accepted), obs.now, m.w)];
    OneMoreDial(before, dials[|before|], start, c, port);
    ok := accepted && port in m.w.procs[c].listens;
    if ok {
      m.Do(CheckPort(d));
    }
  }

  /** No dial has found the child yet, and the last one is a poll ago. */
  ghost predicate StillWaiting(ls: seq<Look>, start: int, now: int, c: nat, port: int) {
    && (ls == [] ==> now == start)
    && (ls != [] ==>
          ls[|ls| - 1].at + PORT_POLL == now && Paced(Times(ls), start, DIAL_TIMEOUT, PORT_POLL + DIAL_TIMEOUT))
    && forall i :: 0 <= i < |ls| ==>
         ls[i].what.Dialled? && ls[i].what.child == c && ls[i].what.port == port && !OwnDial(ls[i], c, port)
  }

  lemma OneMoreDial(ls: seq<Look>, l: Look, start: int, c: nat, port: int)
    requires StillWaiting(ls, start, if ls == [] then start else ls[|ls| - 1].at + PORT_POLL, c, port)
    requires l.at <= (if ls == [] then start else ls[|ls| - 1].at + PORT_POLL) + DIAL_TIMEOUT
    requires l.what.Dialled? && l.what.child == c && l.what.port == port
    ensures OwnDial(l, c, port) ==> ReadyWait(ls + [l], start, c, port, true)
    ensures !OwnDial(l, c, port) ==> StillWaiting(ls + [l], start, l.at + PORT_POLL, c, port)
    ensures !OwnDial(l, c, port) && l.at + PORT_POLL >= start + READY_WAIT ==>
              ReadyWait(ls + [l], start, c, port, false)
  {
    PacedMore(Times(ls), start, DIAL_TIMEOUT, PORT_POLL + DIAL_TIMEOUT, l.at);
    assert Times(ls + [l]) == Times(ls) + [l.at];
  }

  /** The longest that a readiness wait takes. */
  const READY_TIME: nat := READY_WAIT + DIAL_TIMEOUT + PORT_POLL

  /** The longest that a start takes. */
  const START_TIME: nat := READY_TIME + FLUSH_WAIT

  // ----- from a free slot to a published child ----------------------------------------------------------

  /** The record of child `c`. */
  function RecordOf(w: World, c: nat): Rec
    requires IsServe(w, c)
  {
    Rec(w.procs[c].pid, w.procs[c].kind.port, c)
  }

  /** What is kept after a write of `r` that lands or fails. */
  function Wrote(k: Keep, r: Rec, lands: bool): Keep {
    if lands then k.(writes := k.writes + [r]) else k
  }

  /** Writes the state file; only a child that passed both checks gets here.  A failed
      write or rename is discarded, and leaves the file as it was. */
  method PublishState(m: Machine, d: nat, ghost k: Keep, c: nat, ghost port: int, lands: bool) returns (ghost k': Keep)
    requires m.Valid() && HandedOff(m.w, d, k, c, port, true)
    modifies m
    ensures m.Valid() && Elapsed(old(m.w), m.w)
    ensures k' == Wrote(k, RecordOf(m.w, c), lands) && HandedOff(m.w, d, k', c, port, true)
    ensures (lands ==> m.w.file == Some(RecordOf(m.w, c))) && (!lands ==> m.w == old(m.w)) && OwnsOrDead(m.w, c)
    ensures m.w.threads[d].starter == old(m.w).threads[d].starter
  {
    if lands {
      m.Do(Publish(d));
    }
    k' := Wrote(k, RecordOf(m.w, c), lands);
    ReachableInv(m.w);
    if Covered(m.w, c) { CoveredOwns(m.w, c); }
  }

  /** A child that is alive with its fd 3 owns the slot alone. */
  ghost predicate OwnsOrDead(w: World, c: nat) {
    Covered(w, c) ==> OwnsSlot(w, c)
  }

  /** What was seen of a child, from the handoff to the flush before its publication. */
  datatype ChildView = ChildView(check: seq<Look>, dials: seq<Look>, flush: seq<Look>) {
    function After(seen: seq<Look>): seq<Look> {
      seen + check + dials + flush
    }
  }

  /** A child was kept exactly when the handoff's check passed, and it is ready exactly
      when a dial found it behind its port; only then the log follower is flushed. */
  ghost predicate ChildFollows(v: ChildView, n: nat, d: nat, port: int, faults: Faults, now: int,
                               child: Option<nat>, ready: bool) {
    && Handoff(v.check, n, d, port, faults, now, child)
    && (child.None? ==> v.dials == [] && v.flush == [] && !ready)
    && (child.Some? ==> ReadyWait(v.dials, now, child.value, port, ready))
    && (if ready then |v.flush| == 1 && v.flush[0].what.Flushed? else v.flush == [])
  }

  /** What a spawn leaves behind while the starter lock is still held. */
  ghost predicate ChildLeft(w: World, n: nat, d: nat, k: Keep, port: int, lands: bool, child: Option<nat>,
                            ready: bool) {
    && (ready ==> child.Some?)
    && (child.None? ==> Held(w, d, k))
    && (child.Some? ==> child.value >= n && IsServe(w, child.value))
    && (child.Some? && !ready ==> HandedOff(w, d, k, child.value, port, false))
    && (ready ==> HandedOff(w, d, Wrote(k, RecordOf(w, child.value), lands), child.value, port, true))
  }

  /** From a free slot to the outcome: spawn, wait for the child's own listener, flush
      the log follower, publish.  Returns the child and whether it got ready. */
  method SpawnAndPublish(m: Machine, obs: Observer, g: SpawnGuard, ghost k: Keep, port: int, lands: bool,
                         faults: Faults)
    returns (child: Option<nat>, ready: bool, ghost v: ChildView)
    requires m.Valid() && g.Mirrors(m.w) && Held(m.w, g.d, k) && m.w.threads[g.d].sawFree && port > 0
    modifies g, m, obs
    ensures old(obs.now) <= obs.now <= old(obs.now) + (if child.Some? then START_TIME else 0)
    ensures m.Valid() && g.Mirrors(m.w) && Elapsed(old(m.w), m.w)
    ensures ChildLeft(m.w, |old(m.w).procs|, g.d, k, port, lands, child, ready)
    ensures obs.seen == v.After(old(obs.seen))
    ensures ChildFollows(v, |old(m.w).procs|, g.d, port, faults, old(obs.now), child, ready)
  {
    ready := false;
    ghost var check;
    child, check := g.StartChildWithOwner(m, obs, k, port, faults);
    v := ChildView(check, [], []);
    if child.Some? {
      m.Others(g.d);
      ghost var dials;
      ready, dials := WaitForPortOwned(m, obs, g.d, k, child.value, port);
      v := ChildView(check, dials, []);
      if ready {
        ghost var flush := FlushAndPublish(m, obs, g, k, child.value, port, lands);
        v := ChildView(check, dials, flush);
      }
    }
  }

  /** A ready child: first the ring gets what it printed, then it is recorded. */
  method FlushAndPublish(m: Machine, obs: Observer, g: SpawnGuard, ghost k: Keep, c: nat, port: int, lands: bool)
    returns (ghost flush: seq<Look>)
    requires m.Valid() && g.Mirrors(m.w) && HandedOff(m.w, g.d, k, c, port, true)
    modifies m, obs
    ensures m.Valid() && g.Mirrors(m.w) && Elapsed(old(m.w), m.w)
    ensures HandedOff(m.w, g.d, Wrote(k, RecordOf(m.w, c), lands), c, port, true)
    ensures old(obs.now) <= obs.now <= old(obs.now) + FLUSH_WAIT
    ensures obs.seen == old(obs.seen) + flush && |flush| == 1 && flush[0].what.Flushed?
  {
    obs.Flush(m);
    flush := [Look(Flushed, obs.now, m.w)];
    m.Others(g.d);
    ghost var k' := PublishState(m, g.d, k, c, port, lands);
  }

  // ----- the start transaction -------------------------------------------------------------------------

  datatype StartVerdict = Spawned | Reattached | SlotOccupied | StartContended | OrphanedOwner | StartFailed

  datatype StartResult = StartResult(verdict: StartVerdict, pid: int, port: int, child: Option<nat>)

  /** What a start saw, in order, and what its gate made of it. */
  datatype StartView = StartView(try: seq<Look>, read: seq<Look>, gate: seq<Look>, g: Gate, probe: seq<Look>,
                                 port: seq<Look>, child: ChildView)
  {
    function After(seen: seq<Look>): seq<Look> {
      child.After(seen + try + read + gate + probe + port)
    }
  }

  const NO_CHILD := ChildView([], [], [])
  const NO_VIEW := StartView([], [], [], NoState, [], [], NO_CHILD)

  lemma NothingAfter(seen: seq<Look>)
    ensures seen + [] == seen && NO_CHILD.After(seen) == seen && NO_VIEW.After(seen) == seen
  {
  }

  function PidOf(st: Option<Rec>): int {
    if st.Some? then st.value.pid else 0
  }

  function PortOf(st: Option<Rec>): int {
    if st.Some? then st.value.port else 0
  }

  /** The port of a start: a fresh one, unless nobody listens on the recorded one. */
  ghost predicate ChosePort(st: Option<Rec>, ls: seq<Look>, port: int) {
    && port > 0 && ls != [] && ls[0].what.FreshPort?
    && match st
       case None => |ls| == 1 && port == ls[0].what.port
       case Some(r) =>
         && |ls| == 2 && ls[1].what == PortTest(r.port)
         && port == if PortTaken(ls[1].w, r.port) then ls[0].what.port else r.port
  }

  /** Past a gate that permits spawning, and under the starter lock: orphaned when the
      probe saw the owner lock held, else a child on the chosen port. */
  ghost predicate SlotFollows(v: StartView, st: Option<Rec>, n: nat, d: nat, faults: Faults, now: int,
                              res: StartResult) {
    var held := v.probe == [] || !Free(v.probe[0].w, OwnerLock);
    && Probed(v.probe, faults.probe, now, held)
    && if held then
         v.port == [] && v.child == NO_CHILD && res == StartResult(OrphanedOwner, PidOf(st), PortOf(st), None)
       else
         && ChosePort(st, v.port, res.port) && res.verdict in {Spawned, StartFailed}
         && ChildFollows(v.child, n, d, res.port, faults, now, res.child, res.verdict.Spawned?)
  }

  /** What the record and the gate decide: the verdicts over a live instance; else a
      loser of the starter lock is contended, and its holder goes on. */
  ghost predicate GateFollows(v: StartView, locked: bool, n: nat, d: nat, answers: bool, faults: Faults, now: int,
                              res: StartResult) {
    && |v.read| == 1 && v.read[0].what.StateRead?
    && var st := v.read[0].w.file;
    && (st.Some? ==> st.value.pid > 0 && st.value.port > 0)
    && GateSaw(st, v.gate, answers, v.g)
    && if v.g.MaySpawn() && locked then SlotFollows(v, st, n, d, faults, now, res)
       else
         && v.probe == [] && v.port == [] && v.child == NO_CHILD
         && res == StartResult(if v.g.Reattach? then Reattached else if v.g.Occupied? then SlotOccupied
                               else StartContended, PidOf(st), PortOf(st), None)
  }

  /** Everything a start decides, by what it saw. */
  ghost predicate StartFollows(v: StartView, n: nat, d: nat, answers: bool, faults: Faults, now: int,
                               res: StartResult) {
    if v.try == [] then faults.lock && v == NO_VIEW && res == StartResult(StartFailed, 0, 0, None)
    else
      var locked := Free(v.try[0].w, SpawnLock);
      && Tried(v.try, d, faults.lock, if locked then Acquired else Contended)
      && GateFollows(v, locked, n, d, answers, faults, now, res)
  }

  /** A recorded instance that is still alive afterwards is reattached, or occupies the
      slot when it does not answer. */
  ghost predicate LiveIsKept(v: StartView, w: World, answers: bool, res: StartResult) {
    v.read != [] && v.read[0].w.file.Some? ==>
      var r := v.read[0].w.file.value;
      && r.inc < |w.procs|
      && (IsLive(w, r.inc) ==> res == StartResult(if answers then Reattached else SlotOccupied, r.pid, r.port, None))
  }

  lemma StillKept(v: StartView, w: World, w': World, answers: bool, res: StartResult)
    requires LiveIsKept(v, w, answers, res) && Elapsed(w, w')
    ensures LiveIsKept(v, w', answers, res)
  {
    StaysDead(w, w');
  }

  /** A start with a child of its own waits for it; any other result comes within the
      time of a probe. */
  predicate InTime(elapsed: int, res: StartResult) {
    0 <= elapsed <= (if res.child.Some? then START_TIME else PROBE_TIME)
  }

  lemma RecordPositive(w: World)
    requires Reachable(w) && w.file.Some?
    ensures RecOk(w, w.file.value) && w.file.value.pid > 0 && w.file.value.port > 0
  {
    ReachableInv(w);
    assert ProcOk(w, w.file.value.inc);
  }

  /** The recorded port when nobody listens on it, else one the system assigns. */
  method ChooseStartPort(m: Machine, obs: Observer, st: Option<Rec>) returns (port: int, ghost tests: seq<Look>)
    requires st.Some? ==> st.value.port > 0
    modifies obs`seen
    ensures obs.seen == old(obs.seen) + tests && ChosePort(st, tests, port)
  {
    port := obs.PickPort(m);
    tests := [Look(FreshPort(port), obs.now, m.w)];
    if st.Some? {
      tests := tests + [Look(PortTest(st.value.port), obs.now, m.w)];
      var free := obs.PortFree(m, st.value.port);
      if free {
        port := st.value.port;
      }
    }
  }

  /** The look at the state file and the gate, with or without the starter lock. */
  method LookAtRecord(m: Machine, obs: Observer, d: nat, replies: seq<Reply>)
    returns (st: Option<Rec>, g: Gate, ghost v: StartView)
    requires m.Valid() && LiveDaemon(m.w, d) && Probe(replies)
    modifies m, obs
    ensures m.Valid() && Undisturbed(d, old(m.w), m.w) && Elapsed(old(m.w), m.w)
    ensures old(obs.now) <= obs.now <= old(obs.now) + (if g.MaySpawn() then 0 else PROBE_TIME)
    ensures st.Some? ==> st.value.pid > 0 && st.value.port > 0
    ensures v == NO_VIEW.(read := v.read, gate := v.gate, g := g) && obs.seen == v.After(old(obs.seen))
    ensures |v.read| == 1 && v.read[0].what.StateRead? && v.read[0].w.file == st
    ensures GateSaw(st, v.gate, Attachable(replies), g)
    ensures st.Some? ==> st.value.inc < |m.w.procs| && (IsLive(m.w, st.value.inc) ==> !g.MaySpawn())
  {
    ghost var read := [Look(StateRead, obs.now, m.w)];
    st := obs.ReadState(m);
    if st.Some? { RecordPositive(m.w); }
    ghost var gate;
    g, gate := ClassifyOCInstance(m, obs, d, st, replies);
    v := NO_VIEW.(read := read, gate := gate, g := g);
    NothingAfter(old(obs.seen));
    NothingAfter(old(obs.seen) + read + gate);
  }

  /** A starter that lost the race for the starter lock: it may reattach, and it
      never spawns. */
  method LoserVerdict(m: Machine, obs: Observer, d: nat, ghost k: Keep, replies: seq<Reply>, ghost faults: Faults)
    returns (res: StartResult, ghost v: StartView)
    requires m.Valid() && Idle(m.w, d, k) && Probe(replies)
    modifies m, obs
    ensures InTime(obs.now - old(obs.now), res)
    ensures m.Valid() && Elapsed(old(m.w), m.w) && Idle(m.w, d, k)
    ensures v.try == [] && obs.seen == v.After(old(obs.seen))
    ensures GateFollows(v, false, |old(m.w).procs|, d, Attachable(replies), faults, old(obs.now), res)
    ensures LiveIsKept(v, m.w, Attachable(replies), res)
  {
    var st, gate;
    st, gate, v := LookAtRecord(m, obs, d, replies);
    res := StartResult(if gate.Reattach? then Reattached else if gate.Occupied? then SlotOccupied else StartContended,
                       PidOf(st), PortOf(st), None);
  }

  /** What a start leaves behind while it still holds the starter lock. */
  ghost predicate StartedUnderLock(n: nat, w: World, d: nat, k: Keep, lands: bool, res: StartResult) {
    && ChildLeft(w, n, d, k, res.port, lands, res.child, res.verdict.Spawned?)
    && (res.verdict.Spawned? ==> RecordOf(w, res.child.value) == Rec(res.pid, res.port, res.child.value))
  }

  /** The slot was seen free: choose the port, spawn, publish. */
  method StartInFreeSlot(m: Machine, obs: Observer, g: SpawnGuard, ghost k: Keep, st: Option<Rec>, lands: bool,
                         faults: Faults)
    returns (res: StartResult, ghost tests: seq<Look>, ghost v: ChildView)
    requires m.Valid() && g.Mirrors(m.w) && Held(m.w, g.d, k) && m.w.threads[g.d].sawFree
    requires st.Some? ==> st.value.port > 0
    modifies g, m, obs
    ensures InTime(obs.now - old(obs.now), res)
    ensures m.Valid() && g.Mirrors(m.w) && Elapsed(old(m.w), m.w)
    ensures res.verdict in {Spawned, StartFailed} && StartedUnderLock(|old(m.w).procs|, m.w, g.d, k, lands, res)
    ensures obs.seen == v.After(old(obs.seen) + tests) && ChosePort(st, tests, res.port)
    ensures ChildFollows(v, |old(m.w).procs|, g.d, res.port, faults, old(obs.now), res.child, res.verdict.Spawned?)
  {
    var port;
    port, tests := ChooseStartPort(m, obs, st);
    m.Others(g.d);
    var child, ready;
    child, ready, v := SpawnAndPublish(m, obs, g, k, port, lands, faults);
    res := StartResult(if ready then Spawned else StartFailed,
                       if child.Some? then m.w.procs[child.value].pid else 0, port, child);
  }

  /** The view goes on where it stopped. */
  lemma ViewGrows(v: StartView, seen: seq<Look>, probe: seq<Look>, port: seq<Look>, child: ChildView)
    requires v.probe == [] && v.port == [] && v.child == NO_CHILD
    ensures v.(probe := probe, port := port, child := child).After(seen) == child.After(v.After(seen) + probe + port)
  {
    NothingAfter(seen + v.try + v.read + v.gate);
  }

  /** No live instance is recorded, but the slot may be owned. */
  method StartUnlessOwned(m: Machine, obs: Observer, g: SpawnGuard, ghost k: Keep, st: Option<Rec>, lands: bool,
                          faults: Faults, ghost v0: StartView, ghost seen: seq<Look>)
    returns (res: StartResult, ghost v: StartView)
    requires m.Valid() && g.Mirrors(m.w) && Held(m.w, g.d, k) && (st.Some? ==> st.value.port > 0)
    requires v0.probe == [] && v0.port == [] && v0.child == NO_CHILD && obs.seen == v0.After(seen)
    modifies g, m, obs
    ensures InTime(obs.now - old(obs.now), res)
    ensures m.Valid() && g.Mirrors(m.w) && Elapsed(old(m.w), m.w)
    ensures StartedUnderLock(|old(m.w).procs|, m.w, g.d, k, lands, res)
    ensures v == v0.(probe := v.probe, port := v.port, child := v.child) && obs.seen == v.After(seen)
    ensures SlotFollows(v, st, |old(m.w).procs|, g.d, faults, old(obs.now), res)
  {
    var held;
    ghost var probe;
    held, probe := OwnerLockHeldByOthers(m, obs, g.d, k, faults.probe);
    v := v0.(probe := probe);
    ViewGrows(v0, seen, probe, [], NO_CHILD);
    NothingAfter(v0.After(seen) + probe);
    if held {
      return StartResult(OrphanedOwner, PidOf(st), PortOf(st), None), v;
    }
    ghost var tests, child;
    res, tests, child := StartInFreeSlot(m, obs, g, k, st, lands, faults);
    ViewGrows(v0, seen, probe, tests, child);
    v := v0.(probe := probe, port := tests, child := child);
  }

  /** The transaction after the starter lock is taken, up to its release. */
  method StartUnderLock(m: Machine, obs: Observer, g: SpawnGuard, ghost k: Keep, replies: seq<Reply>, lands: bool,
                        faults: Faults)
    returns (res: StartResult, ghost v: StartView)
    requires m.Valid() && g.Mirrors(m.w) && Held(m.w, g.d, k) && Probe(replies)
    modifies g, m, obs
    ensures InTime(obs.now - old(obs.now), res)
    ensures m.Valid() && g.Mirrors(m.w) && Elapsed(old(m.w), m.w)
    ensures StartedUnderLock(|old(m.w).procs|, m.w, g.d, k, lands, res)
    ensures v.try == [] && obs.seen == v.After(old(obs.seen))
    ensures GateFollows(v, true, |old(m.w).procs|, g.d, Attachable(replies), faults, old(obs.now), res)
    ensures LiveIsKept(v, m.w, Attachable(replies), res)
  {
    var st, gate;
    st, gate, v := LookAtRecord(m, obs, g.d, replies);
    if !gate.MaySpawn() {
      return StartResult(if gate.Reattach? then Reattached else SlotOccupied, PidOf(st), PortOf(st), None), v;
    }
    res, v := StartPastGate(m, obs, g, k, st, Attachable(replies), lands, faults, v, old(obs.seen), |old(m.w).procs|);
  }

  /** The same past a gate that permits spawning. */
  method StartPastGate(m: Machine, obs: Observer, g: SpawnGuard, ghost k: Keep, st: Option<Rec>, ghost answers: bool,
                       lands: bool, faults: Faults, ghost v0: StartView, ghost seen: seq<Look>, ghost n: nat)
    returns (res: StartResult, ghost v: StartView)
    requires m.Valid() && g.Mirrors(m.w) && Held(m.w, g.d, k) && n <= |m.w.procs|
    requires v0 == NO_VIEW.(read := v0.read, gate := v0.gate, g := v0.g) && obs.seen == v0.After(seen)
    requires |v0.read| == 1 && v0.read[0].what.StateRead? && v0.read[0].w.file == st
    requires GateSaw(st, v0.gate, answers, v0.g) && v0.g.MaySpawn()
    requires st.Some? ==> st.value.pid > 0 && st.value.port > 0
    requires st.Some? ==> st.value.inc < |m.w.procs| && !IsLive(m.w, st.value.inc)
    modifies g, m, obs
    ensures InTime(obs.now - old(obs.now), res)
    ensures m.Valid() && g.Mirrors(m.w) && Elapsed(old(m.w), m.w)
    ensures StartedUnderLock(n, m.w, g.d, k, lands, res)
    ensures v.try == [] && obs.seen == v.After(seen)
    ensures GateFollows(v, true, n, g.d, answers, faults, old(obs.now), res)
    ensures LiveIsKept(v, m.w, answers, res)
  {
    m.Others(g.d);
    ghost var n1 := |m.w.procs|;
    res, v := StartUnlessOwned(m, obs, g, k, st, lands, faults, v0, seen);
    GateThenSlot(v0, v, st, n1, n, g.d, answers, faults, old(obs.now), res);
    StaysDead(old(m.w), m.w);
  }

  lemma GateThenSlot(v0: StartView, v: StartView, st: Option<Rec>, n: nat, n0: nat, d: nat, answers: bool,
                     faults: Faults, now: int, res: StartResult)
    requires |v0.read| == 1 && v0.read[0].what.StateRead? && v0.read[0].w.file == st
    requires GateSaw(st, v0.gate, answers, v0.g) && v0.g.MaySpawn()
    requires st.Some? ==> st.value.pid > 0 && st.value.port > 0
    requires v == v0.(probe := v.probe, port := v.port, child := v.child) && n0 <= n
    requires SlotFollows(v, st, n, d, faults, now, res)
    ensures GateFollows(v, true, n0, d, answers, faults, now, res)
  {
  }

  /** Who is dead stays dead. */
  lemma StaysDead(w: World, w': World)
    requires Elapsed(w, w')
    ensures forall p: nat :: p < |w.procs| && IsLive(w', p) ==> IsLive(w, p)
  {
    forall p: nat | p < |w.procs| && IsLive(w', p) ensures IsLive(w, p) {
      assert SameIdentity(w.procs[p], w'.procs[p]);
    }
  }

  /** What the invariant knows of the child in hand. */
  lemma SpawnedFacts(w: World, d: nat)
    requires Reachable(w) && d < |w.threads|
    ensures var t := w.threads[d];
            t.child.Some? ==> ChildOk(w, d, t.child.value) && (t.ready ==> RecOk(w, RecordOf(w, t.child.value)))
                              && OwnsOrDead(w, t.child.value)
  {
    ReachableInv(w);
    assert StarterOk(w, d);
    var t := w.threads[d];
    if t.child.Some? && Covered(w, t.child.value) { CoveredOwns(w, t.child.value); }
  }

  /** A record stays true of its incarnation. */
  lemma RecLasts(w: World, w': World, r: Rec)
    requires RecOk(w, r) && Elapsed(w, w')
    ensures RecOk(w', r) && w'.procs[r.inc].parent == w.procs[r.inc].parent
  {
    assert SameIdentity(w.procs[r.inc], w'.procs[r.inc]);
  }

  /** What a start leaves behind. */
  ghost predicate StartLeft(w0: World, w: World, d: nat, k: Keep, lands: bool, res: StartResult) {
    && (res.verdict.Spawned? ==>
          && res.child.Some? && res.child.value >= |w0.procs|
          && var r := Rec(res.pid, res.port, res.child.value);
          && RecOk(w, r) && w.procs[r.inc].parent == d && OwnsOrDead(w, r.inc)
          && Idle(w, d, Wrote(k, r, lands).(retained := res.child)))
    && (!res.verdict.Spawned? ==> Idle(w, d, k))
  }

  /** What a start reports: the world it leaves, its verdict by what it saw, and that a
      live recorded instance was kept. */
  ghost predicate StartReport(w0: World, w: World, d: nat, k: Keep, answers: bool, lands: bool, faults: Faults,
                              now: int, v: StartView, res: StartResult) {
    && StartLeft(w0, w, d, k, lands, res) && LiveIsKept(v, w, answers, res)
    && StartFollows(v, |w0.procs|, d, answers, faults, now, res)
  }

  method StartHoldingLock(m: Machine, obs: Observer, g: SpawnGuard, ghost k: Keep, replies: seq<Reply>, lands: bool,
                          faults: Faults)
    returns (res: StartResult, ghost v: StartView)
    requires m.Valid() && g.Mirrors(m.w) && Held(m.w, g.d, k) && Probe(replies)
    modifies g, m, obs
    ensures InTime(obs.now - old(obs.now), res)
    ensures m.Valid() && Elapsed(old(m.w), m.w) && StartLeft(old(m.w), m.w, g.d, k, lands, res)
    ensures v.try == [] && obs.seen == v.After(old(obs.seen))
    ensures GateFollows(v, true, |old(m.w).procs|, g.d, Attachable(replies), faults, old(obs.now), res)
    ensures LiveIsKept(v, m.w, Attachable(replies), res)
  {
    res, v := StartUnderLock(m, obs, g, k, replies, lands, faults);
    ghost var w1 := m.w;
    EndStart(m, g, k, lands, res, old(m.w));
    StillKept(v, w1, m.w, Attachable(replies), res);
  }

  /** The way out of the transaction, which keeps the child of a start that succeeded. */
  method EndStart(m: Machine, g: SpawnGuard, ghost k: Keep, ghost lands: bool, res: StartResult, ghost w0: World)
    requires m.Valid() && g.Mirrors(m.w) && StartedUnderLock(|w0.procs|, m.w, g.d, k, lands, res)
    modifies g, m
    ensures m.Valid() && Elapsed(old(m.w), m.w) && StartLeft(w0, m.w, g.d, k, lands, res)
  {
    SpawnedFacts(m.w, g.d);
    ghost var w1 := m.w;
    ghost var k' := KeepOf(m.w, g.d);
    m.Others(g.d);
    g.Release(m, res.verdict.Spawned?, k');
    if res.verdict.Spawned? {
      RecLasts(w1, m.w, RecordOf(w1, res.child.value));
      StillOwns(m.w, res.child.value);
    }
  }

  lemma StillOwns(w: World, c: nat)
    requires Reachable(w)
    ensures OwnsOrDead(w, c)
  {
    ReachableInv(w);
    if Covered(w, c) { CoveredOwns(w, c); }
  }

  /** The start transaction.  What it saw decides its verdict, and a live recorded
      instance is always kept.  It writes the state file exactly when it reports Spawned
      and the write lands, and then exactly one record: that of a new child of its own
      which kept the owner descriptor and held the listener on the reported port.  In
      any other case this daemon has written nothing. */
  method EnsureDetachedOpenCode(m: Machine, obs: Observer, d: nat, ghost k: Keep, replies: seq<Reply>, lands: bool,
                                faults: Faults)
    returns (res: StartResult, ghost v: StartView)
    requires m.Valid() && Idle(m.w, d, k) && Probe(replies)
    modifies m, obs
    ensures InTime(obs.now - old(obs.now), res)
    ensures m.Valid() && Elapsed(old(m.w), m.w) && obs.seen == v.After(old(obs.seen))
    ensures StartReport(old(m.w), m.w, d, k, Attachable(replies), lands, faults, old(obs.now), v, res)
  {
    var g, lock;
    ghost var try;
    g, lock, try := AcquireSpawnGuard(m, obs, d, k, faults.lock);
    m.Others(d);
    ghost var m1 := m.w;
    match lock {
      case LockError =>
        NothingAfter(old(obs.seen));
        return StartResult(StartFailed, 0, 0, None), NO_VIEW;
      case Contended =>
        res, v := LoserVerdict(m, obs, d, k, replies, faults);
      case Acquired =>
        res, v := StartHoldingLock(m, obs, g, k, replies, lands, faults);
    }
    WithTry(v, try, old(obs.seen), lock.Acquired?, |m1.procs|, |old(m.w).procs|, d, Attachable(replies), faults,
            old(obs.now), res);
    v := v.(try := try);
  }

  /** The view of a transaction begins with the attempt on the starter lock; and what is
      new since a later moment is new since an earlier one. */
  lemma WithTry(v: StartView, try: seq<Look>, seen: seq<Look>, locked: bool, n: nat, n0: nat, d: nat, answers: bool,
                faults: Faults, now: int, res: StartResult)
    requires v.try == [] && GateFollows(v, locked, n, d, answers, faults, now, res) && n0 <= n
    ensures v.(try := try).After(seen) == v.After(seen + try)
    ensures GateFollows(v.(try := try), locked, n0, d, answers, faults, now, res)
  {
    NothingAfter(seen + try);
  }
}

/**
 The detached restart transaction: signal the old owner, wait for the owner lock to be
 released, and start a child in its place.
*/
module DetachedRestart {
  import opened Wrappers
  import opened OwnerLock
  import opened OwnerLockInv
  import opened OwnerLockRuns
  import opened DetachedMachine
  import opened DetachedStart

  // ----- signals --------------------------------------------------------------------------

  /** The process that carries the recorded pid and whose command line names the
      recorded port. */
  predicate Identified(w: World, r: Rec, target: nat) {
    IsLive(w, target) && w.procs[target].pid == r.pid && r.port in w.procs[target].claims
  }

  /** A SIGTERM from `d` to `target` was sent since `from`. */
  ghost predicate Signalled(w: World, from: nat, d: nat, target: nat) {
    exists k: nat :: from <= k < |w.signals| && w.signals[k].sender == d && w.signals[k].target == target
  }

  lemma StillSignalled(w: World, w': World, from: nat, d: nat, target: nat)
    requires Signalled(w, from, d, target) && Elapsed(w, w')
    ensures Signalled(w', from, d, target)
  {
    var k: nat :| from <= k < |w.signals| && w.signals[k].sender == d && w.signals[k].target == target;
    assert w'.signals[k] == w.signals[k];
  }

  lemma PidNames(w: World, p: nat, q: nat)
    requires Reachable(w) && p < |w.procs| && q < |w.procs| && w.procs[p].pid == w.procs[q].pid
    requires !w.procs[p].status.Gone? && !w.procs[q].status.Gone?
    ensures p == q
  {
    ReachableInv(w);
  }

  lemma RetainedHolds(w: World, d: nat)
    requires Reachable(w) && d < |w.threads| && w.threads[d].retained.Some?
    ensures w.threads[d].retained.value < |w.procs| && !w.procs[w.threads[d].retained.value].status.Gone?
  {
    ReachableInv(w);
    assert StarterOk(w, d);
  }

  /** Signals the recorded instance when it is identified at that moment, and the
      retained child unless it was that same pid.  So whatever is alive of the
      two has been signalled. */
  method SignalOldOwner(m: Machine, obs: Observer, d: nat, ghost k: Keep, retained: Option<nat>)
    requires m.Valid() && Held(m.w, d, k) && retained == k.retained
    modifies m, obs`seen
    ensures obs.seen == old(obs.seen) + [Look(StateRead, obs.now, old(m.w))]
    ensures m.Valid() && Elapsed(old(m.w), m.w) && Held(m.w, d, k)
    ensures m.w.threads[d].starter == old(m.w).threads[d].starter
    ensures var st := old(m.w).file;
            st.Some? && IsLive(old(m.w), st.value.inc) ==> Signalled(m.w, |old(m.w).signals|, d, st.value.inc)
    ensures retained.Some? ==> Signalled(m.w, |old(m.w).signals|, d, retained.value)
  {
    ghost var n := |m.w.signals|;
    var killed, t := SignalIdentified(m, obs, d, k);
    ghost var w1 := m.w;
    m.Others(d);
    assert m.w.signals[..|w1.signals|] == w1.signals;
    ghost var w2 := m.w;
    if killed > 0 { assert w2.signals[n] == w1.signals[n]; }
    if retained.Some? {
      RetainedHolds(m.w, d);
      if m.w.procs[retained.value].pid != killed {
        m.Do(SignalOwn(d, retained.value));
        assert m.w.signals[|w2.signals|].target == retained.value;
      } else {
        ProcPositive(m.w, retained.value);
        assert SameIdentity(w1.procs[retained.value], w2.procs[retained.value]) && t == retained.value;
      }
    }
    assert killed > 0 ==> m.w.signals[n] == w2.signals[n];
  }

  /** The recorded instance, when it is alive, is the one that is identified. */
  lemma IdentifiedFacts(w: World, d: nat, t: nat)
    requires Reachable(w) && d < |w.threads| && w.file.Some? && Identified(w, w.file.value, t)
    ensures w.file.value.pid > 0 && w.file.value.inc < |w.procs|
    ensures IsLive(w, w.file.value.inc) ==> t == w.file.value.inc
    ensures var c := w.threads[d].retained;
            c.Some? ==> c.value < |w.procs| && (t == c.value || w.procs[t].pid != w.procs[c.value].pid)
  {
    ReachableInv(w);
    var r := w.file.value;
    assert ProcOk(w, r.inc);
    if IsLive(w, r.inc) { PidNames(w, t, r.inc); }
    var c := w.threads[d].retained;
    if c.Some? {
      RetainedHolds(w, d);
      if w.procs[t].pid == w.procs[c.value].pid { PidNames(w, t, c.value); }
    }
  }

  lemma ProcPositive(w: World, p: nat)
    requires Reachable(w) && p < |w.procs|
    ensures w.procs[p].pid > 0
  {
    ReachableInv(w);
    assert ProcOk(w, p);
  }

  lemma LiveRecordIsIdentified(w: World)
    requires Reachable(w)
    ensures w.file.Some? && IsLive(w, w.file.value.inc) ==> Identified(w, w.file.value, w.file.value.inc)
  {
    ReachableInv(w);
    if w.file.Some? { assert ProcOk(w, w.file.value.inc); }
  }

  /** The check and the signal as one step. */
  method SignalIdentified(m: Machine, obs: Observer, d: nat, ghost k: Keep) returns (killed: int, t: nat)
    requires m.Valid() && Held(m.w, d, k)
    modifies m, obs`seen
    ensures obs.seen == old(obs.seen) + [Look(StateRead, obs.now, old(m.w))]
    ensures m.Valid() && Elapsed(old(m.w), m.w) && Held(m.w, d, k)
    ensures m.w.threads[d].starter == old(m.w).threads[d].starter
    ensures killed > 0 ==> m.w.procs == old(m.w).procs && IsLive(m.w, t) && m.w.procs[t].pid == killed
    ensures killed > 0 ==> |m.w.signals| == |old(m.w).signals| + 1
    ensures killed > 0 ==> m.w.signals[|old(m.w).signals|].sender == d && m.w.signals[|old(m.w).signals|].target == t
    ensures killed <= 0 ==> killed == 0 && m.w == old(m.w)
    ensures var st := m.w.file;
            && st == old(m.w).file
            && (st.Some? && IsLive(old(m.w), st.value.inc) ==> killed > 0 && t == st.value.inc)
    ensures k.retained.Some? && killed > 0 ==>
              && k.retained.value < |m.w.procs|
              && (t == k.retained.value || m.w.procs[t].pid != m.w.procs[k.retained.value].pid)
  {
    var st := obs.ReadState(m);
    killed, t := 0, 0;
    LiveRecordIsIdentified(m.w);
    if st.Some? && exists t :: 0 <= t < |m.w.procs| && Identified(m.w, st.value, t) {
      t :| 0 <= t < |m.w.procs| && Identified(m.w, st.value, t);
      IdentifiedFacts(m.w, d, t);
      m.Do(SignalRecorded(d, t));
      killed := st.value.pid;
    }
  }

  // ----- the wait for the release -----------------------------------------------------------

  /** Waits, boundedly, for the owner lock to be released; a last probe decides. */
  method AwaitOwnerRelease(m: Machine, obs: Observer, d: nat, ghost k: Keep, mayFail: bool)
    returns (held: bool, ghost probes: seq<Look>)
    requires m.Valid() && Held(m.w, d, k)
    modifies m, obs
    ensures m.Valid() && Elapsed(old(m.w), m.w) && Held(m.w, d, k)
    ensures m.w.threads[d].starter == old(m.w).threads[d].starter
    ensures !held ==> m.w.threads[d].sawFree
    ensures old(obs.now) <= obs.now < old(obs.now) + OWNER_RELEASE_WAIT + RELEASE_POLL
    ensures obs.seen == old(obs.seen) + probes && (!mayFail ==> ReleaseWait(probes, old(obs.now), held))
  {
    ghost var start, before := obs.now, [];
    held, before := PollUntilReleased(m, obs, d, k, mayFail);
    ghost var turn := held;
    m.Others(d);
    held, probes := OwnerLockHeldByOthers(m, obs, d, k, mayFail);
    if !mayFail { LastProbe(before, probes[0], start, obs.now, turn, held); }
    probes := before + probes;
  }

  /** Probes until one is granted or the budget is used up. */
  method PollUntilReleased(m: Machine, obs: Observer, d: nat, ghost k: Keep, mayFail: bool)
    returns (held: bool, ghost probes: seq<Look>)
    requires m.Valid() && Held(m.w, d, k)
    modifies m, obs
    ensures m.Valid() && Elapsed(old(m.w), m.w) && Held(m.w, d, k)
    ensures m.w.threads[d].starter == old(m.w).threads[d].starter
    ensures old(obs.now) <= obs.now < old(obs.now) + OWNER_RELEASE_WAIT + RELEASE_POLL
    ensures held ==> obs.now >= old(obs.now) + OWNER_RELEASE_WAIT
    ensures obs.seen == old(obs.seen) + probes && (!mayFail ==> Probing(probes, old(obs.now), obs.now, held))
  {
    ghost var start := obs.now;
    var deadline := obs.now + OWNER_RELEASE_WAIT;
    held, probes := OwnerLockHeldByOthers(m, obs, d, k, mayFail);
    while held && obs.now < deadline
      invariant m.Valid() && Elapsed(old(m.w), m.w) && Held(m.w, d, k)
      invariant m.w.threads[d].starter == old(m.w).threads[d].starter
      invariant start <= obs.now < deadline + RELEASE_POLL
      invariant obs.seen == old(obs.seen) + probes && (!mayFail ==> Probing(probes, start, obs.now, held))
      decreases deadline - obs.now
    {
      ghost var before := probes;
      held, probes := PollRelease(m, obs, d, k, mayFail, probes, start);
      assert obs.seen == old(obs.seen) + probes;
    }
  }

  /** One turn of the wait. */
  method PollRelease(m: Machine, obs: Observer, d: nat, ghost k: Keep, mayFail: bool, ghost before: seq<Look>,
                     ghost start: int)
    returns (held: bool, ghost probes: seq<Look>)
    requires m.Valid() && Held(m.w, d, k) && (!mayFail ==> Probing(before, start, obs.now, true))
    modifies m, obs
    ensures m.Valid() && Elapsed(old(m.w), m.w) && Held(m.w, d, k)
    ensures m.w.threads[d].starter == old(m.w).threads[d].starter
    ensures obs.now == old(obs.now) + RELEASE_POLL && before <= probes
    ensures obs.seen == old(obs.seen) + probes[|before|..]
    ensures !mayFail ==> Probing(probes, start, obs.now, held)
    ensures !held ==> m.w.threads[d].sawFree
  {
    obs.Sleep(RELEASE_POLL);
    m.Others(d);
    held, probes := OwnerLockHeldByOthers(m, obs, d, k, mayFail);
    if !mayFail { ProbeAgain(before, probes[0], start, old(obs.now), held); }
    probes := before + probes;
  }

  lemma ProbeAgain(ls: seq<Look>, l: Look, start: int, now: int, held: bool)
    requires Probing(ls, start, now, true) && l.what.OwnerProbe? && l.at == now + RELEASE_POLL
    requires held <==> !Free(l.w, OwnerLock)
    ensures Probing(ls + [l], start, l.at, held)
  {
  }

  lemma LastProbe(ls: seq<Look>, l: Look, start: int, now: int, turn: bool, held: bool)
    requires Probing(ls, start, now, turn) && (turn ==> now >= start + OWNER_RELEASE_WAIT)
    requires l.what.OwnerProbe? && l.at == now && (held <==> !Free(l.w, OwnerLock))
    ensures ReleaseWait(ls + [l], start, held)
  {
    var all := ls + [l];
    assert all[|all| - 1] == l && all[|all| - 2] == ls[|ls| - 1];
    forall i, j | 0 <= i < |all| - 2 && j == i + 1
      ensures all[j].at == all[i].at + RELEASE_POLL && !Free(all[i].w, OwnerLock)
    {
      assert all[i] == ls[i] && all[j] == ls[j];
    }
  }

  /** In the loop: the probes so far were all turned down, but perhaps the last. */
  ghost predicate Probing(ls: seq<Look>, start: int, now: int, held: bool) {
    && ls != [] && ls[0].at == start && ls[|ls| - 1].at == now
    && (forall i :: 0 <= i < |ls| ==> ls[i].what.OwnerProbe?)
    && (forall i, j :: 0 <= i < |ls| - 1 && j == i + 1 ==>
          ls[j].at == ls[i].at + RELEASE_POLL && !Free(ls[i].w, OwnerLock))
    && (held <==> !Free(ls[|ls| - 1].w, OwnerLock))
  }

  // ----- ports -------------------------------------------------------------------------------------

  /** The port to respawn on: the given one, or the recorded one, or a fresh one. */
  ghost predicate PortWanted(given: int, ls: seq<Look>, port: int) {
    if given > 0 then ls == [] && port == given
    else
      && port > 0 && ls != [] && ls[0].what.StateRead?
      && match ls[0].w.file
         case Some(r) => |ls| == 1 && port == r.port
         case None => |ls| == 2 && ls[1].what == FreshPort(port)
  }

  method ChooseRestartPort(m: Machine, obs: Observer, given: int) returns (port: int, ghost asked: seq<Look>)
    requires m.Valid()
    modifies obs`seen
    ensures port > 0 && obs.seen == old(obs.seen) + asked && PortWanted(given, asked, port)
  {
    port, asked := given, [];
    if port <= 0 {
      asked := [Look(StateRead, obs.now, m.w)];
      var st := obs.ReadState(m);
      if st.Some? {
        RecordPositive(m.w);
        port := st.value.port;
      } else {
        port := obs.PickPort(m);
        asked := asked + [Look(FreshPort(port), obs.now, m.w)];
      }
    }
  }

  /** A port that somebody listens on is swapped for a fresh one. */
  ghost predicate PortFinal(wanted: int, ls: seq<Look>, port: int) {
    && port > 0 && ls != [] && ls[0].what == PortTest(wanted)
    && if PortTaken(ls[0].w, wanted) then |ls| == 2 && ls[1].what == FreshPort(port) else |ls| == 1 && port == wanted
  }

  method SwapTakenPort(m: Machine, obs: Observer, wanted: int) returns (port: int, ghost tests: seq<Look>)
    requires wanted > 0
    modifies obs`seen
    ensures obs.seen == old(obs.seen) + tests && PortFinal(wanted, tests, port) && tests[0].at == obs.now
  {
    port := wanted;
    tests := [Look(PortTest(wanted), obs.now, m.w)];
    var free := obs.PortFree(m, wanted);
    if !free {
      port := obs.PickPort(m);
      tests := tests + [Look(FreshPort(port), obs.now, m.w)];
    }
  }

  // ----- the transaction -----------------------------------------------------------------------

  datatype RestartResult = RestartResult(child: Option<nat>, port: int, ok: bool)

  /** What a restart saw, in order, with the port it wanted and the one it took. */
  datatype RestartView = RestartView(try: seq<Look>, asked: seq<Look>, wanted: int, read: seq<Look>,
                                     probes: seq<Look>, tests: seq<Look>, port: int, child: ChildView)
  {
    function After(seen: seq<Look>): seq<Look> {
      child.After(seen + try + asked + read + probes + tests)
    }
  }

  const NOT_BEGUN := RestartView([], [], 0, [], [], [], 0, NO_CHILD)

  /** The longest that a restart takes. */
  const RESTART_TIME: nat := OWNER_RELEASE_WAIT + RELEASE_POLL + START_TIME

  /** Since `from` both the retained child and a recorded instance that was alive when
      the file was read were signalled. */
  ghost predicate OwnersSignalled(w: World, from: nat, d: nat, retained: Option<nat>, read: seq<Look>) {
    && |read| == 1 && read[0].what.StateRead?
    && (retained.Some? ==> Signalled(w, from, d, retained.value))
    && var st := read[0].w.file;
    && (st.Some? && IsLive(read[0].w, st.value.inc) ==> Signalled(w, from, d, st.value.inc))
  }

  /** Under the starter lock: the ports, the wait for the release, and then a child
      exactly when the last probe was granted. */
  ghost predicate RespawnFollows(v: RestartView, n: nat, d: nat, given: int, faults: Faults, now: int,
                                 child: Option<nat>, ready: bool) {
    && PortWanted(given, v.asked, v.wanted)
    && (!faults.probe ==> ReleaseWait(v.probes, now, v.tests == []))
    && if v.tests == [] then v.child == NO_CHILD && child.None? && !ready
       else
         && PortFinal(v.wanted, v.tests, v.port)
         && ChildFollows(v.child, n, d, v.port, faults, v.tests[0].at, child, ready)
  }

  /** Everything a restart decides, by what it saw; and whom it signalled. */
  ghost predicate RestartFollows(v: RestartView, w0: World, w: World, d: nat, retained: Option<nat>, given: int,
                                 faults: Faults, now: int, res: RestartResult) {
    if v.try == [] || !Free(v.try[0].w, SpawnLock) then
      && Tried(v.try, d, faults.lock, if v.try == [] then LockError else Contended)
      && v == NOT_BEGUN.(try := v.try) && res == RestartResult(None, 0, false) && NoneSent(w, |w0.signals|, d)
    else
      && Tried(v.try, d, faults.lock, Acquired)
      && OwnersSignalled(w, |w0.signals|, d, retained, v.read)
      && RespawnFollows(v, |w0.procs|, d, given, faults, now, res.child, res.ok)
      && res.port == if res.child.Some? then v.port else 0
  }

  /** What a restart leaves behind. */
  ghost predicate RestartLeft(w0: World, w: World, d: nat, k: Keep, lands: bool, res: RestartResult) {
    && (res.child.Some? ==>
          res.child.value >= |w0.procs| && IsServe(w, res.child.value) && res.port > 0
          && w.procs[res.child.value].kind.port == res.port && OwnsOrDead(w, res.child.value))
    && (res.ok ==>
          && res.child.Some?
          && var r := RecordOf(w, res.child.value);
          && RecOk(w, r) && w.procs[r.inc].parent == d
          && Idle(w, d, Wrote(k, r, lands).(retained := res.child)))
    && (!res.ok && res.child.Some? ==> Idle(w, d, k.(retained := res.child)))
    && (!res.ok && res.child.None? ==> res.port == 0 && Idle(w, d, k))
  }

  ghost predicate RestartReport(w0: World, w: World, d: nat, k: Keep, given: int, lands: bool, faults: Faults, now: int,
                                v: RestartView, res: RestartResult) {
    RestartLeft(w0, w, d, k, lands, res) && RestartFollows(v, w0, w, d, k.retained, given, faults, now, res)
  }

  /** The restart after the starter lock is taken, up to its release. */
  method RestartUnderLock(m: Machine, obs: Observer, g: SpawnGuard, ghost k: Keep, retained: Option<nat>, given: int,
                          lands: bool, faults: Faults)
    returns (child: Option<nat>, port: int, ready: bool, ghost v: RestartView)
    requires m.Valid() && g.Mirrors(m.w) && Held(m.w, g.d, k) && retained == k.retained
    modifies g, m, obs
    ensures old(obs.now) <= obs.now <= old(obs.now) + RESTART_TIME
    ensures m.Valid() && g.Mirrors(m.w) && Elapsed(old(m.w), m.w)
    ensures port > 0 && ChildLeft(m.w, |old(m.w).procs|, g.d, k, port, lands, child, ready)
    ensures OwnersSignalled(m.w, |old(m.w).signals|, g.d, retained, v.read)
    ensures v.try == [] && obs.seen == v.After(old(obs.seen))
    ensures RespawnFollows(v, |old(m.w).procs|, g.d, given, faults, old(obs.now), child, ready)
    ensures child.Some? ==> port == v.port
  {
    ghost var asked;
    port, asked := ChooseRestartPort(m, obs, given);
    m.Others(g.d);
    ghost var read := [Look(StateRead, obs.now, m.w)];
    SignalOldOwner(m, obs, g.d, k, retained);
    ghost var w1 := m.w;
    v := NOT_BEGUN.(asked := asked, wanted := port, read := read);
    child, port, ready, v := Respawn(m, obs, g, k, port, lands, faults, v, old(obs.seen), given, |old(m.w).procs|);
    StillAllSignalled(w1, m.w, |old(m.w).signals|, g.d, retained, read);
  }

  /** After the signals: the wait for the release, and the child that takes the slot. */
  method Respawn(m: Machine, obs: Observer, g: SpawnGuard, ghost k: Keep, wanted: int, lands: bool, faults: Faults,
                 ghost v0: RestartView, ghost seen: seq<Look>, ghost given: int, ghost n: nat)
    returns (child: Option<nat>, port: int, ready: bool, ghost v: RestartView)
    requires m.Valid() && g.Mirrors(m.w) && Held(m.w, g.d, k) && wanted > 0 && n <= |m.w.procs|
    requires v0 == NOT_BEGUN.(asked := v0.asked, wanted := wanted, read := v0.read)
    requires obs.seen == seen + v0.asked + v0.read && PortWanted(given, v0.asked, wanted)
    modifies g, m, obs
    ensures old(obs.now) <= obs.now <= old(obs.now) + RESTART_TIME
    ensures m.Valid() && g.Mirrors(m.w) && Elapsed(old(m.w), m.w)
    ensures port > 0 && ChildLeft(m.w, n, g.d, k, port, lands, child, ready)
    ensures v == v0.(probes := v.probes, tests := v.tests, port := v.port, child := v.child)
    ensures obs.seen == v.After(seen) && (child.Some? ==> port == v.port)
    ensures RespawnFollows(v, n, g.d, given, faults, old(obs.now), child, ready)
  {
    port := wanted;
    ghost var probes, tests, cv;
    m.Others(g.d);
    var held;
    held, probes := AwaitOwnerRelease(m, obs, g.d, k, faults.probe);
    v := v0.(probes := probes);
    RestartViewGrows(v0, seen, probes, [], 0, NO_CHILD);
    NothingAfter(seen + v0.asked + v0.read + probes);
    if held {
      return None, port, false, v;
    }
    child, port, ready, tests, cv := RespawnOnPort(m, obs, g, k, wanted, lands, faults);
    RestartViewGrows(v0, seen, probes, tests, port, cv);
    v := v0.(probes := probes, tests := tests, port := port, child := cv);
  }

  /** The slot is free: settle the port, spawn, publish. */
  method RespawnOnPort(m: Machine, obs: Observer, g: SpawnGuard, ghost k: Keep, wanted: int, lands: bool,
                       faults: Faults)
    returns (child: Option<nat>, port: int, ready: bool, ghost tests: seq<Look>, ghost v: ChildView)
    requires m.Valid() && g.Mirrors(m.w) && Held(m.w, g.d, k) && m.w.threads[g.d].sawFree && wanted > 0
    modifies g, m, obs
    ensures old(obs.now) <= obs.now <= old(obs.now) + START_TIME
    ensures m.Valid() && g.Mirrors(m.w) && Elapsed(old(m.w), m.w)
    ensures port > 0 && ChildLeft(m.w, |old(m.w).procs|, g.d, k, port, lands, child, ready)
    ensures obs.seen == v.After(old(obs.seen) + tests) && PortFinal(wanted, tests, port) && tests[0].at == old(obs.now)
    ensures ChildFollows(v, |old(m.w).procs|, g.d, port, faults, old(obs.now), child, ready)
  {
    port, tests := SwapTakenPort(m, obs, wanted);
    m.Others(g.d);
    child, ready, v := SpawnAndPublish(m, obs, g, k, port, lands, faults);
  }

  lemma RestartViewGrows(v: RestartView, seen: seq<Look>, probes: seq<Look>, tests: seq<Look>, port: int,
                         child: ChildView)
    requires v.try == []
    ensures v.(probes := probes, tests := tests, port := port, child := child).After(seen) ==
            child.After(seen + v.asked + v.read + probes + tests)
  {
    NothingAfter(seen);
  }

  lemma StillAllSignalled(w: World, w': World, from: nat, d: nat, retained: Option<nat>, read: seq<Look>)
    requires OwnersSignalled(w, from, d, retained, read) && Elapsed(w, w')
    ensures OwnersSignalled(w', from, d, retained, read)
  {
    if retained.Some? { StillSignalled(w, w', from, d, retained.value); }
    var st := read[0].w.file;
    if st.Some? && IsLive(read[0].w, st.value.inc) { StillSignalled(w, w', from, d, st.value.inc); }
  }

  /** The restart transaction.  Whenever it gets the starter lock it signals what is
      alive of the old owner, on every outcome; a child replaces it exactly when the
      owner lock was then seen free.  It returns ok only for a new child of its own that
      got ready, and has then written its record exactly when the write lands; a child
      that never came up is returned and retained with nothing written; otherwise
      nothing changed. */
  method RestartDetachedOpenCode(m: Machine, obs: Observer, d: nat, ghost k: Keep, retained: Option<nat>, given: int,
                                 lands: bool, faults: Faults)
    returns (res: RestartResult, ghost v: RestartView)
    requires m.Valid() && Idle(m.w, d, k) && retained == k.retained
    modifies m, obs
    ensures old(obs.now) <= obs.now <= old(obs.now) + RESTART_TIME
    ensures m.Valid() && Elapsed(old(m.w), m.w) && obs.seen == v.After(old(obs.seen))
    ensures RestartReport(old(m.w), m.w, d, k, given, lands, faults, old(obs.now), v, res)
  {
    var g, lock;
    ghost var try;
    g, lock, try := AcquireSpawnGuard(m, obs, d, k, faults.lock);
    ghost var w1 := m.w;
    m.Others(d);
    if lock != Acquired {
      Withdrawn(try, old(obs.seen));
      return RestartResult(None, 0, false), NOT_BEGUN.(try := try);
    }
    ghost var w2 := m.w;
    res, v := RestartHoldingLock(m, obs, g, k, retained, given, lands, faults);
    RestartWithTry(v, try, old(obs.seen), old(m.w), w2, m.w, d, k.retained, given, faults, old(obs.now), res);
    v := v.(try := try);
  }

  lemma Withdrawn(try: seq<Look>, seen: seq<Look>)
    ensures NOT_BEGUN.(try := try).After(seen) == seen + try
  {
    NothingAfter(seen + try);
  }

  /** What happened since a later moment happened since an earlier one. */
  lemma RestartWithTry(v: RestartView, try: seq<Look>, seen: seq<Look>, w0: World, w1: World, w: World, d: nat,
                       retained: Option<nat>, given: int, faults: Faults, now: int, res: RestartResult)
    requires v.try == [] && Tried(try, d, faults.lock, Acquired) && Elapsed(w0, w1)
    requires OwnersSignalled(w, |w1.signals|, d, retained, v.read)
    requires RespawnFollows(v, |w1.procs|, d, given, faults, now, res.child, res.ok)
    requires res.port == if res.child.Some? then v.port else 0
    ensures v.(try := try).After(seen) == v.After(seen + try)
    ensures RestartFollows(v.(try := try), w0, w, d, retained, given, faults, now, res)
  {
    NothingAfter(seen + try);
    SignalledSince(w, |w1.signals|, |w0.signals|, d, retained, v.read);
  }

  lemma SignalledSince(w: World, from: nat, from0: nat, d: nat, retained: Option<nat>, read: seq<Look>)
    requires OwnersSignalled(w, from, d, retained, read) && from0 <= from
    ensures OwnersSignalled(w, from0, d, retained, read)
  {
  }

  method RestartHoldingLock(m: Machine, obs: Observer, g: SpawnGuard, ghost k: Keep, retained: Option<nat>, given: int,
                            lands: bool, faults: Faults)
    returns (res: RestartResult, ghost v: RestartView)
    requires m.Valid() && g.Mirrors(m.w) && Held(m.w, g.d, k) && retained == k.retained
    modifies g, m, obs
    ensures old(obs.now) <= obs.now <= old(obs.now) + RESTART_TIME
    ensures m.Valid() && Elapsed(old(m.w), m.w) && RestartLeft(old(m.w), m.w, g.d, k, lands, res)
    ensures OwnersSignalled(m.w, |old(m.w).signals|, g.d, retained, v.read)
    ensures v.try == [] && obs.seen == v.After(old(obs.seen))
    ensures RespawnFollows(v, |old(m.w).procs|, g.d, given, faults, old(obs.now), res.child, res.ok)
    ensures res.port == if res.child.Some? then v.port else 0
  {
    var child, port, ready;
    child, port, ready, v := RestartUnderLock(m, obs, g, k, retained, given, lands, faults);
    res := RestartResult(child, if child.Some? then port else 0, ready);
    ghost var w1 := m.w;
    EndRestart(m, g, k, port, lands, res, old(m.w));
    StillAllSignalled(w1, m.w, |old(m.w).signals|, g.d, retained, v.read);
  }

  /** The way out, which keeps any child there is. */
  method EndRestart(m: Machine, g: SpawnGuard, ghost k: Keep, ghost port: int, ghost lands: bool, res: RestartResult,
                    ghost w0: World)
    requires m.Valid() && g.Mirrors(m.w) && ChildLeft(m.w, |w0.procs|, g.d, k, port, lands, res.child, res.ok)
    requires res.port == (if res.child.Some? then port else 0) && port > 0
    modifies g, m
    ensures m.Valid() && Elapsed(old(m.w), m.w) && RestartLeft(w0, m.w, g.d, k, lands, res)
  {
    SpawnedFacts(m.w, g.d);
    ghost var w1 := m.w;
    m.Others(g.d);
    g.Release(m, true, KeepOf(m.w, g.d));
    if res.child.Some? {
      assert SameIdentity(w1.procs[res.child.value], m.w.procs[res.child.value]);
      StillOwns(m.w, res.child.value);
    }
  }
}

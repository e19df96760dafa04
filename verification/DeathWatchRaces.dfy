/**
 Races around the death watcher: what becomes of a restart that succeeded, of a
 deliberate stop, and of the newest child.  Each is settled from both sides: when it
 holds over every run, and a run for every way in which it does not.
*/
module DeathWatchRaces {
  import opened Wrappers
  import opened Lifecycle
  import opened DeathWatch

  lemma Then(w: Watch, es: seq<Event>, v: Watch, e: Event) returns (es': seq<Event>, v': Watch)
    requires Run(w, es, v) && CanStep(v, e)
    ensures es' == es + [e] && v' == Step(v, e) && Run(w, es', v')
  {
    es', v' := es + [e], Step(v, e);
    RunThen(w, es, v, e);
  }

  lemma Nothing(w: Watch)
    ensures Run(w, [], w)
  {
  }

  // ----- a user restart that succeeded, before its child is armed ---------------------------

  /** The restart is not over, and no deliberate stop lands. */
  predicate Unfinished(es: seq<Event>) {
    forall k :: 0 <= k < |es| ==> !es[k].UserEnds? && !es[k].DeliberateStop?
  }

  ghost predicate StaysReady(w: Watch) {
    forall es, w' :: Unfinished(es) && Run(w, es, w') ==> w'.life.state.Ready?
  }

  /** The loop has nothing left that could speak about an older child: it is stopped,
      or waits for the mutex, or watches nothing, finds no arm to take, and does not
      come back from a fruitless call to a full crash account. */
  predicate Lasting(w: Watch) {
    || w.stopped
    || w.call.Blocked?
    || (w.target.None? && w.queue == [] && !GivesUp(w))
  }

  /** Back from a fruitless call to a full crash account. */
  predicate GivesUp(w: Watch) {
    w.call.Back? && w.gen <= w.call.gen && |After(w.attempts, w.now - CRASH_WINDOW)| >= CRASH_MAX
  }

  lemma LaterCut(ts: seq<int>, c: int, c': int)
    requires c <= c'
    ensures |After(ts, c')| <= |After(ts, c)|
  {
    AfterAfter(ts, c, c');
    AfterShrinks(After(ts, c), c');
  }

  lemma LastingStep(w: Watch, e: Event)
    requires Inv(w) && w.user.Settled? && w.life.state.Ready? && Lasting(w)
    requires CanStep(w, e) && !e.UserEnds? && !e.DeliberateStop?
    ensures var v := Step(w, e); v.user.Settled? && v.life.state.Ready? && Lasting(v)
  {
    if e.Advance? { LaterCut(w.attempts, w.now - CRASH_WINDOW, w.now + e.dt - CRASH_WINDOW); }
    if e.Fire? { FireCalls(w); }
  }

  lemma FireCalls(w: Watch)
    requires Inv(w) && CanStep(w, Fire)
    ensures OnFire(w).life.state == w.life.state && OnFire(w).user == w.user && OnFire(w).queue == w.queue
    ensures !w.retryPend ==> OnFire(w) == w.(token := false)
    ensures w.retryPend ==> OnFire(w).call == Blocked(w.retryGen) && OnFire(w).gen == w.gen
    ensures OnFire(w).hist.spawnedFor == w.hist.spawnedFor
  {
    if w.retryPend { PruneKeepsAccount(w); }
  }

  lemma {:induction false} LastingRun(w: Watch, es: seq<Event>, w': Watch)
    requires Inv(w) && w.user.Settled? && w.life.state.Ready? && Lasting(w)
    requires Unfinished(es) && Run(w, es, w')
    ensures w'.life.state.Ready?
    decreases |es|
  {
    if es != [] {
      assert !es[0].UserEnds? && !es[0].DeliberateStop?;
      StepKeeps(w, es[0]);
      LastingStep(w, es[0]);
      forall k | 0 <= k < |es[1..]| ensures !es[1..][k].UserEnds? && !es[1..][k].DeliberateStop? {
        assert es[1..][k] == es[k + 1];
      }
      LastingRun(Step(w, es[0]), es[1..], w');
    }
  }

  /** A death of the old child that the loop still watches is taken for one of the new. */
  lemma OldDeathFailsIt(w: Watch) returns (es: seq<Event>, w': Watch)
    requires Inv(w) && w.life.state.Ready? && w.target.Some? && !w.stopped
    ensures es == [Tick(true, None)] && Run(w, es, w') && w'.life.state.Failed? && w'.user == w.user && w'.gen == w.gen
  {
    Nothing(w);
    es, w' := Then(w, [], w, Tick(true, None));
    DeathFails(w);
  }

  /** Seen while ready, any death ends in a failed state. */
  lemma DeathFails(w: Watch)
    requires w.life.state.Ready? && w.target.Some? && !w.retryPend
    ensures var v := OnTick(w, true, None); v.life.state.Failed? && v.user == w.user && v.gen == w.gen
  {
  }

  /** So is the death of a child whose arm is still queued. */
  lemma QueuedDeathFailsIt(w: Watch) returns (es: seq<Event>, w': Watch)
    requires Inv(w) && w.life.state.Ready? && InSelect(w) && w.queue != []
    ensures es == [TakeArm, Tick(true, None)] && Run(w, es, w') && w'.life.state.Failed?
  {
    Nothing(w);
    es, w' := Then(w, [], w, TakeArm);
    es, w' := Then(w, es, w', Tick(true, None));
  }

  /** Or one whose arm is drained when an earlier restart call returns. */
  lemma DrainedDeathFailsIt(w: Watch) returns (es: seq<Event>, w': Watch)
    requires Inv(w) && w.life.state.Ready? && w.call.Back? && w.queue != []
    ensures es == [Resume, Tick(true, None)] && Run(w, es, w') && w'.life.state.Failed?
  {
    Nothing(w);
    es, w' := Then(w, [], w, Resume);
    es, w' := Then(w, es, w', Tick(true, None));
  }

  /** And without any death: an earlier call that came back without a replacement
      gives up on a full crash account. */
  lemma GivingUpFailsIt(w: Watch) returns (es: seq<Event>, w': Watch)
    requires Inv(w) && GivesUp(w)
    ensures es == [Resume] && Run(w, es, w') && w'.life.state.Failed?
  {
    Nothing(w);
    NoneQueued(w);
    es, w' := Then(w, [], w, Resume);
  }

  /** Main result: a restart that succeeded stays ready until its child is armed, over
      every run without a stop, exactly when the loop is done with older children. */
  lemma SettledRestartStaysReady(w: Watch)
    requires Inv(w) && w.user.Settled? && w.life.state.Ready?
    ensures StaysReady(w) <==> Lasting(w)
  {
    if Lasting(w) {
      forall es, w' | Unfinished(es) && Run(w, es, w') ensures w'.life.state.Ready? { LastingRun(w, es, w'); }
    } else {
      var es, w';
      if w.target.Some? {
        es, w' := OldDeathFailsIt(w);
      } else if w.call.Back? && w.queue == [] {
        es, w' := GivingUpFailsIt(w);
      } else if w.call.Back? {
        es, w' := DrainedDeathFailsIt(w);
      } else {
        es, w' := QueuedDeathFailsIt(w);
      }
      assert Unfinished(es) && Run(w, es, w');
    }
  }

  /** The boot child is watched. */
  lemma Booted(life: Life, now: int) returns (es: seq<Event>, w: Watch)
    ensures Run(NewWatch(life, now), es, w) && es == [BootArm(now), TakeArm] && Inv(w)
    ensures InSelect(w) && w.target == Some(Target(1, now)) && w.gen == 1 && w.queue == [] && w.user.Absent?
    ensures w.life == life && w.now == now && !w.retryPend && w.hist.spawnedFor == [] && w.hist.calls == []
    ensures w.hist.taken == 1 && w.call.NoCall?
  {
    var w0 := NewWatch(life, now);
    Nothing(w0);
    es, w := Then(w0, [], w0, BootArm(now));
    es, w := Then(w0, es, w, TakeArm);
    NewWatchOk(life, now);
    RunKeeps(w0, es, w);
  }

  /** A user restart has just succeeded and its child is not armed yet. */
  lemma Restarted(life: Life, now: int) returns (es: seq<Event>, w: Watch)
    ensures Run(NewWatch(life, now), es, w) && es == [BootArm(now), TakeArm, UserBegins, UserSettles(true)] && Inv(w)
    ensures InSelect(w) && w.target == Some(Target(1, now)) && w.gen == 1 && w.queue == [] && w.user.Settled?
    ensures w.life.state.Ready? && !w.retryPend
  {
    var w0 := NewWatch(life, now);
    es, w := Booted(life, now);
    es, w := Then(w0, es, w, UserBegins);
    es, w := Then(w0, es, w, UserSettles(true));
    NewWatchOk(life, now);
    RunKeeps(w0, es, w);
  }

  /** It happens from the start: the boot child dies as it should during a user restart,
      the poll sees it after the new child is ready, and the new child is armed into a
      lifecycle that says failed. */
  lemma SettledRestartMarkedFailed(life: Life, now: int) returns (es: seq<Event>, w: Watch)
    ensures Run(NewWatch(life, now), es, w)
    ensures es == [BootArm(now), TakeArm, UserBegins, UserSettles(true), Tick(true, None), UserEnds(true, now)]
    ensures w.life.state.Failed? && w.gen == 2 && w.user.Absent?
  {
    var w0 := NewWatch(life, now);
    es, w := Restarted(life, now);
    var more, v := OldDeathFailsIt(w);
    RunConcat(w0, es, w, more, v);
    es, w := es + more, v;
    es, w := Then(w0, es, w, UserEnds(true, now));
  }

  // ----- a deliberate stop ----------------------------------------------------------------

  /** Nobody starts anything afresh. */
  predicate NoStart(es: seq<Event>) {
    forall k :: 0 <= k < |es| ==> !es[k].UserBegins? && !es[k].BootArm?
  }

  ghost predicate StopStands(w: Watch) {
    forall es, w' :: NoStart(es) && Run(w, es, w') ==>
      w'.hist.spawnedFor == w.hist.spawnedFor && !w'.life.state.Ready? && !w'.life.state.Starting?
  }

  /** The executor has looked and not recorded its outcome. */
  predicate Overtaking(c: Call) {
    c.Checked? || c.Started? || c.Spawned?
  }

  /** Stopped, or given up with nothing left to do. */
  ghost predicate StaysDown(w: Watch) {
    && w.user.Absent?
    && (|| (w.life.state.Stopped? && !Overtaking(w.call))
        || (&& w.target.None? && !w.retryPend && w.call.NoCall? && w.queue == []
            && !w.life.state.Ready? && !w.life.state.Starting?))
  }

  lemma StaysDownStep(w: Watch, e: Event)
    requires Inv(w) && StaysDown(w) && CanStep(w, e) && !e.UserBegins? && !e.BootArm?
    ensures StaysDown(Step(w, e)) && Step(w, e).hist.spawnedFor == w.hist.spawnedFor
  {
    if e.Fire? { FireCalls(w); }
  }

  lemma {:induction false} StaysDownRun(w: Watch, es: seq<Event>, w': Watch)
    requires Inv(w) && StaysDown(w) && NoStart(es) && Run(w, es, w')
    ensures StaysDown(w') && w'.hist.spawnedFor == w.hist.spawnedFor
    decreases |es|
  {
    if es != [] {
      assert !es[0].UserBegins? && !es[0].BootArm?;
      StepKeeps(w, es[0]);
      StaysDownStep(w, es[0]);
      forall k | 0 <= k < |es[1..]| ensures !es[1..][k].UserBegins? && !es[1..][k].BootArm? {
        assert es[1..][k] == es[k + 1];
      }
      StaysDownRun(Step(w, es[0]), es[1..], w');
    }
  }

  lemma {:induction false} NoneAfter(ts: seq<int>, c: int)
    requires forall i :: 0 <= i < |ts| ==> ts[i] <= c
    ensures After(ts, c) == []
  {
    if ts != [] { NoneAfter(ts[..|ts| - 1], c); }
  }

  /** Once a whole window has passed the crash account is empty. */
  lemma WindowEmpties(w: Watch)
    requires Inv(w)
    ensures After(w.attempts, w.now) == []
  {
    NoneAfter(w.hist.calls, w.now);
    AfterAfter(w.hist.calls, w.hist.cut, w.now);
  }

  /** While the watcher's call is for the newest child, no arm is queued. */
  lemma NoneQueued(w: Watch)
    requires Inv(w) && !w.call.NoCall? && w.call.gen == w.gen
    ensures w.queue == []
  {
    if w.queue != [] { FirstRises(w.queue, w.hist.taken, w.gen); }
  }

  lemma FirstRises(q: seq<Target>, lo: nat, hi: nat)
    requires Rising(q, lo, hi) && q != []
    ensures lo < q[0].gen <= hi
  {
  }

  /** An attempt without a child is tried again, so a failure recorded over the stop
      leads to another start. */
  lemma FailedAttemptRetries(w: Watch) returns (es: seq<Event>, w': Watch)
    requires Inv(w) && w.call == Spawned(w.gen, false)
    ensures NoStart(es) && Run(w, es, w') && w'.life.state.Starting?
  {
    var es1, w1 := BackAfterWindow(w);
    var es2, w2 := Rescheduled(w1);
    var es3, w3 := Retried(w2);
    RunConcat(w1, es2, w2, es3, w3);
    RunConcat(w, es1, w1, es2 + es3, w3);
    es, w' := es1 + (es2 + es3), w3;
  }

  lemma BackAfterWindow(w: Watch) returns (es: seq<Event>, w': Watch)
    requires Inv(w) && w.call == Spawned(w.gen, false)
    ensures es == [AutoSettles(false), AutoEnds(0), Advance(CRASH_WINDOW)] && Run(w, es, w') && Inv(w')
    ensures w'.call == Back(w'.gen) && w'.queue == [] && w'.user.Absent? && w'.life.state.Failed?
    ensures After(w'.attempts, w'.now - CRASH_WINDOW) == []
  {
    Nothing(w);
    NoneQueued(w);
    WindowEmpties(w);
    es, w' := Then(w, [], w, AutoSettles(false));
    es, w' := Then(w, es, w', AutoEnds(0));
    es, w' := Then(w, es, w', Advance(CRASH_WINDOW));
    RunKeeps(w, es, w');
  }

  lemma Rescheduled(w: Watch) returns (es: seq<Event>, w': Watch)
    requires Inv(w) && w.call == Back(w.gen) && w.queue == [] && w.user.Absent? && w.life.state.Failed?
    requires After(w.attempts, w.now - CRASH_WINDOW) == []
    ensures es == [Resume] && Run(w, es, w') && Inv(w')
    ensures w'.retryPend && w'.retryGen == w'.gen && w'.user.Absent? && w'.life.state.Failed?
  {
    Nothing(w);
    es, w' := Then(w, [], w, Resume);
    StepKeeps(w, Resume);
    FreshResume(w);
  }

  lemma FreshResume(w: Watch)
    requires w.call == Back(w.gen) && w.queue == [] && After(w.attempts, w.now - CRASH_WINDOW) == []
    ensures var v := OnResume(w);
            && v.retryPend && v.retryGen == w.gen == v.gen && v.life.state == w.life.state && v.user == w.user
  {
  }

  lemma Retried(w: Watch) returns (es: seq<Event>, w': Watch)
    requires Inv(w) && w.retryPend && w.retryGen == w.gen && w.user.Absent? && w.life.state.Failed?
    ensures es == [TimerFires, Fire, AutoChecks, AutoStarts] && Run(w, es, w') && w'.life.state.Starting?
  {
    Nothing(w);
    es, w' := Then(w, [], w, TimerFires);
    RunKeeps(w, es, w');
    FireCalls(w');
    es, w' := Then(w, es, w', Fire);
    es, w' := Then(w, es, w', AutoChecks);
    es, w' := Then(w, es, w', AutoStarts);
  }

  /** A stop that lands between the executor's look and its outcome is overrun. */
  lemma StopIsOverrun(w: Watch) returns (es: seq<Event>, w': Watch)
    requires Inv(w) && w.life.state.Stopped? && Overtaking(w.call)
    ensures NoStart(es) && Run(w, es, w')
    ensures w'.hist.spawnedFor != w.hist.spawnedFor || w'.life.state.Ready? || w'.life.state.Starting?
  {
    Nothing(w);
    match w.call {
      case Checked(_) => es, w' := Then(w, [], w, AutoStarts);
      case Started(_) => es, w' := Then(w, [], w, AutoSpawns(true));
      case Spawned(_, child) =>
        if child {
          es, w' := Then(w, [], w, AutoSettles(true));
        } else {
          es, w' := FailedAttemptRetries(w);
        }
    }
  }

  /** Main result: after a deliberate stop the watcher starts nothing and shows nothing
      ready, over every run without a fresh start, exactly when its executor was not
      between its look at the state and the record of its outcome. */
  lemma DeliberateStopHolds(w: Watch)
    requires Inv(w) && w.life.state.Stopped? && w.user.Absent?
    ensures StopStands(w) <==> !Overtaking(w.call)
  {
    if Overtaking(w.call) {
      var es, w' := StopIsOverrun(w);
    } else {
      forall es, w' | NoStart(es) && Run(w, es, w')
        ensures w'.hist.spawnedFor == w.hist.spawnedFor && !w'.life.state.Ready? && !w'.life.state.Starting?
      {
        StaysDownRun(w, es, w');
      }
    }
  }

  /** Such a stop from the start: the executor looks, the stop lands, and a child is
      spawned and shown ready all the same. */
  lemma LateStopIsOverrun(life: Life, now: int) returns (es: seq<Event>, w: Watch)
    requires life.state.Ready?
    ensures Run(NewWatch(life, now), es, w) && w.life.state.Ready? && w.hist.spawnedFor == [1]
    ensures exists k :: 0 <= k < |es| && es[k].DeliberateStop?
    ensures NoUser(es)
  {
    var w0 := NewWatch(life, now);
    es, w := LookedAround(life, now);
    var n := |es|;
    es, w := Then(w0, es, w, DeliberateStop);
    es, w := Then(w0, es, w, AutoStarts);
    es, w := Then(w0, es, w, AutoSpawns(true));
    es, w := Then(w0, es, w, AutoSettles(true));
    assert es[n].DeliberateStop?;
  }

  predicate NoUser(es: seq<Event>) {
    forall k :: 0 <= k < |es| ==> !es[k].UserBegins?
  }

  /** The boot child died, a retry was called, and the executor is past its look. */
  lemma LookedAround(life: Life, now: int) returns (es: seq<Event>, w: Watch)
    requires life.state.Ready?
    ensures Run(NewWatch(life, now), es, w) && w.call == Checked(1) && w.hist.spawnedFor == [] && NoUser(es)
  {
    var w0 := NewWatch(life, now);
    var more, v;
    es, w := Booted(life, now);
    more, v := DeathScheduled(w);
    RunConcat(w0, es, w, more, v);
    es, w := es + more, v;
    more, v := Looked(w);
    RunConcat(w0, es, w, more, v);
    es, w := es + more, v;
  }

  lemma DeathScheduled(w: Watch) returns (es: seq<Event>, w': Watch)
    requires Inv(w) && InSelect(w) && w.life.state.Ready? && w.target.Some? && w.user.Absent? && w.gen == w.hist.taken
    requires w.hist.calls == []
    ensures es == [Tick(true, None)] && Run(w, es, w') && Inv(w')
    ensures w'.retryPend && w'.retryGen == w'.gen == w.gen && w'.user.Absent? && w'.life.state.Failed?
    ensures w'.hist.spawnedFor == w.hist.spawnedFor
  {
    Nothing(w);
    es, w' := Then(w, [], w, Tick(true, None));
    StepKeeps(w, Tick(true, None));
    var v := Announce(Disarm(w), w.life.downSince.Some?);
    assert w.attempts == [];
    FreshCharge(v, w.hist.taken, None);
    FreshCharge(HealthyReset(v), w.hist.taken, None);
  }

  /** The first death of an account is answered with a retry. */
  lemma FreshCharge(w: Watch, gen: nat, code: Option<int>)
    requires w.attempts == []
    ensures var v := Charge(w, gen, code);
            && v.retryPend && v.retryGen == gen && v.life.state.Failed? && v.gen == w.gen && v.user == w.user
            && v.hist.spawnedFor == w.hist.spawnedFor
  {
  }

  lemma Looked(w: Watch) returns (es: seq<Event>, w': Watch)
    requires Inv(w) && w.retryPend && w.retryGen == w.gen && w.user.Absent? && w.life.state.Failed?
    ensures es == [TimerFires, Fire, AutoChecks] && Run(w, es, w') && w'.call == Checked(w.gen)
    ensures w'.hist.spawnedFor == w.hist.spawnedFor
  {
    Nothing(w);
    es, w' := Then(w, [], w, TimerFires);
    RunKeeps(w, es, w');
    FireCalls(w');
    es, w' := Then(w, es, w', Fire);
    es, w' := Then(w, es, w', AutoChecks);
  }

  // ----- a user restart at work -----------------------------------------------------------

  predicate Unsettled(es: seq<Event>) {
    forall k :: 0 <= k < |es| ==> !es[k].UserSettles?
  }

  /** The lifecycle says that a restart or a stop is in effect, or the loop has nothing
      left that could die. */
  ghost predicate AtWork(w: Watch) {
    && w.user.Running?
    && (w.life.state.Starting? || w.life.state.Stopped? || (w.target.None? && w.queue == []))
  }

  lemma AtWorkStep(w: Watch, e: Event)
    requires Inv(w) && AtWork(w) && CanStep(w, e) && !e.UserSettles?
    ensures AtWork(Step(w, e)) && Step(w, e).hist.spawnedFor == w.hist.spawnedFor
    ensures Step(w, e).hist.spellAlerts == w.hist.spellAlerts
  {
    if e.Fire? { FireCalls(w); }
  }

  lemma {:induction false} AtWorkRun(w: Watch, es: seq<Event>, w': Watch)
    requires Inv(w) && AtWork(w) && Unsettled(es) && Run(w, es, w')
    ensures AtWork(w') && w'.hist.spawnedFor == w.hist.spawnedFor && w'.hist.spellAlerts == w.hist.spellAlerts
    decreases |es|
  {
    if es != [] {
      assert !es[0].UserSettles?;
      StepKeeps(w, es[0]);
      AtWorkStep(w, es[0]);
      forall k | 0 <= k < |es[1..]| ensures !es[1..][k].UserSettles? { assert es[1..][k] == es[k + 1]; }
      AtWorkRun(Step(w, es[0]), es[1..], w');
    }
  }

  /** Main result: from the moment a user restart begins, whatever the watcher was doing
      then, until it settles, a death is only noted: nothing is charged, scheduled,
      announced or given up, and the state stays.  Nor does the watcher spawn. */
  lemma InFlightDeathIsExpected(w: Watch, es: seq<Event>, w': Watch, died: bool, code: Option<int>)
    requires Inv(w) && CanStep(w, UserBegins) && Run(Step(w, UserBegins), es, w') && Unsettled(es)
    requires CanStep(w', Tick(died, code))
    ensures var v := Step(w', Tick(died, code));
            && v == (if died && w'.target.Some? then Disarm(w') else w')
            && v.life.state == w'.life.state && v.attempts == w'.attempts && v.hist == w'.hist
    ensures w'.hist.spellAlerts == w.hist.spellAlerts && w'.hist.spawnedFor == w.hist.spawnedFor
  {
    StepKeeps(w, UserBegins);
    AtWorkRun(Step(w, UserBegins), es, w');
    RunKeeps(Step(w, UserBegins), es, w');
  }

  predicate NotStopped(es: seq<Event>) {
    forall k :: 0 <= k < |es| ==> !es[k].UserSettles? && !es[k].DeliberateStop?
  }

  /** The restart shows as starting until it settles or is stopped. */
  ghost predicate StaysStarting(w: Watch) {
    forall es, w' :: NotStopped(es) && Run(w, es, w') ==>
      w'.life.state.Starting?
  }

  lemma {:induction false} StartingRun(w: Watch, es: seq<Event>, w': Watch)
    requires Inv(w) && w.user.Running? && w.life.state.Starting? && !GivesUp(w)
    requires NotStopped(es) && Run(w, es, w')
    ensures w'.life.state.Starting?
    decreases |es|
  {
    if es != [] {
      assert !es[0].UserSettles? && !es[0].DeliberateStop?;
      StepKeeps(w, es[0]);
      StartingStep(w, es[0]);
      forall k | 0 <= k < |es[1..]| ensures !es[1..][k].UserSettles? && !es[1..][k].DeliberateStop? {
        assert es[1..][k] == es[k + 1];
      }
      StartingRun(Step(w, es[0]), es[1..], w');
    }
  }

  lemma StartingStep(w: Watch, e: Event)
    requires Inv(w) && w.user.Running? && w.life.state.Starting? && !GivesUp(w)
    requires CanStep(w, e) && !e.UserSettles? && !e.DeliberateStop?
    ensures var v := Step(w, e); v.user.Running? && v.life.state.Starting? && !GivesUp(v)
  {
    match e {
      case Advance(dt) => LaterCut(w.attempts, w.now - CRASH_WINDOW, w.now + dt - CRASH_WINDOW);
      case Fire => FireCalls(w);
      case Tick(died, code) => StartingTick(w, died, code);
      case Resume => StartingResume(w);
      case _ =>
    }
  }

  lemma StartingTick(w: Watch, died: bool, code: Option<int>)
    requires w.life.state.Starting? && w.call.NoCall?
    ensures var v := OnTick(w, died, code); v.user == w.user && v.life.state.Starting? && v.call.NoCall?
  {
  }

  lemma StartingResume(w: Watch)
    requires w.life.state.Starting? && w.call.Back? && !GivesUp(w) && Inv(w)
    ensures var v := OnResume(w); v.user == w.user && v.life.state.Starting? && v.call.NoCall?
  {
  }

  /** A restart that begins shows as starting over every run, exactly when the watcher is
      not back from a fruitless call to a full crash account: the give-up that follows
      would be recorded over it. */
  lemma BegunRestartStaysStarting(w: Watch)
    requires Inv(w) && CanStep(w, UserBegins)
    ensures StaysStarting(Step(w, UserBegins)) <==> !GivesUp(w)
  {
    var v := Step(w, UserBegins);
    StepKeeps(w, UserBegins);
    if GivesUp(w) {
      var es, w' := GivingUpFailsIt(v);
      assert NotStopped(es) && Run(v, es, w');
    } else {
      forall es, w' | NotStopped(es) && Run(v, es, w') ensures w'.life.state.Starting? { StartingRun(v, es, w'); }
    }
  }

  // ----- the newest child, when its arm is dropped -----------------------------------------

  /** `n` children were armed while the loop took none. */
  ghost predicate Armed(w: Watch, n: nat) {
    && InSelect(w) && w.user.Absent? && w.target.None? && !w.retryPend
    && w.gen == |w.queue| == n && w.hist.dropped == 0
    && forall i :: 0 <= i < n ==> w.queue[i].gen == i + 1
  }

  /** One more user restart, start to finish. */
  lemma OneMore(w: Watch, now: int) returns (es: seq<Event>, w': Watch)
    requires w.user.Absent? && w.call.NoCall? && !w.stopped
    ensures Run(w, es, w') && es == [UserBegins, UserSettles(true), UserEnds(true, now)]
    ensures w'.queue == Enqueued(w.queue, Target(w.gen + 1, now)) && w'.gen == w.gen + 1 && w'.user.Absent?
    ensures InSelect(w') && w'.target == w.target && w'.retryPend == w.retryPend
    ensures w'.hist.dropped == if |w.queue| < QUEUE_CAP then w.hist.dropped else w'.gen
  {
    Nothing(w);
    es, w' := Then(w, [], w, UserBegins);
    es, w' := Then(w, es, w', UserSettles(true));
    es, w' := Then(w, es, w', UserEnds(true, now));
  }

  lemma {:induction false} Queued(life: Life, now: int, n: nat) returns (es: seq<Event>, w: Watch)
    requires 0 < n <= QUEUE_CAP
    ensures Run(NewWatch(life, now), es, w) && Armed(w, n)
  {
    var w0 := NewWatch(life, now);
    if n == 1 {
      Nothing(w0);
      es, w := Then(w0, [], w0, BootArm(now));
    } else {
      es, w := Queued(life, now, n - 1);
      var more, v := OneMore(w, now);
      RunConcat(w0, es, w, more, v);
      es, w := es + more, v;
    }
  }

  /** The loop takes what is queued, oldest first. */
  lemma {:induction false} Drained(w: Watch) returns (es: seq<Event>, w': Watch)
    requires InSelect(w) && w.queue != []
    ensures Run(w, es, w') && InSelect(w') && w'.queue == []
    ensures w'.target == Some(w.queue[|w.queue| - 1]) && w'.gen == w.gen
    decreases |w.queue|
  {
    Nothing(w);
    es, w' := Then(w, [], w, TakeArm);
    if w'.queue != [] {
      var more, v := Drained(w');
      RunConcat(w, es, w', more, v);
      es, w' := es + more, v;
    }
  }

  /** A full queue drops the newest arm: after boot and as many restarts as the queue
      holds, with the loop busy elsewhere, it ends up watching the last child but one. */
  lemma DroppedArmLeavesOlderWatched(life: Life, now: int) returns (es: seq<Event>, w: Watch)
    ensures Run(NewWatch(life, now), es, w) && InSelect(w) && w.queue == []
    ensures w.target.Some? && w.target.value.gen == QUEUE_CAP && w.gen == QUEUE_CAP + 1
  {
    var w0 := NewWatch(life, now);
    var more, v;
    es, w := Queued(life, now, QUEUE_CAP);
    more, v := OneMore(w, now);
    RunConcat(w0, es, w, more, v);
    es, w := es + more, v;
    more, v := Drained(w);
    RunConcat(w0, es, w, more, v);
    es, w := es + more, v;
  }
}

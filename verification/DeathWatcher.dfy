/** The watcher loop in its own form: fields updated case by case, each case
    proved equal to the step of the machine in DeathWatch. */
module DeathWatcher {
  import opened Wrappers
  import opened Lifecycle
  import opened DeathWatch

  class Watcher {
    var target: Option<Target>
    var attempts: seq<int>
    var backoff: nat
    var delay: nat
    var retryGen: nat
    var retryPend: bool
    var gen: nat
    var queue: seq<Target>
    var token: bool
    var stopped: bool
    var call: Call
    var user: User
    var life: Life
    var now: int
    ghost var hist: History

    ghost function View(): Watch
      reads this
    {
      Watch(target, attempts, backoff, delay, retryGen, retryPend, gen, queue, token, stopped, call, user, life, now,
            hist)
    }

    constructor (life: Life, now: int)
      ensures View() == NewWatch(life, now)
    {
      target, attempts, backoff, delay, retryGen, retryPend := None, [], BACKOFF_BASE, 0, 0, false;
      gen, queue, token, stopped, call, user := 0, [], false, false, NoCall, Absent;
      this.life, this.now := life, now;
      hist := NewWatch(life, now).hist;
    }

    /** Keeps the attempts inside the crash window. */
    method PruneAttempts()
      modifies this`attempts, this`hist
      ensures View() == Prune(old(View()))
    {
      var cut := now - CRASH_WINDOW;
      var live := [];
      var i := 0;
      while i < |attempts|
        invariant 0 <= i <= |attempts|
        invariant live == After(attempts[..i], cut)
      {
        assert attempts[..i + 1][..i] == attempts[..i];
        if attempts[i] > cut {
          live := live + [attempts[i]];
        }
        i := i + 1;
      }
      assert attempts[..i] == attempts;
      attempts := live;
      hist := hist.(cut := cut);
    }

    method ScheduleRetry(g: nat)
      modifies this`backoff, this`delay, this`retryGen, this`retryPend, this`hist
      ensures View() == Schedule(old(View()), g)
    {
      delay := backoff;
      backoff := backoff * 2;
      if backoff > BACKOFF_MAX {
        backoff := BACKOFF_MAX;
      }
      retryGen, retryPend := g, true;
      hist := hist.(schedules := hist.schedules + 1, rounds := hist.rounds + 1);
    }

    method RecordGiveUp()
      modifies this`life, this`hist
      ensures View() == GiveUp(old(View()))
    {
      life := life.SetRestartProgress(|attempts|, true);
      life := life.SetFailed(None);
      hist := hist.(capAlerts := hist.capAlerts + 1);
    }

    /** The generation moves under the lock; a full queue drops the newest arm. */
    method ArmChild(startedAt: int)
      modifies this`gen, this`queue, this`hist
      ensures View() == Arm(old(View()), startedAt)
    {
      gen := gen + 1;
      if |queue| < QUEUE_CAP {
        queue := queue + [Target(gen, startedAt)];
      } else {
        hist := hist.(dropped := gen);
      }
    }

    method TakeTarget()
      requires queue != []
      modifies this`target, this`queue, this`hist
      ensures View() == Take(old(View()))
    {
      var t := queue[0];
      target, queue := Some(t), queue[1..];
      hist := hist.(taken := t.gen);
    }

    method CancelRetry()
      modifies this`retryPend, this`hist
      ensures View() == StopTimer(old(View()))
    {
      hist := hist.(cancelled := hist.cancelled + if retryPend then 1 else 0);
      retryPend := false;
    }

    method FreshAccount()
      modifies this`attempts, this`backoff, this`hist
      ensures View() == HealthyReset(old(View()))
    {
      attempts, backoff := [], BACKOFF_BASE;
      hist := hist.(calls := [], rounds := 0);
    }

    /** An unexpected death is charged to the crash account and answered with a
        retry, or with the terminal crash-loop state. */
    method DeathCase(gen: nat, uptime: int, code: Option<int>)
      modifies this
      ensures View() == OnDeath(old(View()), gen, uptime, code)
    {
      if uptime >= HEALTHY_RESET {
        FreshAccount();
      }
      PruneAttempts();
      if |attempts| >= CRASH_MAX {
        RecordGiveUp();
        return;
      }
      life := life.SetFailed(code);
      life := life.SetRestartProgress(|attempts| + 1, false);
      ScheduleRetry(gen);
    }

    method NoteDeath()
      modifies this`target, this`life
      ensures View() == Disarm(old(View()))
    {
      target := None;
      life := life.MarkDown(now);
    }

    method RaiseDown(wasDown: bool)
      modifies this`hist
      ensures View() == Announce(old(View()), wasDown)
    {
      if !wasDown {
        hist := hist.(spellAlerts := hist.spellAlerts + 1);
      }
    }

    /** The tick case of the loop: a death is noted, classified, announced once
        per spell and then disposed of. */
    method TickCase(died: bool, code: Option<int>)
      modifies this
      ensures View() == OnTick(old(View()), died, code)
    {
      if target.None? || retryPend || !died {
        return;
      }
      var t := target.value;
      var uptime := now - t.startedAt;
      var wasDown := life.downSince.Some?;
      NoteDeath();
      if life.state.Stopped? || life.state.Starting? {
        return;
      }
      RaiseDown(wasDown);
      DeathCase(t.gen, uptime, code);
    }

    /** The attempt is counted before the executor is entered. */
    method CallRestart()
      modifies this
      ensures View() == Calling(old(View()))
    {
      attempts := attempts + [now];
      hist := hist.(calls := hist.calls + [now], called := hist.called + 1);
      life := life.SetRestartProgress(|attempts|, false);
      call := Blocked(retryGen);
    }

    /** The timer case up to the call of the restart executor. */
    method FireCase()
      modifies this
      ensures View() == OnFire(old(View()))
    {
      token := false;
      if !retryPend {
        return;
      }
      retryPend := false;
      PruneAttempts();
      if |attempts| >= CRASH_MAX {
        RecordGiveUp();
        return;
      }
      CallRestart();
    }

    /** The restart executor takes the mutex and looks around; past its checks nothing
        keeps a stop from landing. */
    method CheckAttempt()
      requires call.Blocked?
      modifies this`call
      ensures View() == OnAutoChecks(old(View()))
    {
      if gen != call.gen {
        call := Back(call.gen);
        return;
      }
      if life.state.Starting? || life.state.Stopped? {
        call := Back(call.gen);
        return;
      }
      call := Checked(call.gen);
    }

    /** The attempt of the shared restart arm, step by step. */
    method AttemptStep(e: Event)
      requires CanStep(View(), e) && (e.AutoStarts? || e.AutoSpawns? || e.AutoSettles? || e.AutoEnds?)
      modifies this
      ensures View() == Step(old(View()), e)
    {
      match e {
        case AutoStarts =>
          life := life.SetStarting();
          call := Started(call.gen);
        case AutoSpawns(child) =>
          hist := hist.(spawnedFor := hist.spawnedFor + if child then [call.gen] else []);
          call := Spawned(call.gen, child);
        case AutoSettles(ok) =>
          if ok {
            life := life.SetReady();
            hist := hist.(spellAlerts := 0);
          } else {
            life := life.SetFailed(None);
          }
          call := Rearming(call.gen, call.child);
        case AutoEnds(at) =>
          if call.child {
            ArmChild(at);
          }
          call := Back(call.gen);
      }
    }

    /** The timer case after the call. */
    method ReturnCase()
      requires call.Back?
      modifies this
      ensures View() == OnResume(old(View()))
    {
      var g := call.gen;
      call := NoCall;
      if queue != [] {
        TakeTarget();
      }
      if gen > g {
        return;
      }
      RetryOrGiveUp(g);
    }

    method RetryOrGiveUp(g: nat)
      modifies this
      ensures View() == Again(old(View()), g)
    {
      PruneAttempts();
      if |attempts| >= CRASH_MAX {
        RecordGiveUp();
        return;
      }
      life := life.SetRestartProgress(|attempts| + 1, false);
      ScheduleRetry(g);
    }

    /** What the restart hook does to the watcher's world. */
    method UserCase(e: Event)
      requires CanStep(View(), e) && (e.UserBegins? || e.UserSettles? || e.UserEnds?)
      modifies this
      ensures View() == Step(old(View()), e)
    {
      match e {
        case UserBegins =>
          user, life := Running, life.SetStarting();
        case UserSettles(ok) =>
          if ok {
            life := life.SetReady();
            hist := hist.(spellAlerts := 0);
          } else {
            life := life.SetFailed(None);
          }
          user := Settled;
        case UserEnds(child, at) =>
          if child {
            ArmChild(at);
          }
          user := Absent;
      }
    }

    /** One turn of the loop, or one step of what surrounds it. */
    method Turn(e: Event)
      requires CanStep(View(), e)
      modifies this
      ensures View() == Step(old(View()), e)
    {
      match e {
        case Advance(dt) => now := now + dt;
        case TimerFires => token := true;
        case BootArm(at) => ArmChild(at);
        case DeliberateStop => life := life.SetStopped();
        case TakeArm =>
          CancelRetry();
          TakeTarget();
        case Tick(died, code) => TickCase(died, code);
        case Fire => FireCase();
        case AutoChecks => CheckAttempt();
        case Resume => ReturnCase();
        case Cancel =>
          CancelRetry();
          stopped := true;
        case UserBegins => UserCase(e);
        case UserSettles(_) => UserCase(e);
        case UserEnds(_, _) => UserCase(e);
        case _ => AttemptStep(e);
      }
    }

    /** The loop under any schedule: it performs what can happen in the order it is
        offered, so it makes a run of the machine and keeps its invariant.  Hence the
        cap on calls in any window, one replacement a generation, one alert a spell,
        and a call for every schedule that was neither cancelled nor is pending. */
    method Loop(schedule: seq<Event>) returns (ghost es: seq<Event>)
      requires Inv(View())
      modifies this
      ensures Run(old(View()), es, View()) && Inv(View())
      ensures forall a :: InWindow(hist.calls, a) <= CRASH_MAX
      ensures forall i, j :: 0 <= i < j < |hist.spawnedFor| ==> hist.spawnedFor[i] != hist.spawnedFor[j]
      ensures hist.spellAlerts <= 1
      ensures hist.schedules == hist.called + hist.cancelled + (if retryPend then 1 else 0)
      ensures ShortLived(old(View()), es) ==> forall a :: InWindow(CallTimes(old(View()), es), a) <= CRASH_MAX
    {
      es := [];
      var i := 0;
      while i < |schedule|
        invariant 0 <= i <= |schedule|
        invariant Run(old(View()), es, View()) && Inv(View())
      {
        ghost var w := View();
        if Possible(schedule[i]) {
          StepKeeps(w, schedule[i]);
          Turn(schedule[i]);
          RunThen(old(View()), es, w, schedule[i]);
          es := es + [schedule[i]];
        }
        i := i + 1;
      }
      forall a ensures InWindow(hist.calls, a) <= CRASH_MAX { SpreadBoundsWindow(hist.calls, a); }
      if ShortLived(old(View()), es) {
        forall a ensures InWindow(CallTimes(old(View()), es), a) <= CRASH_MAX {
          ShortLivedCap(old(View()), es, View(), a);
        }
      }
    }

    predicate Possible(e: Event)
      reads this
      ensures Possible(e) == CanStep(View(), e)
    {
      match e
      case Advance(_) => true
      case TimerFires => true
      case BootArm(_) => gen == 0 && user.Absent?
      case UserBegins => user.Absent? && !Holding(call)
      case UserSettles(_) => user.Running?
      case UserEnds(_, _) => user.Settled?
      case DeliberateStop => true
      case TakeArm => !stopped && call.NoCall? && queue != []
      case Tick(_, _) => !stopped && call.NoCall?
      case Fire => !stopped && call.NoCall? && token
      case AutoChecks => call.Blocked? && user.Absent?
      case AutoStarts => call.Checked?
      case AutoSpawns(_) => call.Started?
      case AutoSettles(ok) => call.Spawned? && (ok ==> call.child)
      case AutoEnds(_) => call.Rearming?
      case Resume => call.Back?
      case Cancel => !stopped && call.NoCall?
    }
  }
}

/**
 The death watcher of the detached child: the policy loop with its crash window,
 backoff and pending retry, the arm queue, and the race with user restarts for
 the daemon's restart mutex.  Times are in milliseconds.
*/
module DeathWatch {
  import opened Wrappers
  import opened Lifecycle

  const BACKOFF_BASE: nat := 1000
  const BACKOFF_MAX: nat := 30000
  const HEALTHY_RESET: int := 30000
  const CRASH_MAX: nat := 5
  const CRASH_WINDOW: int := 600000
  const QUEUE_CAP: nat := 8

  datatype Target = Target(gen: nat, startedAt: int)

  /** Whether the loop is inside the restart callback, and for which generation:
      waiting for the restart mutex; holding it, past the executor's check, in the
      attempt, with the attempt's `child` retained or not, and after the outcome is
      recorded but before the child is armed; or back with the mutex released. */
  datatype Call =
    | NoCall
    | Blocked(gen: nat)
    | Checked(gen: nat)
    | Started(gen: nat)
    | Spawned(gen: nat, child: bool)
    | Rearming(gen: nat, child: bool)
    | Back(gen: nat)

  /** A user restart holds the restart mutex from Running on. */
  datatype User = Absent | Running | Settled

  /** What happened so far.  `calls` are the times of the restart calls since the
      last healthy reset, `rounds` the schedules since then, `cut` the bound of
      the last prune; the others count over the whole run.  `spawnedFor` lists
      the generations for which the watcher spawned a retained replacement, and
      `taken` is the generation of the last target taken from the queue, `dropped`
      that of the last arm the full queue dropped. */
  datatype History = History(calls: seq<int>, rounds: nat, cut: int, schedules: nat, called: nat,
                             cancelled: nat, spawnedFor: seq<nat>, taken: nat, dropped: nat,
                             spellAlerts: nat, capAlerts: nat)

  datatype Watch = Watch(
    // the loop's own variables
    target: Option<Target>, attempts: seq<int>, backoff: nat, delay: nat, retryGen: nat, retryPend: bool,
    // shared with restarts and timers
    gen: nat, queue: seq<Target>, token: bool, stopped: bool, call: Call, user: User,
    life: Life, now: int,
    hist: History)

  /** A watcher before its first arm. */
  function NewWatch(life: Life, now: int): Watch {
    Watch(None, [], BACKOFF_BASE, 0, 0, false, 0, [], false, false, NoCall, Absent, life, now,
          History([], 0, now - CRASH_WINDOW, 0, 0, 0, [], 0, 0, 0, 0))
  }

  /** `died` and `code` are what the poll of the target saw; `child` says whether a
      restart attempt retained a child, `ok` whether it succeeded. */
  datatype Event =
    | Advance(dt: nat)
    | TimerFires
    | BootArm(startedAt: int)
    | UserBegins
    | UserSettles(ok: bool)
    | UserEnds(child: bool, startedAt: int)
    | DeliberateStop
    | TakeArm
    | Tick(died: bool, code: Option<int>)
    | Fire
    | AutoChecks
    | AutoStarts
    | AutoSpawns(child: bool)
    | AutoSettles(ok: bool)
    | AutoEnds(startedAt: int)
    | Resume
    | Cancel

  /** The watcher's own restart holds the mutex. */
  predicate Holding(c: Call) {
    c.Checked? || c.Started? || c.Spawned? || c.Rearming?
  }

  predicate InSelect(w: Watch) {
    !w.stopped && w.call.NoCall?
  }

  predicate CanStep(w: Watch, e: Event) {
    match e
    case Advance(_) => true
    case TimerFires => true                   // also a late token of a stopped timer
    case BootArm(_) => w.gen == 0 && w.user.Absent?
    case UserBegins => w.user.Absent? && !Holding(w.call)
    case UserSettles(_) => w.user.Running?
    case UserEnds(_, _) => w.user.Settled?
    case DeliberateStop => true
    case TakeArm => InSelect(w) && w.queue != []
    case Tick(_, _) => InSelect(w)
    case Fire => InSelect(w) && w.token
    case AutoChecks => w.call.Blocked? && w.user.Absent?
    case AutoStarts => w.call.Checked?
    case AutoSpawns(_) => w.call.Started?
    case AutoSettles(ok) => w.call.Spawned? && (ok ==> w.call.child)
    case AutoEnds(_) => w.call.Rearming?
    case Resume => w.call.Back?
    case Cancel => InSelect(w)
  }

  // ----- the pieces of the policy ---------------------------------------------------

  /** The times after `cut`, in order. */
  function After(ts: seq<int>, cut: int): seq<int> {
    if ts == [] then []
    else
      var rest := After(ts[..|ts| - 1], cut);
      if ts[|ts| - 1] > cut then rest + [ts[|ts| - 1]] else rest
  }

  function Prune(w: Watch): Watch {
    w.(attempts := After(w.attempts, w.now - CRASH_WINDOW), hist := w.hist.(cut := w.now - CRASH_WINDOW))
  }

  function Doubled(b: nat): nat {
    if 2 * b > BACKOFF_MAX then BACKOFF_MAX else 2 * b
  }

  function Schedule(w: Watch, gen: nat): Watch {
    w.(delay := w.backoff, backoff := Doubled(w.backoff), retryGen := gen, retryPend := true,
       hist := w.hist.(schedules := w.hist.schedules + 1, rounds := w.hist.rounds + 1))
  }

  function GiveUp(w: Watch): Watch {
    w.(life := w.life.SetRestartProgress(|w.attempts|, true).SetFailed(None),
       hist := w.hist.(capAlerts := w.hist.capAlerts + 1))
  }

  function StopTimer(w: Watch): Watch {
    w.(retryPend := false,
       hist := w.hist.(cancelled := w.hist.cancelled + if w.retryPend then 1 else 0))
  }

  function Enqueued(q: seq<Target>, t: Target): seq<Target> {
    if |q| < QUEUE_CAP then q + [t] else q
  }

  /** A new child: the generation moves first, and a full queue drops the arm. */
  function Arm(w: Watch, startedAt: int): Watch {
    var g := w.gen + 1;
    w.(gen := g, queue := Enqueued(w.queue, Target(g, startedAt)),
       hist := w.hist.(dropped := if |w.queue| < QUEUE_CAP then w.hist.dropped else g))
  }

  function Ready(w: Watch): Watch {
    w.(life := w.life.SetReady(), hist := w.hist.(spellAlerts := 0))
  }

  function Take(w: Watch): Watch
    requires w.queue != []
  {
    w.(target := Some(w.queue[0]), queue := w.queue[1..], hist := w.hist.(taken := w.queue[0].gen))
  }

  /** A child that stayed up long enough starts a fresh crash account. */
  function HealthyReset(w: Watch): Watch {
    w.(attempts := [], backoff := BACKOFF_BASE, hist := w.hist.(calls := [], rounds := 0))
  }

  /** The retry that a death is answered with, or the end of the account. */
  function Charge(w: Watch, gen: nat, code: Option<int>): Watch {
    var w1 := Prune(w);
    if |w1.attempts| >= CRASH_MAX then GiveUp(w1)
    else Schedule(w1.(life := w1.life.SetFailed(code).SetRestartProgress(|w1.attempts| + 1, false)), gen)
  }

  /** The disposition of an unexpected death, after the alert. */
  function OnDeath(w: Watch, gen: nat, uptime: int, code: Option<int>): Watch {
    Charge(if uptime >= HEALTHY_RESET then HealthyReset(w) else w, gen, code)
  }

  /** The death is noted before its disposition is known. */
  function Disarm(w: Watch): Watch {
    w.(target := None, life := w.life.MarkDown(w.now))
  }

  /** One "down" alert, when the death opens the spell. */
  function Announce(w: Watch, wasDown: bool): Watch {
    if wasDown then w else w.(hist := w.hist.(spellAlerts := w.hist.spellAlerts + 1))
  }

  /** What follows a death that was noted: an expected one is left at that. */
  function Dispose(w: Watch, wasDown: bool, t: Target, code: Option<int>): Watch {
    if w.life.state.Stopped? || w.life.state.Starting? then w
    else OnDeath(Announce(w, wasDown), t.gen, w.now - t.startedAt, code)
  }

  function OnTick(w: Watch, died: bool, code: Option<int>): Watch {
    if w.target.None? || w.retryPend || !died then w
    else Dispose(Disarm(w), w.life.downSince.Some?, w.target.value, code)
  }

  /** The attempt is counted when the executor is called. */
  function Calling(w: Watch): Watch {
    w.(attempts := w.attempts + [w.now], call := Blocked(w.retryGen),
       life := w.life.SetRestartProgress(|w.attempts| + 1, false),
       hist := w.hist.(calls := w.hist.calls + [w.now], called := w.hist.called + 1))
  }

  function OnFire(w: Watch): Watch {
    var w0 := w.(token := false);
    if !w.retryPend then w0
    else
      var w1 := Prune(w0.(retryPend := false));
      if |w1.attempts| >= CRASH_MAX then GiveUp(w1)
      else Calling(w1)
  }

  /** The restart executor takes the mutex and looks: a newer child, or a restart or
      deliberate stop in effect, makes it a no-op. */
  function OnAutoChecks(w: Watch): Watch
    requires w.call.Blocked?
  {
    var g := w.call.gen;
    w.(call := if w.gen != g || w.life.state.Starting? || w.life.state.Stopped? then Back(g) else Checked(g))
  }

  function OnAutoSpawns(w: Watch, child: bool): Watch
    requires w.call.Started?
  {
    var g := w.call.gen;
    w.(call := Spawned(g, child), hist := w.hist.(spawnedFor := w.hist.spawnedFor + if child then [g] else []))
  }

  function OnAutoSettles(w: Watch, ok: bool): Watch
    requires w.call.Spawned?
  {
    (if ok then Ready(w) else w.(life := w.life.SetFailed(None))).(call := Rearming(w.call.gen, w.call.child))
  }

  function OnAutoEnds(w: Watch, startedAt: int): Watch
    requires w.call.Rearming?
  {
    (if w.call.child then Arm(w, startedAt) else w).(call := Back(w.call.gen))
  }

  /** The retry after a call without a replacement, or the end of the account. */
  function Again(w: Watch, gen: nat): Watch {
    var w1 := Prune(w);
    if |w1.attempts| >= CRASH_MAX then GiveUp(w1)
    else Schedule(w1.(life := w1.life.SetRestartProgress(|w1.attempts| + 1, false)), gen)
  }

  /** After the callback: drain one arm, and retry when no replacement came. */
  function OnResume(w: Watch): Watch
    requires w.call.Back?
  {
    var g := w.call.gen;
    var w0 := w.(call := NoCall);
    var w1 := if w0.queue != [] then Take(w0) else w0;
    if w1.gen > g then w1 else Again(w1, g)
  }

  function Step(w: Watch, e: Event): Watch
    requires CanStep(w, e)
  {
    match e
    case Advance(dt) => w.(now := w.now + dt)
    case TimerFires => w.(token := true)
    case BootArm(at) => Arm(w, at)
    case UserBegins => w.(user := Running, life := w.life.SetStarting())
    case UserSettles(ok) => (if ok then Ready(w) else w.(life := w.life.SetFailed(None))).(user := Settled)
    case UserEnds(child, at) => (if child then Arm(w, at) else w).(user := Absent)
    case DeliberateStop => w.(life := w.life.SetStopped())
    case TakeArm => Take(StopTimer(w))
    case Tick(died, code) => OnTick(w, died, code)
    case Fire => OnFire(w)
    case AutoChecks => OnAutoChecks(w)
    case AutoStarts => w.(call := Started(w.call.gen), life := w.life.SetStarting())
    case AutoSpawns(child) => OnAutoSpawns(w, child)
    case AutoSettles(ok) => OnAutoSettles(w, ok)
    case AutoEnds(at) => OnAutoEnds(w, at)
    case Resume => OnResume(w)
    case Cancel => StopTimer(w).(stopped := true)
  }

  predicate Run(w: Watch, es: seq<Event>, w': Watch)
    decreases |es|
  {
    if es == [] then w == w' else CanStep(w, es[0]) && Run(Step(w, es[0]), es[1..], w')
  }

  // ----- the invariant ------------------------------------------------------------------

  function Power2(k: nat): nat {
    if k == 0 then 1 else 2 * Power2(k - 1)
  }

  /** min(base * 2^k, max) */
  function BackoffAfter(k: nat): nat {
    if BACKOFF_BASE * Power2(k) > BACKOFF_MAX then BACKOFF_MAX else BACKOFF_BASE * Power2(k)
  }

  ghost predicate Ascending(ts: seq<int>) {
    forall i, j :: 0 <= i < j < |ts| ==> ts[i] <= ts[j]
  }

  /** Any CRASH_MAX + 1 consecutive calls span at least the window. */
  ghost predicate Spread(ts: seq<int>) {
    forall j :: CRASH_MAX <= j < |ts| ==> ts[j - CRASH_MAX] <= ts[j] - CRASH_WINDOW
  }

  ghost predicate AccountOk(w: Watch) {
    && Ascending(w.hist.calls) && Spread(w.hist.calls)
    && (forall i :: 0 <= i < |w.hist.calls| ==> w.hist.calls[i] <= w.now)
    && w.hist.cut <= w.now - CRASH_WINDOW
    && w.attempts == After(w.hist.calls, w.hist.cut)
    && w.backoff == BackoffAfter(w.hist.rounds)
    && (w.retryPend ==> w.hist.rounds > 0 && w.delay == BackoffAfter(w.hist.rounds - 1))
    && w.hist.schedules == w.hist.called + w.hist.cancelled + (if w.retryPend then 1 else 0)
  }

  ghost predicate LoopOk(w: Watch) {
    && (w.retryPend ==>
          && w.target.None? && |w.attempts| < CRASH_MAX && w.call.NoCall?
          && w.retryGen == w.hist.taken && !w.stopped)
    && (!w.call.NoCall? ==> w.target.None? && w.call.gen == w.hist.taken && !w.stopped)
    && (Holding(w.call) ==> w.user.Absent? && w.gen == w.call.gen)
    && (w.target.Some? ==> w.target.value.gen == w.hist.taken)
    && (w.target.Some? || w.retryPend || !w.call.NoCall? ==> w.hist.taken > 0)
    && w.hist.spellAlerts <= 1
    && (w.hist.spellAlerts == 1 ==> w.life.downSince.Some?)
  }

  /** The generations of the queue rise, above `lo` and up to `hi`. */
  ghost predicate Rising(q: seq<Target>, lo: nat, hi: nat) {
    && (forall i :: 0 <= i < |q| ==> lo < q[i].gen <= hi)
    && (forall i, j :: 0 <= i < j < |q| ==> q[i].gen < q[j].gen)
  }

  ghost predicate RisingBelow(gens: seq<nat>, hi: nat) {
    && (forall i :: 0 <= i < |gens| ==> gens[i] < hi)
    && (forall i, j :: 0 <= i < j < |gens| ==> gens[i] < gens[j])
  }

  /** A replacement is there and not armed yet. */
  predicate Replacing(c: Call) {
    (c.Spawned? || c.Rearming?) && c.child
  }

  ghost predicate GensOk(w: Watch) {
    && w.hist.taken <= w.gen && Rising(w.queue, w.hist.taken, w.gen)
    && RisingBelow(w.hist.spawnedFor, if Replacing(w.call) then w.gen + 1 else w.gen)
  }

  ghost predicate Inv(w: Watch) {
    AccountOk(w) && LoopOk(w) && GensOk(w)
  }

  // ----- facts about pruning and backoff -----------------------------------------------------

  lemma {:induction false} AfterAfter(ts: seq<int>, c: int, c': int)
    requires c <= c'
    ensures After(After(ts, c), c') == After(ts, c')
  {
    if ts != [] {
      AfterAfter(ts[..|ts| - 1], c, c');
      var rest := After(ts[..|ts| - 1], c);
      if ts[|ts| - 1] > c { assert (rest + [ts[|ts| - 1]])[..|rest|] == rest; }
    }
  }

  lemma {:induction false} AfterAppend(ts: seq<int>, c: int, t: int)
    requires t > c
    ensures After(ts + [t], c) == After(ts, c) + [t]
  {
    assert (ts + [t])[..|ts|] == ts;
  }

  /** Everything from index `i` on is kept when the element at `i` is. */
  lemma {:induction false} AfterKeepsTail(ts: seq<int>, c: int, i: nat)
    requires Ascending(ts) && i < |ts| && ts[i] > c
    ensures |After(ts, c)| >= |ts| - i
  {
    var init := ts[..|ts| - 1];
    assert ts[|ts| - 1] > c by { if i < |ts| - 1 { assert ts[i] <= ts[|ts| - 1]; } }
    if i < |init| {
      assert init[i] == ts[i];
      AfterKeepsTail(init, c, i);
    }
  }

  lemma BackoffDoubles(k: nat)
    ensures Doubled(BackoffAfter(k)) == BackoffAfter(k + 1)
  {
  }

  lemma PruneKeepsAccount(w: Watch)
    requires AccountOk(w)
    ensures AccountOk(Prune(w)) && |Prune(w).attempts| <= |w.attempts|
  {
    AfterAfter(w.hist.calls, w.hist.cut, w.now - CRASH_WINDOW);
    AfterShrinks(w.attempts, w.now - CRASH_WINDOW);
  }

  lemma {:induction false} AfterShrinks(ts: seq<int>, c: int)
    ensures |After(ts, c)| <= |ts|
  {
    if ts != [] { AfterShrinks(ts[..|ts| - 1], c); }
  }

  // ----- every step keeps the invariant -------------------------------------------------------

  /** The call that a granted retry makes keeps the spread: were the call
      CRASH_MAX places earlier still in the window, pruning would have kept that
      one and all since, and the cap would have refused. */
  lemma CallKeepsAccount(w: Watch)
    requires AccountOk(w) && |w.attempts| < CRASH_MAX && w.hist.cut == w.now - CRASH_WINDOW
    ensures var calls := w.hist.calls + [w.now];
            Ascending(calls) && Spread(calls) && After(calls, w.hist.cut) == w.attempts + [w.now]
  {
    var ts := w.hist.calls;
    AfterAppend(ts, w.hist.cut, w.now);
    AscendingAppend(ts, w.now);
    if |ts| >= CRASH_MAX && ts[|ts| - CRASH_MAX] > w.hist.cut {
      AfterKeepsTail(ts, w.hist.cut, |ts| - CRASH_MAX);
    }
    SpreadAppend(ts, w.now);
  }

  lemma AscendingAppend(ts: seq<int>, t: int)
    requires Ascending(ts) && forall i :: 0 <= i < |ts| ==> ts[i] <= t
    ensures Ascending(ts + [t])
  {
  }

  lemma SpreadAppend(ts: seq<int>, t: int)
    requires Spread(ts) && (|ts| >= CRASH_MAX ==> ts[|ts| - CRASH_MAX] <= t - CRASH_WINDOW)
    ensures Spread(ts + [t])
  {
  }

  lemma CallingKeeps(w: Watch)
    requires Inv(w) && w.retryPend && w.hist.cut == w.now - CRASH_WINDOW
    ensures Inv(Calling(w.(retryPend := false)))
  {
    CallKeepsAccount(w);
  }

  lemma OnFireKeeps(w: Watch)
    requires Inv(w) && CanStep(w, Fire)
    ensures Inv(OnFire(w))
    ensures w.retryPend ==> OnFire(w).call.Blocked?
  {
    if w.retryPend {
      var w0 := w.(token := false);
      PruneKeepsAccount(w0);
      assert Prune(w0.(retryPend := false)) == Prune(w0).(retryPend := false);
      CallingKeeps(Prune(w0));
    }
  }

  lemma OnDeathKeeps(w: Watch, gen: nat, uptime: int, code: Option<int>)
    requires AccountOk(w) && GensOk(w) && LoopOk(w)
    requires !w.retryPend && w.target.None? && w.call.NoCall? && !w.stopped && gen == w.hist.taken > 0
    ensures Inv(OnDeath(w, gen, uptime, code))
  {
    var w1 := if uptime >= HEALTHY_RESET then HealthyReset(w) else w;
    HealthyResetKeeps(w);
    ChargeKeeps(w1, gen, code);
  }

  /** The death is charged to the account as it stands. */
  lemma ChargeKeeps(w: Watch, gen: nat, code: Option<int>)
    requires AccountOk(w) && GensOk(w) && LoopOk(w)
    requires !w.retryPend && w.target.None? && w.call.NoCall? && !w.stopped && gen == w.hist.taken > 0
    ensures Inv(Charge(w, gen, code))
  {
    PruneKeepsAccount(w);
    BackoffDoubles(w.hist.rounds);
  }

  lemma HealthyResetKeeps(w: Watch)
    requires AccountOk(w) && !w.retryPend
    ensures AccountOk(HealthyReset(w))
  {
  }

  lemma DisarmKeeps(w: Watch)
    requires Inv(w)
    ensures Inv(Disarm(w)) && Inv(Announce(Disarm(w), w.life.downSince.Some?))
  {
  }

  lemma DisposeKeeps(w: Watch, wasDown: bool, t: Target, code: Option<int>)
    requires Inv(w) && Inv(Announce(w, wasDown)) && t.gen == w.hist.taken > 0
    requires !w.retryPend && w.target.None? && w.call.NoCall? && !w.stopped
    ensures Inv(Dispose(w, wasDown, t, code))
  {
    if !w.life.state.Stopped? && !w.life.state.Starting? {
      OnDeathKeeps(Announce(w, wasDown), t.gen, w.now - t.startedAt, code);
    }
  }

  lemma OnTickKeeps(w: Watch, died: bool, code: Option<int>)
    requires Inv(w) && CanStep(w, Tick(died, code))
    ensures Inv(OnTick(w, died, code))
  {
    if w.target.Some? && !w.retryPend && died {
      DisarmKeeps(w);
      DisposeKeeps(Disarm(w), w.life.downSince.Some?, w.target.value, code);
    }
  }

  lemma ArmRises(q: seq<Target>, lo: nat, hi: nat, at: int)
    requires Rising(q, lo, hi) && lo <= hi
    ensures Rising(Enqueued(q, Target(hi + 1, at)), lo, hi + 1)
  {
    var q' := Enqueued(q, Target(hi + 1, at));
    forall i | 0 <= i < |q'| ensures lo < q'[i].gen <= hi + 1 && (i < |q| ==> q'[i] == q[i]) {
    }
  }

  lemma MoreBelow(gens: seq<nat>, hi: nat)
    requires RisingBelow(gens, hi)
    ensures RisingBelow(gens, hi + 1) && RisingBelow(gens + [hi], hi + 1)
  {
  }

  lemma ArmKeepsGens(w: Watch, at: int)
    requires GensOk(w) && !Replacing(w.call)
    ensures GensOk(Arm(w, at))
  {
    ArmRises(w.queue, w.hist.taken, w.gen, at);
    MoreBelow(w.hist.spawnedFor, w.gen);
  }

  /** An arm touches neither the account nor the loop's variables. */
  lemma ArmKeepsRest(w: Watch, at: int)
    requires AccountOk(w) && LoopOk(w) && !Holding(w.call)
    ensures AccountOk(Arm(w, at)) && LoopOk(Arm(w, at))
  {
  }

  lemma ArmKeeps(w: Watch, at: int)
    requires Inv(w) && !Holding(w.call)
    ensures Inv(Arm(w, at))
  {
    ArmKeepsGens(w, at);
    ArmKeepsRest(w, at);
  }

  lemma AutoSpawnsKeeps(w: Watch, child: bool)
    requires Inv(w) && CanStep(w, AutoSpawns(child))
    ensures Inv(OnAutoSpawns(w, child))
  {
    MoreBelow(w.hist.spawnedFor, w.gen);
    assert w.hist.spawnedFor + [] == w.hist.spawnedFor;
  }

  lemma AutoEndsKeeps(w: Watch, at: int)
    requires Inv(w) && CanStep(w, AutoEnds(at))
    ensures Inv(OnAutoEnds(w, at))
  {
    ArmRises(w.queue, w.hist.taken, w.gen, at);
    ArmKeepsRest(w.(call := Back(w.call.gen)), at);
  }

  /** The executor's other steps. */
  lemma AutoKeeps(w: Watch, e: Event)
    requires Inv(w) && CanStep(w, e) && (e.AutoChecks? || e.AutoStarts? || e.AutoSettles?)
    ensures Inv(Step(w, e))
  {
  }

  lemma TakeKeeps(w: Watch)
    requires Inv(w) && w.queue != [] && !w.retryPend && w.call.NoCall? && !w.stopped
    ensures Inv(Take(w))
  {
  }

  /** When no replacement was armed, nothing was drained either. */
  lemma OnResumeKeeps(w: Watch)
    requires Inv(w) && CanStep(w, Resume)
    ensures Inv(OnResume(w))
  {
    var w0 := w.(call := NoCall);
    if w0.queue != [] { TakeKeeps(w0); }
    var w1 := if w0.queue != [] then Take(w0) else w0;
    if w1.gen <= w.call.gen {
      PruneKeepsAccount(w1);
      BackoffDoubles(w1.hist.rounds);
    }
  }

  /** The steps that are a few assignments. */
  lemma SmallStepKeeps(w: Watch, e: Event)
    requires Inv(w) && CanStep(w, e)
    requires e.Advance? || e.TimerFires? || e.UserBegins? || e.UserSettles? || e.DeliberateStop? || e.Cancel?
    ensures Inv(Step(w, e))
  {
  }

  lemma StepKeeps(w: Watch, e: Event)
    requires Inv(w) && CanStep(w, e)
    ensures Inv(Step(w, e))
  {
    match e {
      case BootArm(at) => ArmKeeps(w, at);
      case UserEnds(child, at) => if child { ArmKeeps(w, at); }
      case TakeArm => TakeKeeps(StopTimer(w));
      case Tick(died, code) => OnTickKeeps(w, died, code);
      case Fire => OnFireKeeps(w);
      case AutoSpawns(child) => AutoSpawnsKeeps(w, child);
      case AutoEnds(at) => AutoEndsKeeps(w, at);
      case AutoChecks => AutoKeeps(w, e);
      case AutoStarts => AutoKeeps(w, e);
      case AutoSettles(_) => AutoKeeps(w, e);
      case Resume => OnResumeKeeps(w);
      case _ => SmallStepKeeps(w, e);
    }
  }

  lemma {:induction false} RunKeeps(w: Watch, es: seq<Event>, w': Watch)
    requires Inv(w) && Run(w, es, w')
    ensures Inv(w')
    decreases |es|
  {
    if es != [] {
      StepKeeps(w, es[0]);
      RunKeeps(Step(w, es[0]), es[1..], w');
    }
  }

  lemma {:induction false} RunThen(w: Watch, es: seq<Event>, w': Watch, e: Event)
    requires Run(w, es, w') && CanStep(w', e)
    ensures Run(w, es + [e], Step(w', e))
    decreases |es|
  {
    if es == [] {
      assert (es + [e])[1..] == [];
    } else {
      assert (es + [e])[1..] == es[1..] + [e];
      RunThen(Step(w, es[0]), es[1..], w', e);
    }
  }

  lemma {:induction false} RunConcat(w: Watch, es: seq<Event>, v: Watch, more: seq<Event>, w': Watch)
    requires Run(w, es, v) && Run(v, more, w')
    ensures Run(w, es + more, w')
    decreases |es|
  {
    if es == [] {
      assert es + more == more;
    } else {
      assert (es + more)[1..] == es[1..] + more;
      RunConcat(Step(w, es[0]), es[1..], v, more, w');
    }
  }

  lemma NewWatchOk(life: Life, now: int)
    ensures Inv(NewWatch(life, now))
  {
  }

  // ----- main results over every run ------------------------------------------------------------

  /** The number of calls at or after index `i` that lie in (a, a + window]. */
  function InWindow(ts: seq<int>, a: int): nat {
    if ts == [] then 0
    else InWindow(ts[..|ts| - 1], a) + (if a < ts[|ts| - 1] <= a + CRASH_WINDOW then 1 else 0)
  }

  lemma {:induction false} NoneBefore(ts: seq<int>, a: int)
    requires Ascending(ts) && (ts != [] ==> ts[|ts| - 1] <= a)
    ensures InWindow(ts, a) == 0
  {
    if ts != [] {
      var init := ts[..|ts| - 1];
      if init != [] { assert ts[|init| - 1] <= ts[|ts| - 1]; }
      NoneBefore(init, a);
    }
  }

  lemma {:induction false} AtMostLength(ts: seq<int>, a: int)
    ensures InWindow(ts, a) <= |ts|
  {
    if ts != [] { AtMostLength(ts[..|ts| - 1], a); }
  }

  lemma {:induction false} WindowSplit(ts: seq<int>, a: int, i: nat)
    requires i <= |ts|
    ensures InWindow(ts, a) <= InWindow(ts[..i], a) + (|ts| - i)
  {
    if i < |ts| {
      assert ts[..|ts| - 1][..i] == ts[..i];
      WindowSplit(ts[..|ts| - 1], a, i);
    } else {
      assert ts[..i] == ts;
    }
  }

  lemma {:induction false} SpreadBoundsWindow(ts: seq<int>, a: int)
    requires Ascending(ts) && Spread(ts)
    ensures InWindow(ts, a) <= CRASH_MAX
  {
    if |ts| <= CRASH_MAX {
      AtMostLength(ts, a);
    } else {
      var last := ts[|ts| - 1];
      var init := ts[..|ts| - 1];
      if a < last <= a + CRASH_WINDOW {
        var i := |ts| - CRASH_MAX;
        assert ts[i - 1] <= last - CRASH_WINDOW;
        assert ts[..i][i - 1] <= a;
        NoneBefore(ts[..i], a);
        WindowSplit(ts, a, i);
      } else {
        SpreadBoundsWindow(init, a);
      }
    }
  }

  /** Main result: since the last healthy reset, no window of CRASH_WINDOW holds
      more than CRASH_MAX restart calls, wherever it starts. */
  lemma CrashCap(life: Life, now: int, es: seq<Event>, w: Watch, a: int)
    requires Run(NewWatch(life, now), es, w)
    ensures InWindow(w.hist.calls, a) <= CRASH_MAX
  {
    NewWatchOk(life, now);
    RunKeeps(NewWatch(life, now), es, w);
    SpreadBoundsWindow(w.hist.calls, a);
  }

  // ----- the cap over a stretch of short-lived children ------------------------------------------

  /** A death that neither a restart nor a stop explains. */
  predicate Unexpected(w: Watch, e: Event) {
    e.Tick? && e.died && w.target.Some? && !w.life.state.Stopped? && !w.life.state.Starting?
  }

  /** No child that died unexpectedly had been up for long. */
  predicate ShortLived(w: Watch, es: seq<Event>)
    decreases |es|
  {
    es != [] && CanStep(w, es[0]) ==>
      && (Unexpected(w, es[0]) ==> w.now - w.target.value.startedAt < HEALTHY_RESET)
      && ShortLived(Step(w, es[0]), es[1..])
  }

  /** When the restart executor was called, by the steps of the run alone. */
  function CallTimes(w: Watch, es: seq<Event>): seq<int>
    decreases |es|
  {
    if es == [] || !CanStep(w, es[0]) then []
    else
      var v := Step(w, es[0]);
      (if !w.call.Blocked? && v.call.Blocked? then [w.now] else []) + CallTimes(v, es[1..])
  }

  /** Only a death after a long life clears the account. */
  lemma CallsStep(w: Watch, e: Event)
    requires Inv(w) && CanStep(w, e)
    requires Unexpected(w, e) ==> w.now - w.target.value.startedAt < HEALTHY_RESET
    ensures Step(w, e).hist.calls == w.hist.calls + if !w.call.Blocked? && Step(w, e).call.Blocked? then [w.now] else []
  {
    if e.Fire? && w.retryPend { OnFireKeeps(w); }
    assert w.hist.calls + [] == w.hist.calls;
  }

  lemma StretchStep(w: Watch, es: seq<Event>, v: Watch) returns (called: seq<int>)
    requires Inv(w) && es != [] && CanStep(w, es[0]) && ShortLived(w, es) && v == Step(w, es[0])
    ensures Inv(v) && ShortLived(v, es[1..])
    ensures v.hist.calls == w.hist.calls + called && CallTimes(w, es) == called + CallTimes(v, es[1..])
  {
    CallsStep(w, es[0]);
    StepKeeps(w, es[0]);
    called := if !w.call.Blocked? && v.call.Blocked? then [w.now] else [];
  }

  lemma {:induction false} CallsInStretch(w: Watch, es: seq<Event>, w': Watch)
    requires Inv(w) && Run(w, es, w') && ShortLived(w, es)
    ensures w'.hist.calls == w.hist.calls + CallTimes(w, es)
    decreases |es|
  {
    if es == [] {
      assert w.hist.calls + [] == w.hist.calls;
    } else {
      var v := Step(w, es[0]);
      var called := StretchStep(w, es, v);
      CallsInStretch(v, es[1..], w');
      Regroup(w.hist.calls, called, CallTimes(v, es[1..]));
    }
  }

  lemma Regroup(a: seq<int>, b: seq<int>, c: seq<int>)
    ensures a + b + c == a + (b + c)
  {
  }

  lemma {:induction false} FewerInPart(ts: seq<int>, us: seq<int>, a: int)
    ensures InWindow(us, a) <= InWindow(ts + us, a)
  {
    if us != [] {
      assert (ts + us)[..|ts + us| - 1] == ts + us[..|us| - 1];
      FewerInPart(ts, us[..|us| - 1], a);
    }
  }

  /** Main result: over every stretch of a run in which no child that dies unexpectedly
      was up for HEALTHY_RESET, no window holds more than CRASH_MAX restart calls. */
  lemma ShortLivedCap(w: Watch, es: seq<Event>, w': Watch, a: int)
    requires Inv(w) && Run(w, es, w') && ShortLived(w, es)
    ensures InWindow(CallTimes(w, es), a) <= CRASH_MAX
  {
    CallsInStretch(w, es, w');
    RunKeeps(w, es, w');
    SpreadBoundsWindow(w'.hist.calls, a);
    FewerInPart(w.hist.calls, CallTimes(w, es), a);
  }

  lemma {:induction false} InWindowIsAfter(ts: seq<int>, now: int)
    requires forall i :: 0 <= i < |ts| ==> ts[i] <= now
    ensures InWindow(ts, now - CRASH_WINDOW) == |After(ts, now - CRASH_WINDOW)|
  {
    if ts != [] { InWindowIsAfter(ts[..|ts| - 1], now); }
  }

  /** The calls of the last window since the last reset. */
  function Recent(w: Watch): nat {
    InWindow(w.hist.calls, w.now - CRASH_WINDOW)
  }

  lemma RecentIsPruned(w: Watch)
    requires Inv(w)
    ensures |Prune(w).attempts| == Recent(w)
  {
    AfterAfter(w.hist.calls, w.hist.cut, w.now - CRASH_WINDOW);
    InWindowIsAfter(w.hist.calls, w.now);
  }

  /** Main result: what an unexpected death leads to.  After a long life, or with less
      than a full window of calls, it is answered with a retry, in the first case at the
      base backoff; else the watcher gives up.  It is announced when it opens the spell. */
  lemma DeathIsAnswered(w: Watch, code: Option<int>)
    requires Inv(w) && CanStep(w, Tick(true, code)) && Unexpected(w, Tick(true, code))
    ensures var v := Step(w, Tick(true, code));
            var healthy := w.now - w.target.value.startedAt >= HEALTHY_RESET;
            && v.target.None? && v.life.state.Failed?
            && v.life.downSince == (if w.life.downSince.None? then Some(w.now) else w.life.downSince)
            && v.hist.spellAlerts == w.hist.spellAlerts + (if w.life.downSince.None? then 1 else 0)
            && (v.retryPend <==> healthy || Recent(w) < CRASH_MAX)
            && (v.retryPend ==>
                  && v.retryGen == w.target.value.gen && v.hist.capAlerts == w.hist.capAlerts
                  && v.delay == (if healthy then BACKOFF_BASE else w.backoff)
                  && v.life.exitCode == code && !v.life.capped
                  && v.life.attempts == (if healthy then 0 else Recent(w)) + 1)
            && (!v.retryPend ==>
                  && v.hist.capAlerts == w.hist.capAlerts + 1 && v.life.exitCode.None?
                  && v.life.capped && v.life.attempts == Recent(w))
  {
    RecentIsPruned(w);
    var t := w.target.value;
    var v := Announce(Disarm(w), w.life.downSince.Some?);
    assert Prune(v).attempts == Prune(w).attempts;
    ChargeFacts(v, t.gen, code);
    ChargeFacts(HealthyReset(v), t.gen, code);
  }

  lemma ChargeFacts(w: Watch, gen: nat, code: Option<int>)
    requires !w.retryPend
    ensures var v := Charge(w, gen, code);
            && v.target == w.target && v.life.downSince == w.life.downSince && v.life.state.Failed?
            && v.hist.spellAlerts == w.hist.spellAlerts
            && (v.retryPend <==> |Prune(w).attempts| < CRASH_MAX)
            && (v.retryPend ==> v.retryGen == gen && v.hist.capAlerts == w.hist.capAlerts && v.delay == w.backoff
                                && v.life.exitCode == code && !v.life.capped
                                && v.life.attempts == |Prune(w).attempts| + 1)
            && (!v.retryPend ==> v.hist.capAlerts == w.hist.capAlerts + 1 && v.life.exitCode.None?
                                 && v.life.capped && v.life.attempts == |Prune(w).attempts|)
  {
  }

  /** What the return of a call leads to: a retry at the current backoff, or a give-up on
      a full window of calls, when it brought no newer child; else the child that was
      armed is watched. */
  lemma ReturnIsAnswered(w: Watch)
    requires Inv(w) && CanStep(w, Resume)
    ensures var v := Step(w, Resume);
            var fruitless := w.gen == w.call.gen;
            && v.target == (if w.queue != [] then Some(w.queue[0]) else None)
            && (v.retryPend <==> fruitless && Recent(w) < CRASH_MAX)
            && (v.retryPend ==> v.retryGen == w.call.gen && v.delay == w.backoff)
            && v.hist.capAlerts == w.hist.capAlerts + (if fruitless && Recent(w) >= CRASH_MAX then 1 else 0)
  {
    RecentIsPruned(w);
    var w0 := w.(call := NoCall);
    assert Prune(w0).attempts == Prune(w).attempts;
  }

  /** When the watcher gives up: on a full window of calls since the last reset, at an
      unexpected death of a child that was not up for long, or at the return of a call
      that brought no newer child; and at no other time. */
  lemma GivesUpExactly(w: Watch, e: Event)
    requires Inv(w) && CanStep(w, e)
    ensures Step(w, e).hist.capAlerts > w.hist.capAlerts <==>
              && Recent(w) >= CRASH_MAX
              && (|| (Unexpected(w, e) && w.now - w.target.value.startedAt < HEALTHY_RESET)
                  || (e.Resume? && w.gen == w.call.gen))
  {
    match e {
      case Tick(died, code) => if Unexpected(w, e) { DeathIsAnswered(w, code); }
      case Resume => ReturnIsAnswered(w);
      case Fire => FireNeverCaps(w);
      case _ =>
    }
  }

  /** The attempts kept are exactly the calls since the reset that lie after the
      last prune's bound, and right after a prune those in the window. */
  lemma AttemptsAreTheCallsInWindow(life: Life, now: int, es: seq<Event>, w: Watch)
    requires Run(NewWatch(life, now), es, w)
    ensures w.attempts == After(w.hist.calls, w.hist.cut)
    ensures Prune(w).attempts == After(w.hist.calls, w.now - CRASH_WINDOW)
    ensures w.retryPend ==> |w.attempts| < CRASH_MAX && w.target.None?
    ensures w.backoff == BackoffAfter(w.hist.rounds)
    ensures w.retryPend ==> w.hist.rounds > 0 && w.delay == BackoffAfter(w.hist.rounds - 1)
  {
    NewWatchOk(life, now);
    RunKeeps(NewWatch(life, now), es, w);
    AfterAfter(w.hist.calls, w.hist.cut, w.now - CRASH_WINDOW);
  }

  /** A pending retry always leads to a restart call when its token is taken: the
      cap check at that point never gives up. */
  lemma FireNeverGivesUp(life: Life, now: int, es: seq<Event>, w: Watch)
    requires Run(NewWatch(life, now), es, w) && CanStep(w, Fire)
    ensures w.retryPend ==> OnFire(w).hist.called == w.hist.called + 1
    ensures OnFire(w).hist.capAlerts == w.hist.capAlerts
  {
    NewWatchOk(life, now);
    RunKeeps(NewWatch(life, now), es, w);
    if w.retryPend { PruneKeepsAccount(w); }
  }

  /** Each restart call uses up one schedule: what was scheduled was called,
      cancelled by a newer child, or is still pending. */
  lemma SchedulesBalance(life: Life, now: int, es: seq<Event>, w: Watch)
    requires Run(NewWatch(life, now), es, w)
    ensures w.hist.schedules == w.hist.called + w.hist.cancelled + (if w.retryPend then 1 else 0)
  {
    NewWatchOk(life, now);
    RunKeeps(NewWatch(life, now), es, w);
  }

  /** Restart race: the watcher spawns at most one retained replacement for a
      generation, and none once a newer child has been armed. */
  lemma OneReplacementPerGeneration(life: Life, now: int, es: seq<Event>, w: Watch)
    requires Run(NewWatch(life, now), es, w)
    ensures forall i, j :: 0 <= i < j < |w.hist.spawnedFor| ==> w.hist.spawnedFor[i] != w.hist.spawnedFor[j]
    ensures CanStep(w, AutoSpawns(true)) ==> w.call.gen == w.gen && w.gen !in w.hist.spawnedFor
    ensures forall at :: CanStep(w, AutoEnds(at)) && w.call.child ==> OnAutoEnds(w, at).gen == w.call.gen + 1
  {
    NewWatchOk(life, now);
    RunKeeps(NewWatch(life, now), es, w);
  }

  /** At most one "down" alert per down spell. */
  lemma OneAlertPerSpell(life: Life, now: int, es: seq<Event>, w: Watch)
    requires Run(NewWatch(life, now), es, w)
    ensures w.hist.spellAlerts <= 1
    ensures forall died, code :: CanStep(w, Tick(died, code)) ==>
              var w' := OnTick(w, died, code);
              w'.hist.spellAlerts > w.hist.spellAlerts ==> w.life.downSince.None? && w'.life.downSince == Some(w.now)
  {
    NewWatchOk(life, now);
    RunKeeps(NewWatch(life, now), es, w);
  }

  /** A down spell begins exactly with a death that is seen, and ends exactly with a
      restart that succeeds, the only one that shows ready; one that fails shows it. */
  lemma SpellsAreExact(w: Watch, e: Event)
    requires Inv(w) && CanStep(w, e)
    ensures var v := Step(w, e);
            var settles := e.UserSettles? || e.AutoSettles?;
            && (w.life.downSince.None? && v.life.downSince.Some? <==>
                  w.life.downSince.None? && e.Tick? && e.died && w.target.Some?)
            && (w.life.downSince.Some? && v.life.downSince.None? <==> w.life.downSince.Some? && settles && e.ok)
            && (!w.life.state.Ready? && v.life.state.Ready? <==> !w.life.state.Ready? && settles && e.ok)
            && (settles && !e.ok ==> v.life.state.Failed? && v.life.exitCode.None?)
  {
    match e {
      case Tick(died, code) => TickSpell(w, died, code);
      case Fire => if w.retryPend { PruneKeepsAccount(w); }
      case _ =>
    }
  }

  lemma TickSpell(w: Watch, died: bool, code: Option<int>)
    requires !w.retryPend || w.target.None?
    ensures var v := OnTick(w, died, code);
            && v.life.downSince == (if w.life.downSince.None? && died && w.target.Some? then Some(w.now) else w.life.downSince)
            && (v.life.state.Ready? ==> w.life.state.Ready?)
  {
    if w.target.Some? && died {
      var v := Announce(Disarm(w), w.life.downSince.Some?);
      ChargeFacts(v, w.target.value.gen, code);
      ChargeFacts(HealthyReset(v), w.target.value.gen, code);
    }
  }

  /** Nothing to watch and nothing pending: after a give-up, or once cancelled. */
  ghost predicate Quiet(w: Watch) {
    w.stopped || (w.target.None? && !w.retryPend && w.call.NoCall? && w.queue == [])
  }

  predicate Arms(e: Event) {
    e.BootArm? || (e.UserEnds? && e.child)
  }

  lemma GiveUpIsQuiet(w: Watch, e: Event)
    requires Inv(w) && CanStep(w, e) && Step(w, e).hist.capAlerts > w.hist.capAlerts
    ensures Quiet(Step(w, e)) <==> Step(w, e).queue == []
  {
    if e.Fire? {
      OnFireKeeps(w);
      FireNeverCaps(w);
    }
    StepKeeps(w, e);
  }

  lemma FireNeverCaps(w: Watch)
    requires Inv(w)
    ensures OnFire(w).hist.capAlerts == w.hist.capAlerts
  {
    if w.retryPend { PruneKeepsAccount(w); }
  }

  /** After a give-up no restart is called until a new child is armed; after the
      cancellation was taken, never. */
  lemma {:induction false} QuietUntilArmed(w: Watch, es: seq<Event>, w': Watch)
    requires Inv(w) && Quiet(w) && Run(w, es, w')
    requires w.stopped || forall k :: 0 <= k < |es| ==> !Arms(es[k])
    ensures w'.hist.called == w.hist.called
    decreases |es|
  {
    if es != [] {
      var v := Step(w, es[0]);
      StepKeeps(w, es[0]);
      if !w.stopped {
        assert !Arms(es[0]);
        forall k | 0 <= k < |es[1..]| ensures !Arms(es[1..][k]) { assert es[1..][k] == es[k + 1]; }
      }
      QuietUntilArmed(v, es[1..], w');
    }
  }

  // ----- the newest child ---------------------------------------------------------------

  /** The generation that is watched once the queue is drained. */
  function Latest(w: Watch): nat {
    if w.queue != [] then w.queue[|w.queue| - 1].gen else w.hist.taken
  }

  ghost predicate QueueOk(w: Watch) {
    && |w.queue| <= QUEUE_CAP && w.hist.dropped <= w.gen
    && (if w.gen > 0 && w.hist.dropped == w.gen then Latest(w) < w.gen else Latest(w) == w.gen)
  }

  lemma TakeKeepsQueue(w: Watch)
    requires QueueOk(w) && w.queue != []
    ensures QueueOk(Take(w))
  {
  }

  lemma ArmKeepsQueue(w: Watch, at: int)
    requires Inv(w) && QueueOk(w)
    ensures QueueOk(Arm(w, at))
  {
  }

  /** What a step does not touch is what it keeps. */
  lemma SameQueueKeeps(w: Watch, w': Watch)
    requires QueueOk(w) && w'.queue == w.queue && w'.gen == w.gen
    requires w'.hist.taken == w.hist.taken && w'.hist.dropped == w.hist.dropped
    ensures QueueOk(w')
  {
  }

  lemma AutoEndsKeepsQueue(w: Watch, at: int)
    requires Inv(w) && QueueOk(w) && CanStep(w, AutoEnds(at))
    ensures QueueOk(OnAutoEnds(w, at))
  {
    ArmKeepsQueue(w, at);
  }

  lemma ResumeKeepsQueue(w: Watch)
    requires QueueOk(w) && CanStep(w, Resume)
    ensures QueueOk(OnResume(w))
  {
    var w0 := w.(call := NoCall);
    if w0.queue != [] { TakeKeepsQueue(w0); }
    SameQueueKeeps(if w0.queue != [] then Take(w0) else w0, OnResume(w));
  }

  lemma TickKeepsQueue(w: Watch, died: bool, code: Option<int>)
    requires QueueOk(w) && CanStep(w, Tick(died, code))
    ensures QueueOk(OnTick(w, died, code))
  {
    SameQueueKeeps(w, OnTick(w, died, code));
  }

  lemma FireKeepsQueue(w: Watch)
    requires QueueOk(w) && CanStep(w, Fire)
    ensures QueueOk(OnFire(w))
  {
    SameQueueKeeps(w, OnFire(w));
  }

  lemma QueueStepKeeps(w: Watch, e: Event)
    requires Inv(w) && QueueOk(w) && CanStep(w, e)
    ensures QueueOk(Step(w, e))
  {
    match e {
      case TakeArm => TakeKeepsQueue(StopTimer(w));
      case BootArm(at) => ArmKeepsQueue(w, at);
      case UserEnds(_, at) => ArmKeepsQueue(w, at);
      case AutoEnds(at) => AutoEndsKeepsQueue(w, at);
      case Resume => ResumeKeepsQueue(w);
      case Tick(died, code) => TickKeepsQueue(w, died, code);
      case Fire => FireKeepsQueue(w);
      case _ => SmallStepKeepsQueue(w, e);
    }
  }

  lemma SmallStepKeepsQueue(w: Watch, e: Event)
    requires QueueOk(w) && CanStep(w, e)
    requires || e.Advance? || e.TimerFires? || e.UserBegins? || e.UserSettles? || e.DeliberateStop? || e.Cancel?
             || e.AutoChecks? || e.AutoStarts? || e.AutoSpawns? || e.AutoSettles?
    ensures QueueOk(Step(w, e))
  {
  }

  lemma {:induction false} QueueRunKeeps(w: Watch, es: seq<Event>, w': Watch)
    requires Inv(w) && QueueOk(w) && Run(w, es, w')
    ensures QueueOk(w')
    decreases |es|
  {
    if es != [] {
      StepKeeps(w, es[0]);
      QueueStepKeeps(w, es[0]);
      QueueRunKeeps(Step(w, es[0]), es[1..], w');
    }
  }

  /** The loop gets to watch the newest child exactly when the full queue did not
      drop that child's arm; and then nothing in the queue or taken is newer. */
  lemma NewestIsWatched(life: Life, now: int, es: seq<Event>, w: Watch)
    requires Run(NewWatch(life, now), es, w) && w.gen > 0
    ensures Latest(w) == w.gen <==> w.hist.dropped != w.gen
    ensures Latest(w) <= w.gen && |w.queue| <= QUEUE_CAP
  {
    NewWatchOk(life, now);
    QueueRunKeeps(NewWatch(life, now), es, w);
  }
}

/**
 The two-role flock(2) protocol around the detached `opencode serve`, as a
 transition system over any number of vh-solara processes.

 Each event is one system call (or one check) of a starter, or one step of its
 environment: a process is killed or exits, a daemon re-executes itself in place, a
 process forks and its child inherits open descriptions, a child closes its fd 3, a foreign program takes a
 pid or a port, or the state file is lost or set back to an older record.  A
 starter can be killed or replaced between any two of its events.
*/
module OwnerLock {
  import opened Wrappers

  // ----- processes ---------------------------------------------------------

  /** A process incarnation never changes its index; its pid may be recycled
      once the incarnation is Gone.  A Zombie still pins its pid. */
  datatype Status = Live | Zombie | Gone

  /** Daemon: a vh-solara process.  Serve: a spawned `opencode serve`, with its
      port and the description it got as fd 3.  Other: anything else. */
  datatype Kind = Daemon | Serve(port: int, slot: nat) | Other

  /** `claims`: the ports N for which the command line of the process reads as
      `opencode ... --port N`.  `fd3`: the descriptor is still open.
      `vetted` and `portOwned` record that the retention check and the
      owned-port check succeeded for this child. */
  datatype Proc = Proc(pid: int, parent: nat, kind: Kind, claims: set<int>,
                       status: Status, listens: set<int>, fd3: bool,
                       vetted: bool, portOwned: bool)

  // ----- open file descriptions ---------------------------------------------

  datatype LockFile = SpawnLock | OwnerLock

  /** An open file description: the lock belongs to it, not to a process.
      `refs` are the processes with a descriptor for it; `opener` opened it when
      there were `born` processes.  `stranded`: the opener re-executed itself since,
      and still has the descriptor without knowing of it. */
  datatype Ofd = Ofd(file: LockFile, cloexec: bool, locked: bool, refs: set<nat>, born: nat, opener: nat,
                     stranded: bool)

  // ----- one starter's transaction -------------------------------------------

  /** What one daemon's guard object and its locals say: the descriptors it has
      open, whether its last probe saw the owner lock free, the child of this
      transaction and the checks it passed, the child it has retained, and the
      records this daemon has written to the state file. */
  datatype Thread = Thread(starter: Option<nat>, probe: Option<nat>, owner: Option<nat>,
                           sawFree: bool, child: Option<nat>, checked: bool, ready: bool,
                           retained: Option<nat>, writes: seq<Rec>)

  const NO_TRANSACTION := Thread(None, None, None, false, None, false, false, None, [])

  // ----- state file, publications, signals -----------------------------------

  /** The file holds pid and port; `inc` says whom the writer meant. */
  datatype Rec = Rec(pid: int, port: int, inc: nat)
  datatype Publication = Publication(writer: nat, rec: Rec)

  /** A SIGTERM.  `recorded` is the record that named the pid, None when the
      sender signalled its own retained child.  `reaped` says whether the
      recorded incarnation was already Gone. */
  datatype Signal = Signal(sender: nat, target: nat, recorded: Option<Rec>, reaped: bool)

  datatype World = World(procs: seq<Proc>, ofds: seq<Ofd>, threads: seq<Thread>,
                         file: Option<Rec>, log: seq<Publication>, signals: seq<Signal>)

  const INIT := World([], [], [], None, [], [])

  datatype Event =
    // a starter's system calls and checks
    | OpenStarter(d: nat)
    | LockStarter(d: nat)
    | UnlockStarter(d: nat)
    | CloseStarter(d: nat, keep: bool)
    | OpenProbe(d: nat)
    | LockProbe(d: nat)
    | UnlockProbe(d: nat)
    | CloseProbe(d: nat)
    | OpenOwner(d: nat)
    | LockOwner(d: nat)
    | Spawn(d: nat, pid: int, port: int, claims: set<int>)
    | CheckRetained(d: nat)
    | CloseOwner(d: nat)
    | CheckPort(d: nat)
    | Publish(d: nat)
    | SignalRecorded(d: nat, target: nat)
    | SignalOwn(d: nat, target: nat)
    // the environment
    | Boot(pid: int)
    | Foreign(pid: int, claims: set<int>)
    | Fork(p: nat, pid: int, claims: set<int>)
    | Exit(p: nat)
    | Reexec(d: nat)
    | Reap(p: nat)
    | CloseFd3(p: nat, last: bool)
    | CloseInherited(p: nat, o: nat)
    | Bind(p: nat, port: int)
    | Unbind(p: nat, port: int)
    | LoseFile
    | RevertFile(k: nat)

  // ----- helpers ---------------------------------------------------------------

  predicate IsLive(w: World, p: nat) {
    p < |w.procs| && w.procs[p].status.Live?
  }

  predicate IsServe(w: World, p: nat) {
    p < |w.procs| && w.procs[p].kind.Serve?
  }

  predicate LiveDaemon(w: World, d: nat) {
    d < |w.threads| && IsLive(w, d) && w.procs[d].kind.Daemon?
  }

  /** flock(LOCK_EX | LOCK_NB) on a description of `file` would be granted. */
  predicate Free(w: World, file: LockFile) {
    forall o :: 0 <= o < |w.ofds| && w.ofds[o].locked ==> w.ofds[o].file != file
  }

  predicate FreshPid(w: World, pid: int) {
    pid > 0 && forall p :: 0 <= p < |w.procs| && w.procs[p].pid == pid ==> w.procs[p].status.Gone?
  }

  predicate PortTaken(w: World, port: int) {
    exists p :: 0 <= p < |w.procs| && port in w.procs[p].listens
  }

  predicate Holds(w: World, d: nat) {
    && d < |w.threads|
    && w.threads[d].starter.Some?
    && w.threads[d].starter.value < |w.ofds|
    && w.ofds[w.threads[d].starter.value].locked
  }

  function SetT(w: World, d: nat, t: Thread): World
    requires d < |w.threads|
  {
    w.(threads := w.threads[d := t])
  }

  function SetO(w: World, o: nat, x: Ofd): World
    requires o < |w.ofds|
  {
    w.(ofds := w.ofds[o := x])
  }

  function SetP(w: World, p: nat, x: Proc): World
    requires p < |w.procs|
  {
    w.(procs := w.procs[p := x])
  }

  /** close(2): the lock goes with the last reference. */
  function Drop(x: Ofd, p: nat): (r: Ofd)
    ensures forall q :: q in x.refs && q != p ==> q in r.refs && r.locked == x.locked
  {
    x.(refs := x.refs - {p}, locked := x.locked && x.refs - {p} != {})
  }

  function DropAll(ofds: seq<Ofd>, p: nat): (r: seq<Ofd>)
    ensures |r| == |ofds|
    ensures forall o :: 0 <= o < |ofds| ==> r[o] == Drop(ofds[o], p)
  {
    seq(|ofds|, o requires 0 <= o < |ofds| => Drop(ofds[o], p))
  }

  /** exec in place: the process loses its descriptors with O_CLOEXEC, and forgets the
      others. */
  function Replaced(ofds: seq<Ofd>, d: nat): (r: seq<Ofd>)
    ensures |r| == |ofds|
    ensures forall o :: 0 <= o < |ofds| ==>
              r[o] == if d !in ofds[o].refs then ofds[o]
                      else if ofds[o].cloexec then Drop(ofds[o], d) else ofds[o].(stranded := true)
  {
    seq(|ofds|, o requires 0 <= o < |ofds| =>
      if d !in ofds[o].refs then ofds[o]
      else if ofds[o].cloexec then Drop(ofds[o], d) else ofds[o].(stranded := true))
  }

  /** fork and exec: the new process keeps the descriptors without O_CLOEXEC. */
  function Inherit(ofds: seq<Ofd>, p: nat, c: nat): (r: seq<Ofd>)
    ensures |r| == |ofds|
    ensures forall o :: 0 <= o < |ofds| ==>
              r[o] == if p in ofds[o].refs && !ofds[o].cloexec then ofds[o].(refs := ofds[o].refs + {c}) else ofds[o]
  {
    seq(|ofds|, o requires 0 <= o < |ofds| =>
      if p in ofds[o].refs && !ofds[o].cloexec then ofds[o].(refs := ofds[o].refs + {c}) else ofds[o])
  }

  function NewProc(w: World, x: Proc): World {
    w.(procs := w.procs + [x], threads := w.threads + [NO_TRANSACTION])
  }

  function Open(w: World, d: nat, file: LockFile, cloexec: bool, t: Thread): World
    requires d < |w.threads|
  {
    w.(ofds := w.ofds + [Ofd(file, cloexec, false, {d}, |w.procs|, d, false)], threads := w.threads[d := t])
  }

  // ----- the starter's events ------------------------------------------------------

  /** The daemon whose code performs the event. */
  function Actor(e: Event): Option<nat> {
    match e
    case OpenStarter(d) => Some(d)
    case LockStarter(d) => Some(d)
    case UnlockStarter(d) => Some(d)
    case CloseStarter(d, _) => Some(d)
    case OpenProbe(d) => Some(d)
    case LockProbe(d) => Some(d)
    case UnlockProbe(d) => Some(d)
    case CloseProbe(d) => Some(d)
    case OpenOwner(d) => Some(d)
    case LockOwner(d) => Some(d)
    case Spawn(d, _, _, _) => Some(d)
    case CheckRetained(d) => Some(d)
    case CloseOwner(d) => Some(d)
    case CheckPort(d) => Some(d)
    case Publish(d) => Some(d)
    case SignalRecorded(d, _) => Some(d)
    case SignalOwn(d, _) => Some(d)
    case _ => None
  }

  /** Where in its transaction a starter may perform the event, and whether the
      kernel then grants it. */
  predicate Enabled(w: World, e: Event) {
    match e
    case OpenStarter(d) =>
      LiveDaemon(w, d) && w.threads[d].starter.None?
    case LockStarter(d) =>
      && LiveDaemon(w, d) && w.threads[d].starter.Some? && w.threads[d].starter.value < |w.ofds|
      && !Holds(w, d) && Free(w, SpawnLock)
    case UnlockStarter(d) =>
      LiveDaemon(w, d) && Holds(w, d) && w.threads[d].probe.None? && w.threads[d].owner.None?
    case CloseStarter(d, keep) =>
      && LiveDaemon(w, d) && w.threads[d].starter.Some? && w.threads[d].starter.value < |w.ofds|
      && !Holds(w, d) && w.threads[d].probe.None? && w.threads[d].owner.None?
    case OpenProbe(d) =>
      && LiveDaemon(w, d) && Holds(w, d)
      && w.threads[d].probe.None? && w.threads[d].owner.None? && w.threads[d].child.None?
    case LockProbe(d) =>
      && LiveDaemon(w, d) && w.threads[d].probe.Some? && w.threads[d].probe.value < |w.ofds|
      && !w.ofds[w.threads[d].probe.value].locked && Free(w, OwnerLock)
    case UnlockProbe(d) =>
      && LiveDaemon(w, d) && w.threads[d].probe.Some? && w.threads[d].probe.value < |w.ofds|
      && w.ofds[w.threads[d].probe.value].locked
    case CloseProbe(d) =>
      LiveDaemon(w, d) && w.threads[d].probe.Some? && w.threads[d].probe.value < |w.ofds|
    case OpenOwner(d) =>
      && LiveDaemon(w, d) && Holds(w, d) && w.threads[d].sawFree
      && w.threads[d].probe.None? && w.threads[d].owner.None? && w.threads[d].child.None?
    case LockOwner(d) =>
      && LiveDaemon(w, d) && w.threads[d].owner.Some? && w.threads[d].owner.value < |w.ofds|
      && !w.ofds[w.threads[d].owner.value].locked && Free(w, OwnerLock)
    case Spawn(d, pid, port, claims) =>
      && LiveDaemon(w, d) && w.threads[d].owner.Some? && w.threads[d].owner.value < |w.ofds|
      && w.ofds[w.threads[d].owner.value].locked && w.threads[d].child.None?
      && FreshPid(w, pid) && port > 0 && port in claims
    case CheckRetained(d) =>
      && LiveDaemon(w, d) && w.threads[d].owner.Some? && w.threads[d].child.Some?
      && IsLive(w, w.threads[d].child.value) && w.procs[w.threads[d].child.value].fd3
    case CloseOwner(d) =>
      && LiveDaemon(w, d) && w.threads[d].owner.Some? && w.threads[d].owner.value < |w.ofds|
      && (w.threads[d].child.Some? ==>
            || w.threads[d].checked
            || (w.threads[d].child.value < |w.procs| && w.procs[w.threads[d].child.value].status.Gone?))
    case CheckPort(d) =>
      && LiveDaemon(w, d) && w.threads[d].owner.None? && w.threads[d].child.Some? && w.threads[d].checked
      && IsServe(w, w.threads[d].child.value)
      && w.procs[w.threads[d].child.value].kind.port in w.procs[w.threads[d].child.value].listens
    case Publish(d) =>
      && LiveDaemon(w, d) && Holds(w, d) && w.threads[d].owner.None?
      && w.threads[d].child.Some? && w.threads[d].ready && IsServe(w, w.threads[d].child.value)
    case SignalRecorded(d, target) =>
      && LiveDaemon(w, d) && Holds(w, d) && w.threads[d].child.None? && w.file.Some?
      && IsLive(w, target) && w.procs[target].pid == w.file.value.pid && w.file.value.port in w.procs[target].claims
      && w.file.value.inc < |w.procs|
    case SignalOwn(d, target) =>
      && LiveDaemon(w, d) && Holds(w, d) && w.threads[d].child.None?
      && w.threads[d].retained.Some? && w.threads[d].retained.value < |w.procs|
      && target < |w.procs| && !w.procs[target].status.Gone?
      && w.procs[target].pid == w.procs[w.threads[d].retained.value].pid
    case Boot(pid) => FreshPid(w, pid)
    case Foreign(pid, claims) => FreshPid(w, pid)
    case Fork(p, pid, claims) => IsLive(w, p) && FreshPid(w, pid)
    case Exit(p) => IsLive(w, p)
    case Reexec(d) => LiveDaemon(w, d)
    case Reap(p) =>
      // wait(2) by the parent, or by init when the parent is gone.  A live
      // daemon waits for a child only when that child failed the retention check.
      && p < |w.procs| && w.procs[p].status.Zombie?
      && (LiveDaemon(w, w.procs[p].parent) ==>
            && w.threads[w.procs[p].parent].child == Some(p)
            && w.threads[w.procs[p].parent].owner.Some?
            && !w.threads[w.procs[p].parent].checked)
    case CloseFd3(p, last) =>
      IsLive(w, p) && IsServe(w, p) && w.procs[p].kind.slot < |w.ofds| && p in w.ofds[w.procs[p].kind.slot].refs
    case CloseInherited(p, o) =>
      IsLive(w, p) && w.procs[p].kind.Other? && o < |w.ofds| && p in w.ofds[o].refs
    case Bind(p, port) => IsLive(w, p) && !PortTaken(w, port)
    case Unbind(p, port) => IsLive(w, p)
    case LoseFile => true
    case RevertFile(k) => k < |w.log|
  }

  function Next(w: World, e: Event): World
    requires Enabled(w, e)
  {
    match e
    case OpenStarter(d) =>
      Open(w, d, SpawnLock, true, w.threads[d].(starter := Some(|w.ofds|)))
    case LockStarter(d) =>
      var o := w.threads[d].starter.value;
      SetO(w, o, w.ofds[o].(locked := true))
    case UnlockStarter(d) =>
      var o := w.threads[d].starter.value;
      SetT(SetO(w, o, w.ofds[o].(locked := false)), d, w.threads[d].(sawFree := false))
    case CloseStarter(d, keep) =>
      var o := w.threads[d].starter.value;
      var t := w.threads[d];
      SetT(SetO(w, o, Drop(w.ofds[o], d)), d,
           NO_TRANSACTION.(retained := if keep && t.child.Some? then t.child else t.retained, writes := t.writes))
    case OpenProbe(d) =>
      Open(w, d, OwnerLock, true, w.threads[d].(probe := Some(|w.ofds|), sawFree := false))
    case LockProbe(d) =>
      var o := w.threads[d].probe.value;
      SetT(SetO(w, o, w.ofds[o].(locked := true)), d, w.threads[d].(sawFree := true))
    case UnlockProbe(d) =>
      var o := w.threads[d].probe.value;
      SetO(w, o, w.ofds[o].(locked := false))
    case CloseProbe(d) =>
      var o := w.threads[d].probe.value;
      SetT(SetO(w, o, Drop(w.ofds[o], d)), d, w.threads[d].(probe := None))
    case OpenOwner(d) =>
      Open(w, d, OwnerLock, false, w.threads[d].(owner := Some(|w.ofds|)))
    case LockOwner(d) =>
      var o := w.threads[d].owner.value;
      SetO(w, o, w.ofds[o].(locked := true))
    case Spawn(d, pid, port, claims) =>
      var o := w.threads[d].owner.value;
      var c := |w.procs|;
      var w1 := SetT(SetO(w, o, w.ofds[o].(refs := w.ofds[o].refs + {c})), d, w.threads[d].(child := Some(c)));
      NewProc(w1, Proc(pid, d, Serve(port, o), claims, Live, {}, true, false, false))
    case CheckRetained(d) =>
      var c := w.threads[d].child.value;
      SetT(SetP(w, c, w.procs[c].(vetted := true)), d, w.threads[d].(checked := true))
    case CloseOwner(d) =>
      var o := w.threads[d].owner.value;
      var t := w.threads[d];
      SetT(SetO(w, o, Drop(w.ofds[o], d)), d,
           t.(owner := None, sawFree := false, child := if t.checked then t.child else None))
    case CheckPort(d) =>
      var c := w.threads[d].child.value;
      SetT(SetP(w, c, w.procs[c].(portOwned := true)), d, w.threads[d].(ready := true))
    case Publish(d) =>
      var c := w.threads[d].child.value;
      var r := Rec(w.procs[c].pid, w.procs[c].kind.port, c);
      SetT(w.(file := Some(r), log := w.log + [Publication(d, r)]), d,
           w.threads[d].(writes := w.threads[d].writes + [r]))
    case SignalRecorded(d, target) =>
      w.(signals := w.signals + [Signal(d, target, w.file, w.procs[w.file.value.inc].status.Gone?)])
    case SignalOwn(d, target) =>
      w.(signals := w.signals + [Signal(d, target, None, false)])
    case Boot(pid) =>
      NewProc(w, Proc(pid, |w.procs|, Daemon, {}, Live, {}, false, false, false))
    case Foreign(pid, claims) =>
      NewProc(w, Proc(pid, |w.procs|, Other, claims, Live, {}, false, false, false))
    case Fork(p, pid, claims) =>
      NewProc(w.(ofds := Inherit(w.ofds, p, |w.procs|)), Proc(pid, p, Other, claims, Live, {}, false, false, false))
    case Exit(p) =>
      var w1 := SetP(w, p, w.procs[p].(status := Zombie, listens := {})).(ofds := DropAll(w.ofds, p));
      if p < |w1.threads| then SetT(w1, p, NO_TRANSACTION) else w1
    case Reexec(d) =>
      SetT(w.(ofds := Replaced(w.ofds, d)), d, NO_TRANSACTION.(writes := w.threads[d].writes))
    case Reap(p) =>
      SetP(w, p, w.procs[p].(status := Gone))
    case CloseFd3(p, last) =>
      var o := w.procs[p].kind.slot;
      var w1 := SetP(w, p, w.procs[p].(fd3 := false));
      if last then SetO(w1, o, Drop(w.ofds[o], p)) else w1
    case CloseInherited(p, o) =>
      SetO(w, o, Drop(w.ofds[o], p))
    case Bind(p, port) =>
      SetP(w, p, w.procs[p].(listens := w.procs[p].listens + {port}))
    case Unbind(p, port) =>
      SetP(w, p, w.procs[p].(listens := w.procs[p].listens - {port}))
    case LoseFile => w.(file := None)
    case RevertFile(k) => w.(file := Some(w.log[k].rec))
  }

  /** `w'` is reached from `w` by performing `es` in order. */
  predicate Run(w: World, es: seq<Event>, w': World)
    decreases |es|
  {
    if es == [] then w == w' else Enabled(w, es[0]) && Run(Next(w, es[0]), es[1..], w')
  }
}

/** The inductive invariant of the owner-lock protocol. */
module OwnerLockInv {
  import opened Wrappers
  import opened OwnerLock

  // ----- the invariant ---------------------------------------------------------

  ghost predicate PidsUnique(w: World) {
    forall i, j :: 0 <= i < j < |w.procs| && w.procs[i].pid == w.procs[j].pid ==>
                     w.procs[i].status.Gone? || w.procs[j].status.Gone?
  }

  /** The kernel's rule: one locked description per lock file. */
  ghost predicate LocksExclusive(w: World) {
    forall i, j :: 0 <= i < j < |w.ofds| && w.ofds[i].locked && w.ofds[j].locked ==>
                     w.ofds[i].file != w.ofds[j].file
  }

  /** No description is handed to two children. */
  ghost predicate SlotsUnique(w: World) {
    forall i, j :: 0 <= i < j < |w.procs| && w.procs[i].kind.Serve? && w.procs[j].kind.Serve? ==>
                     w.procs[i].kind.slot != w.procs[j].kind.slot
  }

  ghost predicate RefOk(w: World, o: nat, p: nat)
    requires o < |w.ofds|
  {
    && IsLive(w, p) && p < |w.threads|
    && (w.procs[p].kind.Daemon? ==>
          || w.threads[p].starter == Some(o) || w.threads[p].probe == Some(o) || w.threads[p].owner == Some(o)
          || (w.ofds[o].stranded && w.ofds[o].opener == p))
    && (w.procs[p].kind.Serve? ==> w.procs[p].kind.slot == o)
    && (w.ofds[o].cloexec ==> w.procs[p].kind.Daemon?)
    && (!w.procs[p].kind.Daemon? ==> w.ofds[o].born <= p)
  }

  ghost predicate OfdOk(w: World, o: nat)
    requires o < |w.ofds|
  {
    var x := w.ofds[o];
    && (x.locked ==> x.refs != {})
    && x.born <= |w.procs|
    && (x.file.SpawnLock? ==> x.cloexec) && (x.stranded ==> !x.cloexec)
    && (forall p :: p in x.refs ==> RefOk(w, o, p))
  }

  /** A live child that still has its fd 3 is covered by a locked description. */
  ghost predicate ProcOk(w: World, p: nat)
    requires p < |w.procs|
  {
    var x := w.procs[p];
    && x.pid > 0 && x.parent < |w.procs|
    && (x.kind.Serve? ==>
          && x.kind.slot < |w.ofds| && w.ofds[x.kind.slot].file.OwnerLock? && !w.ofds[x.kind.slot].cloexec
          && x.kind.port > 0 && x.kind.port in x.claims
          && (x.status.Live? && x.fd3 ==> w.ofds[x.kind.slot].locked && p in w.ofds[x.kind.slot].refs))
  }

  /** The starter's own descriptors: nobody else has them. */
  ghost predicate DescriptorsOk(w: World, d: nat)
    requires d < |w.threads|
  {
    var t := w.threads[d];
    && (t.starter.Some? ==>
          && t.starter.value < |w.ofds| && w.ofds[t.starter.value].file.SpawnLock?
          && w.ofds[t.starter.value].refs == {d} && LiveDaemon(w, d))
    && (t.probe.Some? ==>
          && t.probe.value < |w.ofds| && w.ofds[t.probe.value].file.OwnerLock? && w.ofds[t.probe.value].cloexec
          && w.ofds[t.probe.value].refs == {d} && t.owner.None? && t.child.None?)
    && (t.owner.Some? ==>
          && t.owner.value < |w.ofds| && w.ofds[t.owner.value].file.OwnerLock? && !w.ofds[t.owner.value].cloexec
          && d in w.ofds[t.owner.value].refs && t.sawFree
          && w.ofds[t.owner.value].opener == d && !w.ofds[t.owner.value].stranded)
    && (t.probe.Some? || t.owner.Some? || t.sawFree ==> Holds(w, d))
  }

  /** After a free probe, the only locked description of the owner file is the starter's own. */
  ghost predicate SawFreeOk(w: World, d: nat)
    requires d < |w.threads|
  {
    var t := w.threads[d];
    t.sawFree ==>
      forall o: nat :: o < |w.ofds| && w.ofds[o].locked && w.ofds[o].file.OwnerLock? ==>
                         t.probe == Some(o) || t.owner == Some(o)
  }

  ghost predicate ChildOk(w: World, d: nat, c: nat) {
    IsServe(w, c) && w.procs[c].parent == d
  }

  ghost predicate ChildrenOk(w: World, d: nat)
    requires d < |w.threads|
  {
    var t := w.threads[d];
    && (t.starter.None? ==> t.probe.None? && t.owner.None? && !t.sawFree && t.child.None?)
    && (t.checked ==> t.child.Some?)
    && (t.ready ==> t.checked && t.owner.None?)
    && (t.child.Some? ==>
          && ChildOk(w, d, t.child.value)
          && LiveDaemon(w, d)
          && (t.checked ==> !w.procs[t.child.value].status.Gone? && w.procs[t.child.value].vetted)
          && (t.ready ==> w.procs[t.child.value].portOwned)
          && (t.owner.Some? ==> w.procs[t.child.value].kind.slot == t.owner.value)
          && (t.owner.None? ==> t.checked))
    && (t.owner.Some? && t.child.None? ==>
          forall p :: 0 <= p < |w.procs| && w.procs[p].kind.Serve? ==> w.procs[p].kind.slot != t.owner.value)
    && (t.retained.Some? ==>
          && ChildOk(w, d, t.retained.value)
          && LiveDaemon(w, d)
          && t.child != t.retained
          && !w.procs[t.retained.value].status.Gone?)
  }

  ghost predicate RecOk(w: World, r: Rec) {
    && IsServe(w, r.inc) && w.procs[r.inc].pid == r.pid && w.procs[r.inc].kind.port == r.port
    && w.procs[r.inc].vetted && w.procs[r.inc].portOwned
  }

  ghost predicate SignalOk(w: World, s: Signal) {
    && s.target < |w.procs|
    && match s.recorded {
         case None => ChildOk(w, s.sender, s.target)
         case Some(r) =>
           && RecOk(w, r)
           && w.procs[s.target].pid == r.pid && r.port in w.procs[s.target].claims
           && (s.target == r.inc <==> !s.reaped)
       }
  }

  ghost predicate HistoryOk(w: World) {
    && (forall k :: 0 <= k < |w.log| ==> RecOk(w, w.log[k].rec))
    && (w.file.Some? ==> RecOk(w, w.file.value))
    && (forall k :: 0 <= k < |w.signals| ==> SignalOk(w, w.signals[k]))
  }

  ghost predicate KernelOk(w: World) {
    && |w.threads| == |w.procs|
    && PidsUnique(w) && LocksExclusive(w) && SlotsUnique(w)
    && (forall o :: 0 <= o < |w.ofds| ==> OfdOk(w, o))
    && (forall p :: 0 <= p < |w.procs| ==> ProcOk(w, p))
  }

  ghost predicate StarterOk(w: World, d: nat)
    requires d < |w.threads|
  {
    DescriptorsOk(w, d) && SawFreeOk(w, d) && ChildrenOk(w, d)
  }

  ghost predicate StartersOk(w: World) {
    forall d :: 0 <= d < |w.threads| ==> StarterOk(w, d)
  }

  ghost predicate Inv(w: World) {
    KernelOk(w) && StartersOk(w) && HistoryOk(w)
  }

  /** Asks for an element's old facts whenever its new facts are to be shown. */
  lemma Before(w: World, w': World)
    requires KernelOk(w)
    ensures forall o {:trigger OfdOk(w', o)} :: 0 <= o < |w.ofds| ==> OfdOk(w, o)
    ensures forall p {:trigger ProcOk(w', p)} :: 0 <= p < |w.procs| ==> ProcOk(w, p)
  {
  }

  /** At most one daemon holds the starter lock. */
  lemma OneHolder(w: World, d: nat, d': nat)
    requires Inv(w) && Holds(w, d) && Holds(w, d')
    ensures d == d'
  {
    assert StarterOk(w, d) && StarterOk(w, d');
  }

  // ----- the changes that events are made of -----------------------------------------

  /** A starter changes one description that it references, and its own locals. */
  ghost predicate OwnChange(w: World, d: nat, o: nat, x: Ofd, t: Thread) {
    && LiveDaemon(w, d) && o < |w.ofds| && d in w.ofds[o].refs
    && var y := w.ofds[o];
    && x == y.(locked := x.locked, refs := x.refs)
    && (x.refs == y.refs || (x.refs == y.refs - {d} && (x.locked <==> y.locked && x.refs != {})))
    && (x.locked && !y.locked ==> Free(w, y.file) && x.refs == y.refs && (y.file.OwnerLock? ==> Holds(w, d)))
    && (y.locked && !x.locked ==> y.cloexec || x.refs == {})
    && (d in x.refs ==> t.starter == Some(o) || t.probe == Some(o) || t.owner == Some(o))
    && var s := w.threads[d];
    && (t.starter == s.starter || s.starter == Some(o))
    && (t.probe == s.probe || s.probe == Some(o))
    && (t.owner == s.owner || s.owner == Some(o))
  }

  lemma OwnChangeKernel(w: World, d: nat, o: nat, x: Ofd, t: Thread)
    requires Inv(w) && OwnChange(w, d, o, x, t)
    ensures KernelOk(SetT(SetO(w, o, x), d, t))
  {
    var w' := SetT(SetO(w, o, x), d, t);
    assert OfdOk(w, o) && RefOk(w, o, d);
    forall p | 0 <= p < |w.procs| ensures ProcOk(w', p) {
      assert ProcOk(w, p);
      assert w.procs[p].kind.Serve? && p in w.ofds[o].refs ==> p in x.refs;
    }
    Before(w, w');
  }

  lemma OwnChangeOthers(w: World, d: nat, o: nat, x: Ofd, t: Thread, d': nat)
    requires Inv(w) && OwnChange(w, d, o, x, t)
    requires d' < |w.threads| && d' != d
    ensures StarterOk(SetT(SetO(w, o, x), d, t), d')
  {
    var w' := SetT(SetO(w, o, x), d, t);
    assert StarterOk(w, d');
    assert ChildrenOk(w', d');
    OwnChangeDescriptors(w, d, o, x, t, d');
    if w.threads[d'].sawFree && Holds(w, d) { OneHolder(w, d, d'); }
  }

  lemma OwnChangeDescriptors(w: World, d: nat, o: nat, x: Ofd, t: Thread, d': nat)
    requires Inv(w) && OwnChange(w, d, o, x, t)
    requires d' < |w.threads| && d' != d
    ensures DescriptorsOk(SetT(SetO(w, o, x), d, t), d')
  {
    assert OfdOk(w, o) && RefOk(w, o, d) && StarterOk(w, d');
  }

  /** What is left to show is about the starter itself. */
  lemma OwnChangeKeeps(w: World, d: nat, o: nat, x: Ofd, t: Thread)
    requires Inv(w) && OwnChange(w, d, o, x, t)
    requires StarterOk(SetT(SetO(w, o, x), d, t), d)
    ensures Inv(SetT(SetO(w, o, x), d, t))
  {
    var w' := SetT(SetO(w, o, x), d, t);
    OwnChangeKernel(w, d, o, x, t);
    forall d' | 0 <= d' < |w.threads| ensures StarterOk(w', d') {
      if d' != d { OwnChangeOthers(w, d, o, x, t, d'); }
    }
  }

  /** A starter opens a lock file: a new, unlocked description of its own. */
  ghost predicate OpenChange(w: World, d: nat, file: LockFile, cloexec: bool, t: Thread) {
    && LiveDaemon(w, d)
    && (file.SpawnLock? ==> cloexec)
    && var s := w.threads[d];
    && var o := |w.ofds|;
    && (t.starter == s.starter || (s.starter.None? && t.starter == Some(o)))
    && (t.probe == s.probe || (s.probe.None? && t.probe == Some(o)))
    && (t.owner == s.owner || (s.owner.None? && t.owner == Some(o)))
    && (t.starter == Some(o) || t.probe == Some(o) || t.owner == Some(o))
  }

  lemma OpenChangeKernel(w: World, d: nat, file: LockFile, cloexec: bool, t: Thread)
    requires Inv(w) && OpenChange(w, d, file, cloexec, t)
    ensures KernelOk(Open(w, d, file, cloexec, t))
  {
    assert StarterOk(w, d);
    Before(w, Open(w, d, file, cloexec, t));
  }

  lemma OpenChangeKeeps(w: World, d: nat, file: LockFile, cloexec: bool, t: Thread)
    requires Inv(w) && OpenChange(w, d, file, cloexec, t)
    requires StarterOk(Open(w, d, file, cloexec, t), d)
    ensures Inv(Open(w, d, file, cloexec, t))
  {
    var w' := Open(w, d, file, cloexec, t);
    OpenChangeKernel(w, d, file, cloexec, t);
    forall d' | 0 <= d' < |w.threads| ensures StarterOk(w', d') {
      assert StarterOk(w, d');
    }
  }

  /** The slots in use were all handed out before. */
  lemma SlotsBelow(w: World)
    requires Inv(w)
    ensures forall p :: 0 <= p < |w.procs| && w.procs[p].kind.Serve? ==> w.procs[p].kind.slot < |w.ofds|
  {
    forall p | 0 <= p < |w.procs| && w.procs[p].kind.Serve? ensures w.procs[p].kind.slot < |w.ofds| {
      assert ProcOk(w, p);
    }
  }

  /** A process changes what is not part of its identity.  It may only be reaped
      when no starter counts on its pid. */
  ghost predicate ProcChange(w: World, p: nat, x: Proc) {
    && p < |w.procs|
    && var y := w.procs[p];
    && x == y.(status := x.status, listens := x.listens, fd3 := x.fd3, vetted := x.vetted, portOwned := x.portOwned)
    && (x.status == y.status || (y.status.Zombie? && x.status.Gone?))
    && (x.fd3 ==> y.fd3) && (y.vetted ==> x.vetted) && (y.portOwned ==> x.portOwned)
    && (x.status.Gone? && !y.status.Gone? ==> forall d :: 0 <= d < |w.threads| ==>
          !(w.threads[d].child == Some(p) && w.threads[d].checked) && w.threads[d].retained != Some(p))
  }

  lemma ProcChangeKernel(w: World, p: nat, x: Proc)
    requires Inv(w) && ProcChange(w, p, x)
    ensures KernelOk(SetP(w, p, x))
  {
    Before(w, SetP(w, p, x));
  }

  lemma ProcChangeKeeps(w: World, p: nat, x: Proc)
    requires Inv(w) && ProcChange(w, p, x)
    ensures Inv(SetP(w, p, x))
  {
    var w' := SetP(w, p, x);
    ProcChangeKernel(w, p, x);
    forall d | 0 <= d < |w.threads| ensures StarterOk(w', d) {
      assert StarterOk(w, d);
    }
  }

  /** A new process that is not a child of the protocol. */
  lemma AddProcKernel(w: World, x: Proc)
    requires Inv(w) && FreshPid(w, x.pid) && !x.kind.Serve? && x.parent <= |w.procs|
    ensures KernelOk(NewProc(w, x))
  {
    Before(w, NewProc(w, x));
  }

  lemma AddProcKeeps(w: World, x: Proc)
    requires Inv(w) && FreshPid(w, x.pid) && !x.kind.Serve? && x.parent <= |w.procs|
    ensures Inv(NewProc(w, x))
  {
    AddProcKernel(w, x);
    forall d | 0 <= d < |w.threads| ensures StarterOk(NewProc(w, x), d) {
      assert StarterOk(w, d);
    }
  }

  /** A process that is not a starter gains or loses references. */
  ghost predicate RefChange(w: World, ofds: seq<Ofd>, p: nat) {
    && IsLive(w, p) && !w.procs[p].kind.Daemon? && (w.procs[p].kind.Serve? ==> !w.procs[p].fd3)
    && |ofds| == |w.ofds|
    && forall o {:trigger ofds[o]} {:trigger w.ofds[o]} :: 0 <= o < |ofds| ==>
         || ofds[o] == w.ofds[o]
         || (p in w.ofds[o].refs && ofds[o] == Drop(w.ofds[o], p))
         || (&& ofds[o] == w.ofds[o].(refs := w.ofds[o].refs + {p}) && !w.ofds[o].cloexec
             && w.procs[p].kind.Other? && w.ofds[o].born <= p)
  }

  lemma RefChangeKernel(w: World, ofds: seq<Ofd>, p: nat)
    requires Inv(w) && RefChange(w, ofds, p)
    ensures KernelOk(w.(ofds := ofds))
  {
    Before(w, w.(ofds := ofds));
  }

  lemma RefChangeKeeps(w: World, ofds: seq<Ofd>, p: nat)
    requires Inv(w) && RefChange(w, ofds, p)
    ensures Inv(w.(ofds := ofds))
  {
    RefChangeKernel(w, ofds, p);
    forall d | 0 <= d < |w.threads| ensures StarterOk(w.(ofds := ofds), d) {
      assert StarterOk(w, d);
      assert w.threads[d].starter.Some? ==> OfdOk(w, w.threads[d].starter.value);
    }
  }

  // ----- a process ends ---------------------------------------------------------------

  lemma ExitKernel(w: World, p: nat)
    requires Inv(w) && IsLive(w, p)
    ensures KernelOk(Next(w, Exit(p)))
  {
    var w' := Next(w, Exit(p));
    forall q | 0 <= q < |w.procs| ensures ProcOk(w', q) {
      assert ProcOk(w, q);
    }
    Before(w, w');
  }

  lemma ExitOthers(w: World, p: nat, d: nat)
    requires Inv(w) && IsLive(w, p) && d < |w.threads| && d != p
    ensures StarterOk(Next(w, Exit(p)), d)
  {
    var w' := Next(w, Exit(p));
    assert StarterOk(w, d);
    var t := w.threads[d];
    if t.starter.Some? { DropOther(w, t.starter.value, p); }
    if t.probe.Some? { DropOther(w, t.probe.value, p); }
    assert ChildrenOk(w', d);
    assert SawFreeOk(w', d);
  }

  lemma DropOther(w: World, o: nat, p: nat)
    requires Inv(w) && o < |w.ofds| && p !in w.ofds[o].refs
    ensures Drop(w.ofds[o], p) == w.ofds[o]
  {
    assert OfdOk(w, o);
    assert w.ofds[o].refs - {p} == w.ofds[o].refs;
  }

  lemma ExitKeeps(w: World, p: nat)
    requires Inv(w) && Enabled(w, Exit(p))
    ensures Inv(Next(w, Exit(p)))
  {
    var w' := Next(w, Exit(p));
    ExitKernel(w, p);
    forall d | 0 <= d < |w.threads| ensures StarterOk(w', d) {
      if d != p { ExitOthers(w, p, d); }
    }
  }

  // ----- a daemon re-executes itself -----------------------------------------------------

  lemma ReexecKernel(w: World, d: nat)
    requires Inv(w) && LiveDaemon(w, d)
    ensures KernelOk(Next(w, Reexec(d)))
  {
    var w' := Next(w, Reexec(d));
    assert StarterOk(w, d);
    forall o | 0 <= o < |w'.ofds| ensures OfdOk(w', o) { ReexecOfd(w, d, o); }
    forall p | 0 <= p < |w.procs| ensures ProcOk(w', p) {
      assert ProcOk(w, p);
    }
  }

  lemma ReexecOfd(w: World, d: nat, o: nat)
    requires Inv(w) && LiveDaemon(w, d) && o < |w.ofds|
    ensures OfdOk(Next(w, Reexec(d)), o)
  {
    var w' := Next(w, Reexec(d));
    assert OfdOk(w, o) && StarterOk(w, d);
    forall p | p in w'.ofds[o].refs ensures RefOk(w', o, p) {
      assert RefOk(w, o, p);
    }
  }

  /** Another starter has nothing of it. */
  lemma ReexecOthers(w: World, d: nat, d': nat)
    requires Inv(w) && LiveDaemon(w, d) && d' < |w.threads| && d' != d
    ensures StarterOk(Next(w, Reexec(d)), d')
  {
    var w' := Next(w, Reexec(d));
    assert StarterOk(w, d) && StarterOk(w, d');
    var t := w.threads[d'];
    if t.owner.Some? { assert OfdOk(w, t.owner.value); NotReferred(w, d, t.owner.value); }
    assert DescriptorsOk(w', d');
    assert SawFreeOk(w', d');
    assert ChildrenOk(w', d');
  }

  lemma NotReferred(w: World, d: nat, o: nat)
    requires Inv(w) && LiveDaemon(w, d) && o < |w.ofds| && !w.ofds[o].stranded && !w.ofds[o].cloexec
    requires w.ofds[o].opener != d && w.ofds[o].file.OwnerLock?
    ensures d !in w.ofds[o].refs
  {
    assert StarterOk(w, d) && OfdOk(w, o);
    assert d in w.ofds[o].refs ==> RefOk(w, o, d);
  }

  lemma ReexecKeeps(w: World, d: nat)
    requires Inv(w) && Enabled(w, Reexec(d))
    ensures Inv(Next(w, Reexec(d)))
  {
    var w' := Next(w, Reexec(d));
    ReexecKernel(w, d);
    forall d' | 0 <= d' < |w.threads| ensures StarterOk(w', d') {
      if d' != d { ReexecOthers(w, d, d'); }
    }
  }

  // ----- a starter spawns ---------------------------------------------------------------

  lemma SpawnKernel(w: World, d: nat, pid: int, port: int, claims: set<int>)
    requires Inv(w) && Enabled(w, Spawn(d, pid, port, claims))
    ensures KernelOk(Next(w, Spawn(d, pid, port, claims)))
  {
    var w' := Next(w, Spawn(d, pid, port, claims));
    assert StarterOk(w, d);
    SpawnSlots(w, d, pid, port, claims);
    Before(w, w');
    forall p | 0 <= p < |w'.procs| ensures ProcOk(w', p) {
    }
  }

  lemma SpawnSlots(w: World, d: nat, pid: int, port: int, claims: set<int>)
    requires Inv(w) && Enabled(w, Spawn(d, pid, port, claims))
    ensures var w' := Next(w, Spawn(d, pid, port, claims)); PidsUnique(w') && LocksExclusive(w') && SlotsUnique(w')
  {
    assert StarterOk(w, d);
  }

  lemma SpawnOthers(w: World, d: nat, pid: int, port: int, claims: set<int>, d': nat)
    requires Inv(w) && Enabled(w, Spawn(d, pid, port, claims)) && d' < |w.threads|
    ensures StarterOk(Next(w, Spawn(d, pid, port, claims)), d')
  {
    assert StarterOk(w, d) && StarterOk(w, d');
    if w.threads[d'].owner.Some? { OneHolder(w, d, d'); }
  }

  lemma SpawnKeeps(w: World, d: nat, pid: int, port: int, claims: set<int>)
    requires Inv(w) && Enabled(w, Spawn(d, pid, port, claims))
    ensures Inv(Next(w, Spawn(d, pid, port, claims)))
  {
    SpawnKernel(w, d, pid, port, claims);
    forall d' | 0 <= d' < |w.threads| ensures StarterOk(Next(w, Spawn(d, pid, port, claims)), d') {
      SpawnOthers(w, d, pid, port, claims, d');
    }
  }

  // ----- every event keeps the invariant --------------------------------------------------

  lemma StarterEventKeeps(w: World, e: Event)
    requires Inv(w) && Enabled(w, e)
    requires e.OpenStarter? || e.LockStarter? || e.UnlockStarter? || e.CloseStarter?
    ensures Inv(Next(w, e))
  {
    var d := Actor(e).value;
    var t := w.threads[d];
    var t' := Next(w, e).threads[d];
    assert StarterOk(w, d);
    if e.OpenStarter? {
      OpenChangeKeeps(w, d, SpawnLock, true, t');
    } else {
      var o := t.starter.value;
      assert OfdOk(w, o);
      assert Next(w, e) == SetT(SetO(w, o, Next(w, e).ofds[o]), d, t');
      OwnChangeKeeps(w, d, o, Next(w, e).ofds[o], t');
    }
  }

  lemma ProbeEventKeeps(w: World, e: Event)
    requires Inv(w) && Enabled(w, e)
    requires e.OpenProbe? || e.LockProbe? || e.UnlockProbe? || e.CloseProbe?
    ensures Inv(Next(w, e))
  {
    var d := Actor(e).value;
    var t := w.threads[d];
    var t' := Next(w, e).threads[d];
    assert StarterOk(w, d);
    if e.OpenProbe? {
      OpenChangeKeeps(w, d, OwnerLock, true, t');
    } else {
      var o := t.probe.value;
      assert Next(w, e) == SetT(SetO(w, o, Next(w, e).ofds[o]), d, t');
      OwnChangeKeeps(w, d, o, Next(w, e).ofds[o], t');
    }
  }

  lemma OwnerEventKeeps(w: World, e: Event)
    requires Inv(w) && Enabled(w, e)
    requires e.OpenOwner? || e.LockOwner? || e.CloseOwner?
    ensures Inv(Next(w, e))
  {
    var d := Actor(e).value;
    var t := w.threads[d];
    var t' := Next(w, e).threads[d];
    assert StarterOk(w, d);
    SlotsBelow(w);
    if e.OpenOwner? {
      OpenChangeKeeps(w, d, OwnerLock, false, t');
    } else {
      var o := t.owner.value;
      assert Next(w, e) == SetT(SetO(w, o, Next(w, e).ofds[o]), d, t');
      OwnChangeKeeps(w, d, o, Next(w, e).ofds[o], t');
    }
  }

  lemma CheckEventKeeps(w: World, e: Event)
    requires Inv(w) && Enabled(w, e)
    requires e.CheckRetained? || e.CheckPort?
    ensures Inv(Next(w, e))
  {
    var d := Actor(e).value;
    var c := w.threads[d].child.value;
    var w' := Next(w, e);
    var v := SetP(w, c, w'.procs[c]);
    ProcChangeKeeps(w, c, w'.procs[c]);
    assert StarterOk(v, d);
    var o := v.threads[d].starter.value;
    assert w' == SetT(SetO(v, o, v.ofds[o]), d, w'.threads[d]);
    OwnChangeKeeps(v, d, o, v.ofds[o], w'.threads[d]);
  }

  lemma HistoryFrame(w: World, w': World)
    requires Inv(w) && w' == w.(file := w'.file, log := w'.log, signals := w'.signals)
    ensures KernelOk(w') && StartersOk(w')
  {
    Before(w, w');
    forall d | 0 <= d < |w.threads| ensures StarterOk(w', d) {
      assert StarterOk(w, d);
    }
  }

  lemma PublishKeeps(w: World, d: nat)
    requires Inv(w) && Enabled(w, Publish(d))
    ensures Inv(Next(w, Publish(d)))
  {
    var w' := Next(w, Publish(d));
    var v := w'.(threads := w.threads);
    assert StarterOk(w, d);
    HistoryFrame(w, v);
    var o := w.threads[d].starter.value;
    assert StarterOk(v, d);
    assert w' == SetT(SetO(v, o, v.ofds[o]), d, w'.threads[d]);
    OwnChangeKeeps(v, d, o, v.ofds[o], w'.threads[d]);
  }

  lemma HistoryEventKeeps(w: World, e: Event)
    requires Inv(w) && Enabled(w, e)
    requires e.SignalRecorded? || e.SignalOwn? || e.LoseFile? || e.RevertFile?
    ensures Inv(Next(w, e))
  {
    if Actor(e).Some? { assert StarterOk(w, Actor(e).value); }
    HistoryFrame(w, Next(w, e));
  }

  lemma ForkKeeps(w: World, p: nat, pid: int, claims: set<int>)
    requires Inv(w) && Enabled(w, Fork(p, pid, claims))
    ensures Inv(Next(w, Fork(p, pid, claims)))
  {
    var w' := Next(w, Fork(p, pid, claims));
    var c := |w.procs|;
    var v := NewProc(w, w'.procs[c]);
    AddProcKeeps(w, w'.procs[c]);
    assert w' == v.(ofds := w'.ofds);
    forall o | 0 <= o < |w.ofds| ensures w.ofds[o].born <= c { assert OfdOk(w, o); }
    RefChangeKeeps(v, w'.ofds, c);
  }

  lemma ProcessEventKeeps(w: World, e: Event)
    requires Inv(w) && Enabled(w, e)
    requires e.Boot? || e.Foreign? || e.Fork? || e.Reap? || e.Bind? || e.Unbind?
    ensures Inv(Next(w, e))
  {
    var w' := Next(w, e);
    match e
    case Boot(pid) => AddProcKeeps(w, w'.procs[|w.procs|]);
    case Foreign(pid, claims) => AddProcKeeps(w, w'.procs[|w.procs|]);
    case Fork(p, pid, claims) => ForkKeeps(w, p, pid, claims);
    case Reap(p) =>
      forall d | 0 <= d < |w.threads|
        ensures !(w.threads[d].child == Some(p) && w.threads[d].checked) && w.threads[d].retained != Some(p)
      {
        assert StarterOk(w, d);
      }
      ProcChangeKeeps(w, p, w'.procs[p]);
    case Bind(p, port) => ProcChangeKeeps(w, p, w'.procs[p]);
    case Unbind(p, port) => ProcChangeKeeps(w, p, w'.procs[p]);
  }

  lemma CloseEventKeeps(w: World, e: Event)
    requires Inv(w) && Enabled(w, e)
    requires e.CloseFd3? || e.CloseInherited?
    ensures Inv(Next(w, e))
  {
    match e
    case CloseFd3(p, last) =>
      var v := SetP(w, p, w.procs[p].(fd3 := false));
      ProcChangeKeeps(w, p, v.procs[p]);
      if last { RefChangeKeeps(v, Next(w, e).ofds, p); }
    case CloseInherited(p, o) =>
      assert OfdOk(w, o);
      RefChangeKeeps(w, Next(w, e).ofds, p);
  }

  lemma StepKeeps(w: World, e: Event)
    requires Inv(w) && Enabled(w, e)
    ensures Inv(Next(w, e))
  {
    if e.OpenStarter? || e.LockStarter? || e.UnlockStarter? || e.CloseStarter? {
      StarterEventKeeps(w, e);
    } else if e.OpenProbe? || e.LockProbe? || e.UnlockProbe? || e.CloseProbe? {
      ProbeEventKeeps(w, e);
    } else if e.OpenOwner? || e.LockOwner? || e.CloseOwner? {
      OwnerEventKeeps(w, e);
    } else if e.CheckRetained? || e.CheckPort? {
      CheckEventKeeps(w, e);
    } else if e.Spawn? {
      SpawnKeeps(w, e.d, e.pid, e.port, e.claims);
    } else if e.Exit? {
      ExitKeeps(w, e.p);
    } else if e.Reexec? {
      ReexecKeeps(w, e.d);
    } else if e.CloseFd3? || e.CloseInherited? {
      CloseEventKeeps(w, e);
    } else if e.Publish? {
      PublishKeeps(w, e.d);
    } else if e.SignalRecorded? || e.SignalOwn? || e.LoseFile? || e.RevertFile? {
      HistoryEventKeeps(w, e);
    } else {
      ProcessEventKeeps(w, e);
    }
  }

  /** The invariant holds in every reachable world. */
  lemma {:induction false} RunKeeps(w: World, es: seq<Event>, w': World)
    requires Inv(w) && Run(w, es, w')
    ensures Inv(w')
    decreases |es|
  {
    if es != [] {
      StepKeeps(w, es[0]);
      RunKeeps(Next(w, es[0]), es[1..], w');
    }
  }
}

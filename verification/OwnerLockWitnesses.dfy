/**
 Runs from the empty world that reach the limits of the protocol's guarantees: the
 shared slot, the second child, the recycled pid.
*/
module OwnerLockWitnesses {
  import opened Wrappers
  import opened OwnerLock
  import opened OwnerLockInv
  import opened OwnerLockRuns

  lemma Then(es: seq<Event>, w: World, e: Event) returns (es': seq<Event>, w': World)
    requires Run(INIT, es, w) && Enabled(w, e)
    ensures es' == es + [e] && w' == Next(w, e) && Run(INIT, es', w')
  {
    es', w' := es + [e], Next(w, e);
    RunThen(INIT, es, w, e);
  }

  lemma After(es: seq<Event>, w: World, more: seq<Event>, w': World) returns (es': seq<Event>)
    requires Run(INIT, es, w) && Run(w, more, w')
    ensures es' == es + more && Run(INIT, es', w')
  {
    es' := es + more;
    RunConcat(INIT, es, w, more, w');
  }

  /** One daemon, process 0, that has just seen the owner lock free. */
  lemma Probed() returns (es: seq<Event>, w: World)
    ensures Run(INIT, es, w) && Ready(w, 0) && Free(w, OwnerLock) && w.threads[0].sawFree && w.log == []
    ensures w.procs == [Proc(1, 0, Daemon, {}, Live, {}, false, false, false)]
  {
    assert Run(INIT, [], INIT);
    es, w := Then([], INIT, Boot(1));
    var es1, w1 := TakeStarter(w, 0);
    es := After(es, w, es1, w1);
    var es2, w2 := LookFree(w1, 0);
    es := After(es, w1, es2, w2);
    w := w2;
  }

  /** The same daemon with the owner lock taken on description `o`. */
  lemma Armed() returns (es: seq<Event>, w: World, o: nat)
    ensures Run(INIT, es, w) && LiveDaemon(w, 0) && Holds(w, 0)
    ensures w.threads[0].owner == Some(o) && o < |w.ofds|
    ensures w.ofds[o].locked && w.ofds[o].refs == {0} && !w.ofds[o].cloexec
    ensures w.threads[0].child.None? && w.threads[0].probe.None? && w.log == []
    ensures w.procs == [Proc(1, 0, Daemon, {}, Live, {}, false, false, false)]
  {
    es, w := Probed();
    o := |w.ofds|;
    es, w := Then(es, w, OpenOwner(0));
    es, w := Then(es, w, LockOwner(0));
  }

  /** And with a helper forked while it was open. */
  lemma Helped() returns (es: seq<Event>, w: World, o: nat)
    ensures Run(INIT, es, w) && LiveDaemon(w, 0)
    ensures w.threads[0].owner == Some(o) && w.threads[0].child.None? && o < |w.ofds|
    ensures w.ofds[o].locked && w.ofds[o].refs == {0, 1}
    ensures w.procs == [Proc(1, 0, Daemon, {}, Live, {}, false, false, false),
                        Proc(2, 0, Other, {}, Live, {}, false, false, false)]
  {
    es, w, o := Armed();
    es, w := Then(es, w, Fork(0, 2, {}));
  }

  /** From a world with the owner lock taken to a spawn beside a forked helper. */
  lemma HelperAtSpawn() returns (es: seq<Event>, w: World, o: nat)
    ensures Run(INIT, es, w) && o < |w.ofds| && w.ofds[o].locked
    ensures w.ofds[o].refs == {0, 1, 2}
    ensures IsLive(w, 1) && w.procs[1].kind.Other? && w.procs[1].parent == 0
    ensures IsLive(w, 2) && IsServe(w, 2) && w.procs[2].kind.slot == o
  {
    es, w, o := Helped();
    es, w := Then(es, w, Spawn(0, 3, 4000, {4000}));
  }

  /** The daemon re-executes itself right before the spawn: it is idle again, there is
      no child, and nobody spawns one for as long as that daemon lives. */
  lemma SlotStrandedByReexec() returns (es: seq<Event>, w: World)
    ensures Run(INIT, es, w) && |w.procs| == 1 && IdleStarter(w, 0) && Jams(w, 0)
  {
    var o: nat;
    es, w, o := Armed();
    RunInv(es, w);
    ReexecStrands(w, 0);
    es, w := Then(es, w, Reexec(0));
    RunInv(es, w);
    StrandedLockJams(w, 0);
  }

  /** The daemon holds both locks and has started process 1, with pid 2. */
  ghost predicate Parenting(w: World, o: nat) {
    && LiveDaemon(w, 0) && Holds(w, 0) && o < |w.ofds|
    && w.threads[0].owner == Some(o) && w.threads[0].child == Some(1) && w.threads[0].probe.None?
    && w.threads[0].starter != Some(o) && w.log == []
    && w.ofds[o].locked && w.ofds[o].refs == {0, 1}
    && w.procs == [Proc(1, 0, Daemon, {}, Live, {}, false, false, false),
                   Proc(2, 0, Serve(4000, o), {4000}, Live, {}, true, false, false)]
  }

  lemma Parented() returns (es: seq<Event>, w: World, o: nat)
    ensures Run(INIT, es, w) && Parenting(w, o)
  {
    es, w, o := Armed();
    es, w := Then(es, w, Spawn(0, 2, 4000, {4000}));
    RunInv(es, w);
    assert StarterOk(w, 0);
  }

  /** The handoff is complete: the child alone refers to the locked description. */
  ghost predicate Handed(w: World, o: nat) {
    && LiveDaemon(w, 0) && Holds(w, 0) && o < |w.ofds| && |w.procs| == |w.threads| == 2
    && w.threads[0].owner.None? && w.threads[0].probe.None? && w.threads[0].child == Some(1) && w.threads[0].checked
    && w.threads[0].starter != Some(o) && w.log == []
    && w.ofds[o].locked && w.ofds[o].refs == {1} && w.ofds[o].file.OwnerLock?
    && IsLive(w, 1) && w.procs[1].pid == 2 && w.procs[1].kind == Serve(4000, o) && w.procs[1].parent == 0
    && w.procs[0].pid == 1 && !PortTaken(w, 4000)
  }

  lemma HandedRun() returns (es: seq<Event>, w: World, o: nat)
    ensures Run(INIT, es, w) && Handed(w, o)
  {
    es, w, o := Parented();
    es, w := Then(es, w, CheckRetained(0));
    es, w := Then(es, w, CloseOwner(0));
    RunInv(es, w);
    assert ProcOk(w, 1);
  }

  /** The transaction is over; the child runs on. */
  lemma Released() returns (es: seq<Event>, w: World, o: nat)
    ensures Run(INIT, es, w) && IdleStarter(w, 0) && Free(w, SpawnLock)
    ensures o < |w.ofds| && w.ofds[o].locked && w.ofds[o].refs == {1}
    ensures IsLive(w, 1) && IsServe(w, 1) && w.procs[1].kind.slot == o && |w.procs| == 2
    ensures w.procs[0].pid == 1 && w.procs[1].pid == 2
  {
    es, w, o := HandedRun();
    RunInv(es, w);
    UnlockFrees(w, 0);
    es, w := Then(es, w, UnlockStarter(0));
    es, w := Then(es, w, CloseStarter(0, true));
  }

  lemma UnlockFrees(w: World, d: nat)
    requires Inv(w) && Enabled(w, UnlockStarter(d))
    ensures Free(Next(w, UnlockStarter(d)), SpawnLock)
  {
    assert StarterOk(w, d);
    forall o: nat | o < |w.ofds| && w.ofds[o].locked && w.ofds[o].file.SpawnLock?
      ensures w.threads[d].starter == Some(o)
    {
      LockedOnce(w, w.threads[d].starter.value, o);
    }
  }

  /** Main result at the limit of exclusion: a run from the empty world with two live
      children, the first of which closed its last descriptor. */
  lemma TwoChildren() returns (es: seq<Event>, w: World)
    ensures Run(INIT, es, w)
    ensures exists c: nat, c': nat :: c != c' && IsLive(w, c) && IsServe(w, c) && IsLive(w, c') && IsServe(w, c')
    ensures exists k :: 0 <= k < |es| && es[k] == CloseFd3(1, true)
  {
    var es1, w1, o := Released();
    RunInv(es1, w1);
    var es2, w2 := ClosedFd3AdmitsSecondChild(w1, 1);
    es := After(es1, w1, es2, w2);
    w := w2;
    assert es[|es1|] == es2[0];
  }

  /** The file and the only publication name process 1, the child of daemon 0. */
  predicate Recorded(w: World) {
    w.file == Some(Rec(2, 4000, 1)) && w.log == [Publication(0, Rec(2, 4000, 1))]
  }

  /** The child got its port, was published, and the daemon is still in its
      transaction. */
  lemma PublishedRun() returns (es: seq<Event>, w: World)
    ensures Run(INIT, es, w) && LiveDaemon(w, 0) && |w.procs| == 2
    ensures Recorded(w) && IsLive(w, 1) && w.procs[1].parent == 0
    ensures w.procs[0].pid == 1 && w.procs[1].pid == 2
  {
    var o: nat;
    es, w, o := HandedRun();
    es, w := Then(es, w, Bind(1, 4000));
    es, w := Then(es, w, CheckPort(0));
    es, w := Then(es, w, Publish(0));
  }

  /** Daemon and child are gone; the record still names them. */
  lemma Outlived() returns (es: seq<Event>, w: World)
    ensures Run(INIT, es, w) && Inv(w) && Recorded(w) && FreshPid(w, 2)
    ensures |w.procs| == |w.threads| == 2 && w.procs[0].pid == 1 && w.procs[0].listens == {}
    ensures w.procs[0].status.Zombie? && w.procs[1].status.Gone? && w.procs[1].listens == {}
  {
    es, w := Orphaned();
    es, w := Then(es, w, Exit(1));
    es, w := Then(es, w, Reap(1));
    RunInv(es, w);
  }

  /** The daemon is gone. */
  lemma Orphaned() returns (es: seq<Event>, w: World)
    ensures Run(INIT, es, w) && Recorded(w) && |w.procs| == |w.threads| == 2
    ensures IsLive(w, 1) && w.procs[1].parent == 0 && w.procs[1].pid == 2
    ensures w.procs[0].status.Zombie? && w.procs[0].pid == 1 && w.procs[0].listens == {}
  {
    es, w := PublishedRun();
    es, w := Then(es, w, Exit(0));
    RunInv(es, w);
  }

  /** A second daemon, process 2, holds the starter lock over the stale record. */
  lemma Succeeded() returns (es: seq<Event>, w: World)
    ensures Run(INIT, es, w) && Inv(w) && Recorded(w) && FreshPid(w, 2)
    ensures LiveDaemon(w, 2) && Holds(w, 2) && w.threads[2].child.None? && |w.procs| == 3
  {
    es, w := Outlived();
    NobodyHolds(w);
    es, w := Then(es, w, Boot(3));
    es, w := StarterTaken(es, w);
  }

  lemma StarterTaken(es: seq<Event>, w: World) returns (es': seq<Event>, w': World)
    requires Run(INIT, es, w) && IdleStarter(w, 2) && Free(w, SpawnLock)
    ensures Run(INIT, es', w') && Inv(w') && SameRecords(w, w') && w'.procs == w.procs
    ensures LiveDaemon(w', 2) && Holds(w', 2) && w'.threads[2].child.None?
  {
    es', w' := Then(es, w, OpenStarter(2));
    es', w' := Then(es', w', LockStarter(2));
    RunInv(es', w');
  }

  lemma NobodyHolds(w: World)
    requires Inv(w) && forall d: nat :: !LiveDaemon(w, d)
    ensures Free(w, SpawnLock)
  {
    forall o: nat | o < |w.ofds| && w.ofds[o].locked ensures w.ofds[o].file != SpawnLock {
      assert OfdOk(w, o);
      var p :| p in w.ofds[o].refs;
      assert RefOk(w, o, p);
      assert w.ofds[o].file.SpawnLock? ==> LiveDaemon(w, p);
    }
  }

  /** Main result at the limit of signal safety: a run from the empty world in which
      a restart signals a process that never was an `opencode serve` of ours. */
  lemma StrangerSignalled() returns (es: seq<Event>, w: World)
    ensures Run(INIT, es, w) && |w.signals| > 0
    ensures var s := w.signals[|w.signals| - 1];
            s.target < |w.procs| && w.procs[s.target].kind.Other? && s.recorded == Some(Rec(2, 4000, 1)) && s.reaped
  {
    var es1, w1 := Succeeded();
    var es2, w2 := RecycledPidIsSignalled(w1, 2);
    es := After(es1, w1, es2, w2);
    w := w2;
    SignalsAreAttributed(es, w, |w.signals| - 1);
  }

  // ----- a write that fails -------------------------------------------------------------------

  /** The stale record, and a second daemon that has seen the owner lock free. */
  lemma Reprobed() returns (es: seq<Event>, w: World)
    ensures Run(INIT, es, w) && Ready(w, 2) && Free(w, OwnerLock) && w.threads[2].sawFree
    ensures Recorded(w) && |w.procs| == 3 && Second(w)
  {
    es, w := Outlived();
    NobodyHolds(w);
    var v;
    es, v := Then(es, w, Boot(3));
    NobodyOwns(w);
    var es1, w1 := TakeStarter(v, 2);
    es := After(es, v, es1, w1);
    var es2, w2 := LookFree(w1, 2);
    es := After(es, w1, es2, w2);
    w := w2;
  }

  /** The processes so far: both of the first generation are gone. */
  predicate Second(w: World) {
    && |w.procs| >= 3 && w.procs[1].status.Gone? && w.procs[2] == Proc(3, 2, Daemon, {}, Live, {}, false, false, false)
    && w.procs[0].pid == 1 && w.procs[0].listens == {} && w.procs[1].pid == 2 && w.procs[1].listens == {}
  }

  lemma NobodyOwns(w: World)
    requires Inv(w) && forall p :: 0 <= p < |w.procs| ==> !w.procs[p].status.Live?
    ensures Free(w, OwnerLock)
  {
    forall o: nat | o < |w.ofds| ensures !w.ofds[o].locked {
      assert OfdOk(w, o);
      assert forall p :: p in w.ofds[o].refs ==> RefOk(w, o, p);
    }
  }

  /** It takes the owner lock and spawns process 3, with pid 4. */
  lemma Respawned() returns (es: seq<Event>, w: World)
    ensures Run(INIT, es, w) && Inv(w) && LiveDaemon(w, 2) && Holds(w, 2) && Recorded(w)
    ensures w.threads[2].owner.Some? && w.threads[2].child == Some(3) && w.threads[2].probe.None?
    ensures |w.procs| == 4 && Second(w) && w.procs[3].pid == 4 && w.procs[3].kind.Serve? && w.procs[3].kind.port == 4001
    ensures IsLive(w, 3) && w.procs[3].fd3 && w.procs[3].listens == {}
  {
    es, w := Rearmed();
    es, w := Then(es, w, Spawn(2, 4, 4001, {4001}));
    RunInv(es, w);
    assert StarterOk(w, 2);
  }

  lemma Rearmed() returns (es: seq<Event>, w: World)
    ensures Run(INIT, es, w) && LiveDaemon(w, 2) && Holds(w, 2) && Recorded(w) && |w.threads| == 3
    ensures w.threads[2].owner.Some? && w.threads[2].child.None? && w.threads[2].probe.None?
    ensures w.threads[2].owner.value < |w.ofds| && w.ofds[w.threads[2].owner.value].locked
    ensures |w.procs| == 3 && Second(w) && FreshPid(w, 4)
  {
    var v;
    es, v := Reprobed();
    var es1;
    es1, w := TakeOwner(v, 2);
    es := After(es, v, es1, w);
  }

  /** The handoff is complete. */
  lemma Rehanded() returns (es: seq<Event>, w: World)
    ensures Run(INIT, es, w) && LiveDaemon(w, 2) && Holds(w, 2) && Recorded(w)
    ensures var t := w.threads[2]; t.owner.None? && t.child == Some(3) && t.probe.None? && t.checked
    ensures |w.procs| == 4 && Second(w) && w.procs[3].pid == 4 && w.procs[3].kind.Serve? && w.procs[3].kind.port == 4001
    ensures IsLive(w, 3) && w.procs[3].fd3 && w.procs[3].listens == {} && w.procs[3].vetted
  {
    es, w := Respawned();
    var v := w;
    es, w := Then(es, w, CheckRetained(2));
    RunInv(es, w);
    assert StarterOk(w, 2);
    es, w := Then(es, w, CloseOwner(2));
  }

  /** The child got its port, and its daemon passed the readiness check. */
  lemma Readied() returns (es: seq<Event>, w: World)
    ensures Run(INIT, es, w) && Inv(w) && LiveDaemon(w, 2) && Holds(w, 2) && Recorded(w)
    ensures var t := w.threads[2]; t.owner.None? && t.child == Some(3) && t.probe.None? && t.ready
    ensures |w.procs| == 4 && Second(w) && w.procs[3].pid == 4 && w.procs[3].kind.Serve? && w.procs[3].kind.port == 4001
    ensures IsLive(w, 3) && w.procs[3].fd3 && w.procs[3].vetted && w.procs[3].portOwned
  {
    es, w := Rehanded();
    es, w := Then(es, w, Bind(3, 4001));
    es, w := Then(es, w, CheckPort(2));
    RunInv(es, w);
  }

  /** Main result about a discarded write: a run from the empty world to a start that
      reports success.  Its child owns the slot, passed both checks and is retained; the
      file still names a child that is gone, so its pid means nobody. */
  lemma SpawnedUnrecorded() returns (es: seq<Event>, w: World)
    ensures Run(INIT, es, w) && IdleStarter(w, 2) && w.threads[2].retained == Some(3)
    ensures IsLive(w, 3) && IsServe(w, 3) && w.procs[3].vetted && w.procs[3].portOwned && OwnsSlot(w, 3)
    ensures Recorded(w) && w.procs[1].status.Gone? && FreshPid(w, 2)
    ensures Blocks(w, 3)
  {
    es, w := Readied();
    es, w := Then(es, w, UnlockStarter(2));
    es, w := Then(es, w, CloseStarter(2, true));
    RunInv(es, w);
    CoveredOwns(w, 3);
    ReferenceIsTheSlot(es, w, 3);
  }
}

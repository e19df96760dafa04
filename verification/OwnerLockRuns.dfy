/**
 What the owner-lock protocol guarantees over every run: any number of starters
 and restarters, killed at any boundary, with children dying, descendants
 forking, and the state file lost or stale.
*/
module OwnerLockRuns {
  import opened Wrappers
  import opened OwnerLock
  import opened OwnerLockInv

  lemma RunInv(es: seq<Event>, w: World)
    requires Run(INIT, es, w)
    ensures Inv(w)
  {
    RunKeeps(INIT, es, w);
  }

  lemma {:induction false} RunThen(w: World, es: seq<Event>, w': World, e: Event)
    requires Run(w, es, w') && Enabled(w', e)
    ensures Run(w, es + [e], Next(w', e))
    decreases |es|
  {
    if es == [] {
      assert (es + [e])[1..] == [];
    } else {
      assert (es + [e])[1..] == es[1..] + [e];
      RunThen(Next(w, es[0]), es[1..], w', e);
    }
  }

  lemma {:induction false} RunConcat(w: World, es: seq<Event>, w': World, fs: seq<Event>, w'': World)
    requires Run(w, es, w') && Run(w', fs, w'')
    ensures Run(w, es + fs, w'')
    decreases |es|
  {
    if es == [] {
      assert es + fs == fs;
    } else {
      assert (es + fs)[1..] == es[1..] + fs;
      RunConcat(Next(w, es[0]), es[1..], w', fs, w'');
    }
  }

  // ----- slot exclusion -----------------------------------------------------------

  /** A live `opencode serve` that still has the descriptor it was given. */
  ghost predicate Covered(w: World, c: nat) {
    IsLive(w, c) && IsServe(w, c) && w.procs[c].fd3
  }

  /** `c` holds the owner lock: a reference to its locked description, which is
      the only locked description of the owner file. */
  ghost predicate OwnsSlot(w: World, c: nat) {
    && IsServe(w, c) && w.procs[c].kind.slot < |w.ofds|
    && w.ofds[w.procs[c].kind.slot].locked && c in w.ofds[w.procs[c].kind.slot].refs
    && forall o: nat :: o < |w.ofds| && w.ofds[o].locked && w.ofds[o].file.OwnerLock? ==> o == w.procs[c].kind.slot
  }

  lemma CoveredOwns(w: World, c: nat)
    requires Inv(w) && Covered(w, c)
    ensures OwnsSlot(w, c)
  {
    assert ProcOk(w, c);
  }

  lemma SlotDetermines(w: World, c: nat, c': nat)
    requires Inv(w) && IsServe(w, c) && IsServe(w, c') && w.procs[c].kind.slot == w.procs[c'].kind.slot
    ensures c == c'
  {
  }

  lemma OneCovered(w: World, c: nat, c': nat)
    requires Inv(w) && Covered(w, c) && Covered(w, c')
    ensures c == c'
  {
    CoveredOwns(w, c);
    CoveredOwns(w, c');
    SlotDetermines(w, c, c');
  }

  /** At the moment of a spawn no other child has the slot, and whoever else
      refers to the locked description was forked by the spawner while it had
      the description open: the owner file is opened without O_CLOEXEC. */
  lemma SpawnStep(w: World, e: Event)
    requires Inv(w) && Enabled(w, e) && e.Spawn?
    ensures var o := w.threads[e.d].owner.value;
            && Holds(w, e.d)
            && (forall o': nat :: o' < |w.ofds| && w.ofds[o'].locked && w.ofds[o'].file.OwnerLock? ==> o' == o)
            && (forall c: nat :: !Covered(w, c))
            && (forall p :: p in w.ofds[o].refs && p != e.d ==>
                  p < |w.procs| && w.procs[p].kind.Other? && w.ofds[o].born <= p)
  {
    var d := e.d;
    var o := w.threads[d].owner.value;
    assert StarterOk(w, d) && OfdOk(w, o);
    forall c: nat ensures !Covered(w, c) {
      if Covered(w, c) { CoveredOwns(w, c); }
    }
    forall p | p in w.ofds[o].refs && p != d ensures p < |w.procs| && w.procs[p].kind.Other? && w.ofds[o].born <= p {
      assert RefOk(w, o, p);
      if w.procs[p].kind.Daemon? {
        assert StarterOk(w, p);
        OneHolder(w, d, p);
      }
    }
  }

  /** The previous bound is reached: a process forked by the spawner between its
      open and its spawn shares the description, and the spawn still goes ahead. */
  lemma HelperSharesTheSlot(w: World, d: nat, pid: int)
    requires Inv(w) && LiveDaemon(w, d) && FreshPid(w, pid)
    requires w.threads[d].owner.Some? && w.threads[d].owner.value < |w.ofds|
    requires w.ofds[w.threads[d].owner.value].locked && w.threads[d].child.None?
    ensures var e := Fork(d, pid, {});
            && Enabled(w, e)
            && |w.procs| in Next(w, e).ofds[w.threads[d].owner.value].refs
            && forall pid', port :: FreshPid(Next(w, e), pid') && port > 0 ==>
                              Enabled(Next(w, e), Spawn(d, pid', port, {port}))
  {
    assert StarterOk(w, d);
  }

  /** `d` forked a process, one of those numbered `from` to `to`. */
  ghost predicate Forked(w: World, d: nat, from: nat, to: nat) {
    exists k: nat :: from <= k <= to && k < |w.procs| && w.procs[k].parent == d
  }

  /** A reference is the opener's own or goes back to a fork by the opener. */
  ghost predicate Traced(w: World, o: nat, p: nat)
    requires o < |w.ofds|
  {
    p == w.ofds[o].opener || Forked(w, w.ofds[o].opener, w.ofds[o].born, p)
  }

  ghost predicate Lineage(w: World) {
    forall o, p :: 0 <= o < |w.ofds| && p in w.ofds[o].refs ==> Traced(w, o, p)
  }

  lemma ForkedLater(w: World, w': World, d: nat, from: nat, to: nat, to': nat)
    requires Forked(w, d, from, to) && to <= to' && |w.procs| <= |w'.procs|
    requires forall p :: 0 <= p < |w.procs| ==> SameIdentity(w.procs[p], w'.procs[p])
    ensures Forked(w', d, from, to')
  {
    var k: nat :| from <= k <= to && k < |w.procs| && w.procs[k].parent == d;
    assert SameIdentity(w.procs[k], w'.procs[k]);
  }

  /** How a reference of `Next` came about: it was there, the description is new, or
      the process is. */
  lemma RefBefore(w: World, e: Event, o: nat, p: nat)
    requires Enabled(w, e) && o < |Next(w, e).ofds| && p in Next(w, e).ofds[o].refs
    ensures o < |w.ofds| ==> Next(w, e).ofds[o].opener == w.ofds[o].opener && Next(w, e).ofds[o].born == w.ofds[o].born
    ensures o >= |w.ofds| ==> p == Next(w, e).ofds[o].opener
    ensures o < |w.ofds| && p !in w.ofds[o].refs ==>
              && p == |w.procs| < |Next(w, e).procs|
              && (e.Fork? || (e.Spawn? && w.threads[e.d].owner == Some(o)))
              && Next(w, e).procs[p].parent == (if e.Fork? then e.p else e.d)
              && (e.Fork? ==> e.p in w.ofds[o].refs)
  {
    if Actor(e).Some? { RefBeforeStarterStep(w, e, o, p); } else { RefBeforeEnvironmentStep(w, e, o, p); }
  }

  lemma RefBeforeStarterStep(w: World, e: Event, o: nat, p: nat)
    requires Enabled(w, e) && Actor(e).Some? && o < |Next(w, e).ofds| && p in Next(w, e).ofds[o].refs
    ensures o < |w.ofds| ==> Next(w, e).ofds[o].opener == w.ofds[o].opener && Next(w, e).ofds[o].born == w.ofds[o].born
    ensures o >= |w.ofds| ==> p == Next(w, e).ofds[o].opener
    ensures o < |w.ofds| && p !in w.ofds[o].refs ==>
              && p == |w.procs| < |Next(w, e).procs| && e.Spawn? && w.threads[e.d].owner == Some(o)
              && Next(w, e).procs[p].parent == e.d
  {
  }

  lemma RefBeforeEnvironmentStep(w: World, e: Event, o: nat, p: nat)
    requires Enabled(w, e) && Actor(e).None? && o < |Next(w, e).ofds| && p in Next(w, e).ofds[o].refs
    ensures o < |w.ofds| && Next(w, e).ofds[o].opener == w.ofds[o].opener && Next(w, e).ofds[o].born == w.ofds[o].born
    ensures p !in w.ofds[o].refs ==>
              && p == |w.procs| < |Next(w, e).procs| && e.Fork?
              && Next(w, e).procs[p].parent == e.p && e.p in w.ofds[o].refs
  {
  }

  lemma TracedStep(w: World, e: Event, o: nat, p: nat)
    requires Inv(w) && Lineage(w) && Enabled(w, e) && o < |Next(w, e).ofds| && p in Next(w, e).ofds[o].refs
    ensures Traced(Next(w, e), o, p)
  {
    var w' := Next(w, e);
    RefBefore(w, e, o, p);
    IdentitiesKept(w, e);
    if e.Spawn? { assert StarterOk(w, e.d); }
    if o < |w.ofds| {
      var opener, born := w.ofds[o].opener, w.ofds[o].born;
      assert OfdOk(w, o);
      if p in w.ofds[o].refs {
        assert Traced(w, o, p);
        if p != opener { ForkedLater(w, w', opener, born, p, p); }
      } else if w'.procs[p].parent == opener {
        assert born <= p;
      } else {
        assert Traced(w, o, e.p);
        ForkedLater(w, w', opener, born, e.p, p);
      }
    }
  }

  lemma {:induction false} LineageKept(w: World, es: seq<Event>, w': World)
    requires Inv(w) && Lineage(w) && Run(w, es, w')
    ensures Lineage(w')
    decreases |es|
  {
    if es != [] {
      var v := Next(w, es[0]);
      StepKeeps(w, es[0]);
      forall o, p | 0 <= o < |v.ofds| && p in v.ofds[o].refs ensures Traced(v, o, p) { TracedStep(w, es[0], o, p); }
      LineageKept(v, es[1..], w');
    }
  }

  /** When the spawner forked nothing since it opened the owner file, it is the only
      process that refers to the description at the spawn. */
  lemma SpawnerAlone(es: seq<Event>, w: World, e: Event)
    requires Run(INIT, es, w) && Enabled(w, e) && e.Spawn?
    requires !Forked(w, e.d, w.ofds[w.threads[e.d].owner.value].born, |w.procs|)
    ensures w.ofds[w.threads[e.d].owner.value].refs == {e.d}
  {
    RunInv(es, w);
    LineageKept(INIT, es, w);
    var o := w.threads[e.d].owner.value;
    assert StarterOk(w, e.d);
    forall p | p in w.ofds[o].refs ensures p == e.d {
      assert Traced(w, o, p);
      assert OfdOk(w, o) && RefOk(w, o, p);
      NotForkedBefore(w, e.d, w.ofds[o].born, p);
    }
  }

  lemma NotForkedBefore(w: World, d: nat, from: nat, to: nat)
    requires !Forked(w, d, from, |w.procs|) && to <= |w.procs|
    ensures !Forked(w, d, from, to)
  {
  }

  // ----- the lock lasts exactly as long as its references ---------------------------

  /** A description of the kind that children get, past the point of locking. */
  ghost predicate HandedOut(w: World, o: nat) {
    && o < |w.ofds| && w.ofds[o].file.OwnerLock? && !w.ofds[o].cloexec
    && (w.ofds[o].locked <==> w.ofds[o].refs != {})
  }

  lemma HandedOutStep(w: World, o: nat, e: Event)
    requires Inv(w) && HandedOut(w, o) && Enabled(w, e)
    ensures HandedOut(Next(w, e), o)
    ensures w.ofds[o].refs == {} ==> Next(w, e).ofds[o].refs == {}
  {
    if Actor(e).Some? {
      HandedOutStarterStep(w, o, e, Actor(e).value);
    } else {
      HandedOutEnvironmentStep(w, o, e);
    }
  }

  lemma HandedOutStarterStep(w: World, o: nat, e: Event, a: nat)
    requires Inv(w) && HandedOut(w, o) && Enabled(w, e) && Actor(e) == Some(a)
    ensures HandedOut(Next(w, e), o)
    ensures w.ofds[o].refs == {} ==> Next(w, e).ofds[o].refs == {}
  {
    assert StarterOk(w, a);
    if w.threads[a].owner != Some(o) { StarterStepKeepsOfd(w, e, a, o); }
  }

  lemma HandedOutEnvironmentStep(w: World, o: nat, e: Event)
    requires HandedOut(w, o) && Enabled(w, e) && Actor(e).None?
    ensures HandedOut(Next(w, e), o)
    ensures w.ofds[o].refs == {} ==> Next(w, e).ofds[o].refs == {}
  {
  }

  /** LOCK_UN never drops it: from the moment it is locked, and whatever happens
      to the starter, the lock is held for as long as any process refers to the
      description, and it is never taken again afterwards. */
  lemma {:induction false} OwnershipIsCoextensive(w: World, o: nat, es: seq<Event>, w': World)
    requires Inv(w) && HandedOut(w, o) && Run(w, es, w')
    ensures HandedOut(w', o)
    ensures w.ofds[o].refs == {} ==> w'.ofds[o].refs == {}
    decreases |es|
  {
    if es != [] {
      HandedOutStep(w, o, es[0]);
      StepKeeps(w, es[0]);
      OwnershipIsCoextensive(Next(w, es[0]), o, es[1..], w');
    }
  }

  /** Whatever LOCK_UN is issued on is a private description. */
  lemma UnlockIsPrivate(w: World, e: Event)
    requires Inv(w) && Enabled(w, e) && (e.UnlockStarter? || e.UnlockProbe?)
    ensures var o := if e.UnlockStarter? then w.threads[e.d].starter.value else w.threads[e.d].probe.value;
            && w.ofds[o].refs == {e.d} && w.ofds[o].cloexec
            && (forall c :: 0 <= c < |w.procs| && w.procs[c].kind.Serve? ==> w.procs[c].kind.slot != o)
            && (forall o' :: 0 <= o' < |w.ofds| && o' != o ==> Next(w, e).ofds[o'] == w.ofds[o'])
  {
    assert StarterOk(w, e.d);
    var o := if e.UnlockStarter? then w.threads[e.d].starter.value else w.threads[e.d].probe.value;
    assert OfdOk(w, o);
    forall c | 0 <= c < |w.procs| && w.procs[c].kind.Serve? ensures w.procs[c].kind.slot != o {
      assert ProcOk(w, c);
    }
  }

  /** Who can refer to a description that holds the owner lock: a starter inside
      the handoff, one that re-executed itself inside it, the child it was made for,
      or a process forked since. */
  lemma OwnersAreKnown(w: World, o: nat, p: nat)
    requires Inv(w) && HandedOut(w, o) && p in w.ofds[o].refs
    ensures IsLive(w, p)
    ensures match w.procs[p].kind
            case Daemon =>
              || (w.threads[p].owner == Some(o) && Holds(w, p) && !w.ofds[o].stranded)
              || (w.ofds[o].stranded && w.ofds[o].opener == p)
            case Serve(_, slot) => slot == o
            case Other => w.ofds[o].born <= p
  {
    assert OfdOk(w, o) && RefOk(w, o, p);
    if w.procs[p].kind.Daemon? {
      assert StarterOk(w, p);
      if w.threads[p].starter.Some? { assert OfdOk(w, w.threads[p].starter.value); }
    }
  }

  // ----- slot exclusion over every run ------------------------------------------------

  /** A live child that still refers to its description, by fd 3 or by a copy of it. */
  ghost predicate Refers(w: World, c: nat) {
    && IsLive(w, c) && IsServe(w, c)
    && w.procs[c].kind.slot < |w.ofds| && c in w.ofds[w.procs[c].kind.slot].refs
  }

  ghost predicate SlotsHandedOut(w: World) {
    forall c :: 0 <= c < |w.procs| && w.procs[c].kind.Serve? ==> HandedOut(w, w.procs[c].kind.slot)
  }

  /** A child comes into being by a spawn, with a reference to a locked description. */
  lemma NewChild(w: World, e: Event, c: nat)
    requires Inv(w) && Enabled(w, e) && |w.procs| <= c && IsServe(Next(w, e), c)
    ensures HandedOut(Next(w, e), Next(w, e).procs[c].kind.slot) && Refers(Next(w, e), c)
  {
    OnlySpawnsServe(w, e, c);
    assert StarterOk(w, e.d);
  }

  lemma OnlySpawnsServe(w: World, e: Event, c: nat)
    requires Enabled(w, e) && |w.procs| <= c && IsServe(Next(w, e), c)
    ensures e.Spawn?
  {
  }

  lemma SlotsStep(w: World, e: Event)
    requires Inv(w) && SlotsHandedOut(w) && Enabled(w, e)
    ensures SlotsHandedOut(Next(w, e))
  {
    var w' := Next(w, e);
    IdentitiesKept(w, e);
    forall c | 0 <= c < |w'.procs| && w'.procs[c].kind.Serve? ensures HandedOut(w', w'.procs[c].kind.slot) {
      if c < |w.procs| {
        assert SameIdentity(w.procs[c], w'.procs[c]);
        HandedOutStep(w, w.procs[c].kind.slot, e);
      } else {
        NewChild(w, e, c);
      }
    }
  }

  /** Only the exit of a child, or a close of its last reference, takes it from its
      description. */
  lemma RefersStep(w: World, e: Event, c: nat)
    requires Inv(w) && Refers(w, c) && Enabled(w, e) && e != CloseFd3(c, true) && IsLive(Next(w, e), c)
    ensures Refers(Next(w, e), c)
  {
    var o := w.procs[c].kind.slot;
    IdentitiesKept(w, e);
    assert SameIdentity(w.procs[c], Next(w, e).procs[c]);
    assert OfdOk(w, o) && RefOk(w, o, c) && ProcOk(w, c);
    if Actor(e).Some? {
      StarterStepKeepsChild(w, e, Actor(e).value, o, c);
    } else {
      EnvironmentKeepsChild(w, e, o, c);
    }
  }

  lemma StarterStepKeepsChild(w: World, e: Event, a: nat, o: nat, c: nat)
    requires Inv(w) && Enabled(w, e) && Actor(e) == Some(a) && o < |w.ofds| && c in w.ofds[o].refs && IsServe(w, c)
    ensures o < |Next(w, e).ofds| && c in Next(w, e).ofds[o].refs
  {
    assert StarterOk(w, a);
    if w.threads[a].starter != Some(o) && w.threads[a].probe != Some(o) && w.threads[a].owner != Some(o) {
      StarterStepKeepsOfd(w, e, a, o);
    }
  }

  lemma EnvironmentKeepsChild(w: World, e: Event, o: nat, c: nat)
    requires Enabled(w, e) && Actor(e).None? && o < |w.ofds| && c in w.ofds[o].refs
    requires IsLive(w, c) && IsServe(w, c) && IsLive(Next(w, e), c) && e != CloseFd3(c, true)
    ensures o < |Next(w, e).ofds| && c in Next(w, e).ofds[o].refs
  {
  }

  lemma {:induction false} AllRefer(w: World, es: seq<Event>, w': World)
    requires Inv(w) && SlotsHandedOut(w) && Run(w, es, w')
    requires forall k :: 0 <= k < |es| ==> !(es[k].CloseFd3? && es[k].last)
    requires forall c: nat :: IsLive(w, c) && IsServe(w, c) ==> Refers(w, c)
    ensures SlotsHandedOut(w') && forall c: nat :: IsLive(w', c) && IsServe(w', c) ==> Refers(w', c)
    decreases |es|
  {
    if es != [] {
      var v := Next(w, es[0]);
      StepKeeps(w, es[0]);
      SlotsStep(w, es[0]);
      IdentitiesKept(w, es[0]);
      assert !(es[0].CloseFd3? && es[0].last);
      forall c: nat | IsLive(v, c) && IsServe(v, c) ensures Refers(v, c) {
        if c < |w.procs| {
          assert SameIdentity(w.procs[c], v.procs[c]);
          assert IsLive(w, c) && IsServe(w, c);
          RefersStep(w, es[0], c);
        } else {
          NewChild(w, es[0], c);
        }
      }
      forall k | 0 <= k < |es[1..]| ensures !(es[1..][k].CloseFd3? && es[1..][k].last) {
        assert es[1..][k] == es[k + 1];
      }
      AllRefer(v, es[1..], w');
    }
  }

  lemma {:induction false} SlotsAlwaysHandedOut(w: World, es: seq<Event>, w': World)
    requires Inv(w) && SlotsHandedOut(w) && Run(w, es, w')
    ensures SlotsHandedOut(w')
    decreases |es|
  {
    if es != [] {
      StepKeeps(w, es[0]);
      SlotsStep(w, es[0]);
      SlotsAlwaysHandedOut(Next(w, es[0]), es[1..], w');
    }
  }

  lemma ReferringOwns(w: World, c: nat)
    requires Inv(w) && SlotsHandedOut(w) && Refers(w, c)
    ensures OwnsSlot(w, c)
  {
    var o := w.procs[c].kind.slot;
    assert HandedOut(w, o);
    forall o': nat | o' < |w.ofds| && w.ofds[o'].locked && w.ofds[o'].file.OwnerLock? ensures o' == o {
      LockedOnce(w, o, o');
    }
  }

  lemma LockedOnce(w: World, o: nat, o': nat)
    requires LocksExclusive(w) && o < |w.ofds| && o' < |w.ofds|
    requires w.ofds[o].locked && w.ofds[o'].locked && w.ofds[o].file == w.ofds[o'].file
    ensures o == o'
  {
  }

  /** In every reachable world, also one where children closed descriptors: two live
      children that still refer to their descriptions are the same one, and it owns
      the slot; and at a spawn there is none. */
  lemma OneReferring(es: seq<Event>, w: World)
    requires Run(INIT, es, w)
    ensures forall c: nat :: Refers(w, c) ==> OwnsSlot(w, c)
    ensures forall c: nat, c': nat :: Refers(w, c) && Refers(w, c') ==> c == c'
    ensures forall e, c: nat :: Enabled(w, e) && e.Spawn? ==> !Refers(w, c)
  {
    RunInv(es, w);
    SlotsAlwaysHandedOut(INIT, es, w);
    forall c: nat | Refers(w, c) ensures OwnsSlot(w, c) { ReferringOwns(w, c); }
    forall c: nat, c': nat | Refers(w, c) && Refers(w, c') ensures c == c' { SlotDetermines(w, c, c'); }
    forall e, c: nat | Enabled(w, e) && e.Spawn? ensures !Refers(w, c) {
      assert StarterOk(w, e.d);
      if Refers(w, c) { ReferringOwns(w, c); }
    }
  }

  /** Main result: as long as no child closes its last reference to the description,
      at most one `opencode serve` of the project is alive, and it owns the slot. */
  lemma SlotExclusion(es: seq<Event>, w: World)
    requires Run(INIT, es, w)
    requires forall k :: 0 <= k < |es| ==> !(es[k].CloseFd3? && es[k].last)
    ensures forall c: nat, c': nat :: IsLive(w, c) && IsServe(w, c) && IsLive(w, c') && IsServe(w, c') ==> c == c'
    ensures forall c: nat :: IsLive(w, c) && IsServe(w, c) ==> OwnsSlot(w, c)
  {
    AllRefer(INIT, es, w);
    OneReferring(es, w);
  }

  // ----- nobody spawns beside a held slot ---------------------------------------------

  /** The starter that opened `o` is done with it. */
  ghost predicate PastSpawn(w: World, o: nat) {
    forall d :: 0 <= d < |w.threads| && w.threads[d].owner == Some(o) ==> w.threads[d].child.Some?
  }

  lemma HeldSlotBlocksStep(w: World, o: nat, e: Event)
    requires Inv(w) && HandedOut(w, o) && PastSpawn(w, o) && Enabled(w, e) && w.ofds[o].refs != {}
    ensures !e.Spawn? && PastSpawn(Next(w, e), o)
  {
    assert !e.Spawn? by {
      if Actor(e).Some? { assert StarterOk(w, Actor(e).value); }
    }
    var w' := Next(w, e);
    forall d | 0 <= d < |w'.threads| && w'.threads[d].owner == Some(o) ensures w'.threads[d].child.Some? {
      if d >= |w.threads| {
        NewLocals(w, e, d);
      } else if Actor(e) == Some(d) {
        PastSpawnOwnStep(w, o, e, d);
      } else if Actor(e).Some? {
        StarterStepKeepsLocals(w, e, d);
      } else {
        EnvironmentKeepsLocals(w, e, d);
      }
    }
  }

  lemma PastSpawnOwnStep(w: World, o: nat, e: Event, d: nat)
    requires Enabled(w, e) && Actor(e) == Some(d) && o < |w.ofds|
    requires w.threads[d].owner == Some(o) ==> w.threads[d].child.Some?
    ensures Next(w, e).threads[d].owner == Some(o) ==> Next(w, e).threads[d].child.Some?
  {
  }

  /** While anything refers to a child's description, through any number of
      starters and crashes and with or without a state file, no one spawns. */
  lemma {:induction false} HeldSlotBlocksSpawns(w: World, o: nat, es: seq<Event>, w': World)
    requires Inv(w) && HandedOut(w, o) && PastSpawn(w, o) && Run(w, es, w')
    requires o < |w'.ofds| && w'.ofds[o].refs != {}
    ensures forall k :: 0 <= k < |es| ==> !es[k].Spawn?
    decreases |es|
  {
    OwnershipIsCoextensive(w, o, es, w');
    if es != [] {
      HandedOutStep(w, o, es[0]);
      HeldSlotBlocksStep(w, o, es[0]);
      StepKeeps(w, es[0]);
      HeldSlotBlocksSpawns(Next(w, es[0]), o, es[1..], w');
      forall k | 0 <= k < |es| ensures !es[k].Spawn? {
        if k > 0 { assert es[k] == es[1..][k - 1]; }
      }
    }
  }

  // ----- what others cannot change for a starter -----------------------------------------

  /** An event that is not the starter's own, and neither kills nor replaces it. */
  predicate ByOthers(d: nat, e: Event) {
    Actor(e) != Some(d) && e != Exit(d) && e != Reexec(d)
  }

  ghost predicate SameLock(w: World, w': World, o: Option<nat>) {
    o.Some? ==> o.value < |w.ofds| && o.value < |w'.ofds| && w'.ofds[o.value].locked == w.ofds[o.value].locked
  }

  /** The part of the world that belongs to starter `d`. */
  ghost predicate Undisturbed(d: nat, w: World, w': World) {
    && LiveDaemon(w, d) && LiveDaemon(w', d)
    && |w.procs| <= |w'.procs|
    && w'.threads[d] == w.threads[d]
    && SameLock(w, w', w.threads[d].starter)
    && SameLock(w, w', w.threads[d].probe)
    && SameLock(w, w', w.threads[d].owner)
    && |w.log| <= |w'.log| && w'.log[..|w.log|] == w.log
    && (forall k :: |w.log| <= k < |w'.log| ==> w'.log[k].writer != d)
    && |w.signals| <= |w'.signals| && w'.signals[..|w.signals|] == w.signals
    && (forall k :: |w.signals| <= k < |w'.signals| ==> w'.signals[k].sender != d)
    && (forall p :: 0 <= p < |w.procs| ==> SameIdentity(w.procs[p], w'.procs[p]))
  }

  /** An incarnation stays what it is, and does not come back to life. */
  predicate SameIdentity(x: Proc, x': Proc) {
    && x'.pid == x.pid && x'.parent == x.parent && x'.kind == x.kind && x'.claims == x.claims
    && (x'.status.Live? ==> x.status.Live?)
    && (x.vetted ==> x'.vetted) && (x.portOwned ==> x'.portOwned)
  }

  /** No live starter has a descriptor that another one has open. */
  lemma NotShared(w: World, d: nat, a: nat, o: nat)
    requires Inv(w) && LiveDaemon(w, d) && LiveDaemon(w, a) && a != d && o < |w.ofds| && d in w.ofds[o].refs
    ensures w.threads[a].starter != Some(o) && w.threads[a].probe != Some(o) && w.threads[a].owner != Some(o)
  {
    assert StarterOk(w, a) && StarterOk(w, d) && OfdOk(w, o) && RefOk(w, o, d);
    if w.threads[a].owner == Some(o) && Holds(w, d) { OneHolder(w, d, a); }
  }

  /** A starter's step leaves every description alone that is not its own. */
  lemma StarterStepKeepsOfd(w: World, e: Event, a: nat, o: nat)
    requires Enabled(w, e) && Actor(e) == Some(a) && o < |w.ofds|
    requires w.threads[a].starter != Some(o) && w.threads[a].probe != Some(o) && w.threads[a].owner != Some(o)
    ensures o < |Next(w, e).ofds| && Next(w, e).ofds[o] == w.ofds[o]
  {
    if e.OpenStarter? || e.OpenProbe? || e.OpenOwner? {
      OpenKeepsOfds(w, e, o);
    }
  }

  lemma OpenKeepsOfds(w: World, e: Event, o: nat)
    requires Enabled(w, e) && o < |w.ofds| && (e.OpenStarter? || e.OpenProbe? || e.OpenOwner?)
    ensures o < |Next(w, e).ofds| && Next(w, e).ofds[o] == w.ofds[o]
  {
  }

  /** A step of the environment keeps the lock of a description that `d` has open. */
  lemma EnvironmentKeepsLock(w: World, e: Event, d: nat, o: nat)
    requires Enabled(w, e) && Actor(e).None? && ByOthers(d, e) && LiveDaemon(w, d)
    requires o < |w.ofds| && d in w.ofds[o].refs
    ensures o < |Next(w, e).ofds| && Next(w, e).ofds[o].locked == w.ofds[o].locked
  {
  }

  lemma OthersKeepLock(d: nat, w: World, e: Event, o: nat)
    requires Inv(w) && LiveDaemon(w, d) && Enabled(w, e) && ByOthers(d, e)
    requires o < |w.ofds| && d in w.ofds[o].refs
    ensures o < |Next(w, e).ofds| && Next(w, e).ofds[o].locked == w.ofds[o].locked
  {
    if Actor(e).Some? {
      NotShared(w, d, Actor(e).value, o);
      StarterStepKeepsOfd(w, e, Actor(e).value, o);
    } else {
      EnvironmentKeepsLock(w, e, d, o);
    }
  }

  lemma UndisturbedLocks(d: nat, w: World, e: Event)
    requires Inv(w) && LiveDaemon(w, d) && Enabled(w, e) && ByOthers(d, e)
    ensures SameLock(w, Next(w, e), w.threads[d].starter)
    ensures SameLock(w, Next(w, e), w.threads[d].probe)
    ensures SameLock(w, Next(w, e), w.threads[d].owner)
  {
    assert StarterOk(w, d);
    var t := w.threads[d];
    if t.starter.Some? { OthersKeepLock(d, w, e, t.starter.value); }
    if t.probe.Some? { OthersKeepLock(d, w, e, t.probe.value); }
    if t.owner.Some? { OthersKeepLock(d, w, e, t.owner.value); }
  }

  lemma LocalsKept(d: nat, w: World, e: Event)
    requires |w.procs| == |w.threads| && LiveDaemon(w, d) && Enabled(w, e) && ByOthers(d, e)
    ensures LiveDaemon(Next(w, e), d) && Next(w, e).threads[d] == w.threads[d]
  {
    if Actor(e).Some? {
      StarterStepKeepsLocals(w, e, d);
    } else {
      EnvironmentKeepsLocals(w, e, d);
    }
  }

  lemma StarterStepKeepsLocals(w: World, e: Event, d: nat)
    requires |w.procs| == |w.threads| && Enabled(w, e) && Actor(e).Some? && Actor(e) != Some(d) && d < |w.threads|
    ensures d < |Next(w, e).threads| == |Next(w, e).procs| && Next(w, e).threads[d] == w.threads[d]
    ensures LiveDaemon(w, d) ==> LiveDaemon(Next(w, e), d)
  {
  }

  /** Only its own end or replacement takes a starter's locals from it. */
  lemma EnvironmentKeepsLocals(w: World, e: Event, d: nat)
    requires |w.procs| == |w.threads| && Enabled(w, e) && Actor(e).None? && d < |w.threads|
    ensures d < |Next(w, e).threads| == |Next(w, e).procs|
    ensures ByOthers(d, e) ==> Next(w, e).threads[d] == w.threads[d]
    ensures e == Exit(d) ==> Next(w, e).threads[d] == NO_TRANSACTION
    ensures e == Reexec(d) ==> Next(w, e).threads[d] == NO_TRANSACTION.(writes := w.threads[d].writes)
    ensures LiveDaemon(w, d) && e != Exit(d) ==> LiveDaemon(Next(w, e), d)
  {
  }

  /** A process that appears has no locals yet. */
  lemma NewLocals(w: World, e: Event, d: nat)
    requires |w.procs| == |w.threads| && Enabled(w, e) && |w.threads| <= d < |Next(w, e).threads|
    ensures Next(w, e).threads[d] == NO_TRANSACTION
  {
  }

  ghost predicate IdentitiesOnward(w: World, w': World) {
    && |w.procs| <= |w'.procs|
    && forall p :: 0 <= p < |w.procs| ==> SameIdentity(w.procs[p], w'.procs[p])
  }

  lemma StarterStepKeepsIdentities(w: World, e: Event)
    requires Enabled(w, e) && Actor(e).Some?
    ensures IdentitiesOnward(w, Next(w, e))
  {
  }

  lemma EnvironmentKeepsIdentities(w: World, e: Event)
    requires Enabled(w, e) && Actor(e).None?
    ensures IdentitiesOnward(w, Next(w, e))
  {
  }

  lemma IdentitiesKept(w: World, e: Event)
    requires Enabled(w, e)
    ensures |w.procs| <= |Next(w, e).procs|
    ensures forall p :: 0 <= p < |w.procs| ==> SameIdentity(w.procs[p], Next(w, e).procs[p])
  {
    if Actor(e).Some? { StarterStepKeepsIdentities(w, e); } else { EnvironmentKeepsIdentities(w, e); }
  }

  lemma UndisturbedStep(d: nat, w: World, e: Event)
    requires Inv(w) && LiveDaemon(w, d) && Enabled(w, e) && ByOthers(d, e)
    ensures Undisturbed(d, w, Next(w, e))
  {
    LocalsKept(d, w, e);
    UndisturbedLocks(d, w, e);
    IdentitiesKept(w, e);
  }

  lemma UndisturbedTrans(d: nat, w: World, w': World, w'': World)
    requires Undisturbed(d, w, w') && Undisturbed(d, w', w'')
    ensures Undisturbed(d, w, w'')
  {
    forall k | |w.log| <= k < |w''.log| ensures w''.log[k].writer != d {
      if k < |w'.log| { assert w''.log[k] == w''.log[..|w'.log|][k]; }
    }
    assert w''.log[..|w.log|] == w''.log[..|w'.log|][..|w.log|];
    forall k | |w.signals| <= k < |w''.signals| ensures w''.signals[k].sender != d {
      if k < |w'.signals| { assert w''.signals[k] == w''.signals[..|w'.signals|][k]; }
    }
    assert w''.signals[..|w.signals|] == w''.signals[..|w'.signals|][..|w.signals|];
  }

  lemma {:induction false} UndisturbedRun(d: nat, w: World, es: seq<Event>, w': World)
    requires Inv(w) && LiveDaemon(w, d) && Run(w, es, w')
    requires forall k :: 0 <= k < |es| ==> ByOthers(d, es[k])
    ensures Undisturbed(d, w, w')
    decreases |es|
  {
    if es == [] {
      assert StarterOk(w, d);
    } else {
      UndisturbedStep(d, w, es[0]);
      StepKeeps(w, es[0]);
      forall k | 0 <= k < |es[1..]| ensures ByOthers(d, es[1..][k]) { assert es[1..][k] == es[k + 1]; }
      UndisturbedRun(d, Next(w, es[0]), es[1..], w');
      UndisturbedTrans(d, w, Next(w, es[0]), w');
    }
  }

  // ----- probe stability -----------------------------------------------------------------

  /** Once a starter has seen the owner lock free and closed its probe, the lock
      stays free whatever the others do: its own open and flock of the owner
      file cannot meet contention. */
  lemma ProbeIsStable(d: nat, w: World, es: seq<Event>, w': World)
    requires Inv(w) && LiveDaemon(w, d) && w.threads[d].sawFree && w.threads[d].probe.None? && w.threads[d].owner.None?
    requires Run(w, es, w')
    requires forall k :: 0 <= k < |es| ==> ByOthers(d, es[k])
    ensures Free(w', OwnerLock) && LiveDaemon(w', d)
    ensures w'.threads[d].child.None? ==> Enabled(w', OpenOwner(d))
  {
    RunKeeps(w, es, w');
    UndisturbedRun(d, w, es, w');
    assert StarterOk(w', d);
  }

  lemma NoContention(d: nat, w: World)
    requires Inv(w) && LiveDaemon(w, d) && w.threads[d].owner.Some?
    ensures w.threads[d].owner.value < |w.ofds|
    ensures !w.ofds[w.threads[d].owner.value].locked ==> Enabled(w, LockOwner(d))
  {
    assert StarterOk(w, d);
  }

  // ----- the state file --------------------------------------------------------------------

  /** Stale or exact: the recorded incarnation passed both checks before it was
      recorded, and if it is alive with its fd 3 it owns the slot and no other
      child does. */
  lemma StateFileIsStaleOrExact(es: seq<Event>, w: World)
    requires Run(INIT, es, w) && w.file.Some?
    ensures var r := w.file.value;
            && IsServe(w, r.inc) && w.procs[r.inc].pid == r.pid && w.procs[r.inc].kind.port == r.port
            && w.procs[r.inc].vetted && w.procs[r.inc].portOwned
            && (Covered(w, r.inc) ==> OwnsSlot(w, r.inc) && forall c: nat :: Covered(w, c) ==> c == r.inc)
  {
    RunInv(es, w);
    var r := w.file.value;
    if Covered(w, r.inc) {
      CoveredOwns(w, r.inc);
      forall c: nat | Covered(w, c) ensures c == r.inc { OneCovered(w, c, r.inc); }
    }
  }

  /** Only a holder of the starter lock writes a record that was not there before. */
  lemma PublicationStep(w: World, e: Event)
    requires Inv(w) && Enabled(w, e)
    requires Next(w, e).log != w.log
             || (Next(w, e).file.Some? && forall k :: 0 <= k < |w.log| ==> Next(w, e).file != Some(w.log[k].rec))
    requires w.file.Some? ==> exists k :: 0 <= k < |w.log| && w.file == Some(w.log[k].rec)
    ensures e.Publish? && Holds(w, e.d) && w.threads[e.d].child.Some?
    ensures var c := w.threads[e.d].child.value;
            && ChildOk(w, e.d, c) && w.procs[c].vetted && w.procs[c].portOwned && !w.procs[c].status.Gone?
            && w.threads[e.d].owner.None?
            && Next(w, e).log == w.log + [Publication(e.d, Rec(w.procs[c].pid, w.procs[c].kind.port, c))]
            && forall d: nat :: Holds(w, d) ==> d == e.d
  {
    var d := e.d;
    assert StarterOk(w, d);
    forall d': nat | Holds(w, d') ensures d' == d { OneHolder(w, d', d); }
  }

  /** What the file says was published, or there is no file. */
  lemma {:induction false} FileWasPublished(w: World, es: seq<Event>, w': World)
    requires Run(w, es, w')
    requires w.file.Some? ==> exists k :: 0 <= k < |w.log| && w.file == Some(w.log[k].rec)
    ensures w'.file.Some? ==> exists k :: 0 <= k < |w'.log| && w'.file == Some(w'.log[k].rec)
    decreases |es|
  {
    if es != [] {
      var v := Next(w, es[0]);
      if w.file.Some? {
        var k :| 0 <= k < |w.log| && w.file == Some(w.log[k].rec);
        assert v.file == w.file ==> v.log[k] == w.log[k];
      }
      match es[0] {
        case Publish(_) => assert v.file == Some(v.log[|w.log|].rec);
        case RevertFile(k) => assert v.file == Some(v.log[k].rec);
        case _ =>
      }
      FileWasPublished(v, es[1..], w');
    }
  }

  // ----- where exclusion ends: a child that closes its descriptors ---------------------------

  ghost predicate IdleStarter(w: World, d: nat) {
    && |w.procs| == |w.threads| && LiveDaemon(w, d)
    && w.threads[d].starter.None? && w.threads[d].probe.None? && w.threads[d].owner.None? && w.threads[d].child.None?
  }

  /** Nothing was written to the state file. */
  predicate SameRecords(w: World, w': World) {
    w'.file == w.file && w'.log == w.log
  }

  predicate AllBy(d: nat, es: seq<Event>) {
    forall k :: 0 <= k < |es| ==> Actor(es[k]) == Some(d)
  }

  /** Holding the starter lock, nothing else open. */
  ghost predicate Ready(w: World, d: nat) {
    && |w.procs| == |w.threads| && LiveDaemon(w, d) && Holds(w, d)
    && w.threads[d].probe.None? && w.threads[d].owner.None? && w.threads[d].child.None?
  }

  lemma TakeStarter(w: World, d: nat) returns (es: seq<Event>, w': World)
    requires IdleStarter(w, d) && Free(w, SpawnLock) && Free(w, OwnerLock)
    ensures Run(w, es, w') && AllBy(d, es)
    ensures Ready(w', d) && Free(w', OwnerLock) && w'.procs == w.procs && SameRecords(w, w')
  {
    var v := Next(w, OpenStarter(d));
    w' := Next(v, LockStarter(d));
    es := [OpenStarter(d), LockStarter(d)];
    assert Run(v, [LockStarter(d)], w');
    assert es[1..] == [LockStarter(d)];
  }

  /** In the middle of a probe that was granted. */
  ghost predicate Probing(w: World, d: nat) {
    && |w.procs| == |w.threads| && LiveDaemon(w, d) && Holds(w, d)
    && w.threads[d].owner.None? && w.threads[d].child.None? && w.threads[d].sawFree
    && w.threads[d].probe.Some? && w.threads[d].probe.value < |w.ofds| && w.threads[d].starter != w.threads[d].probe
    && w.ofds[w.threads[d].probe.value].locked
    && forall o :: 0 <= o < |w.ofds| && w.ofds[o].locked && w.ofds[o].file.OwnerLock? ==> o == w.threads[d].probe.value
  }

  lemma StartProbe(w: World, d: nat) returns (es: seq<Event>, w': World)
    requires Ready(w, d) && Free(w, OwnerLock)
    ensures Run(w, es, w') && AllBy(d, es) && Probing(w', d) && w'.procs == w.procs && SameRecords(w, w')
  {
    var v := Next(w, OpenProbe(d));
    w' := Next(v, LockProbe(d));
    es := [OpenProbe(d), LockProbe(d)];
    assert Run(v, [LockProbe(d)], w');
    assert es[1..] == [LockProbe(d)];
  }

  lemma EndProbe(w: World, d: nat) returns (es: seq<Event>, w': World)
    requires Probing(w, d)
    ensures Run(w, es, w') && AllBy(d, es)
    ensures Ready(w', d) && Free(w', OwnerLock) && w'.procs == w.procs && SameRecords(w, w') && w'.threads[d].sawFree
  {
    var v := Next(w, UnlockProbe(d));
    w' := Next(v, CloseProbe(d));
    es := [UnlockProbe(d), CloseProbe(d)];
    assert Run(v, [CloseProbe(d)], w');
    assert es[1..] == [CloseProbe(d)];
  }

  lemma TakeOwnerAndSpawn(w: World, d: nat, pid: int, port: int) returns (es: seq<Event>, w': World)
    requires Ready(w, d) && Free(w, OwnerLock) && w.threads[d].sawFree && FreshPid(w, pid) && port > 0
    ensures Run(w, es, w') && |w'.procs| == |w.procs| + 1 && w'.procs[..|w.procs|] == w.procs
    ensures IsLive(w', |w.procs|) && IsServe(w', |w.procs|)
    ensures AllBy(d, es) && es != [] && es[|es| - 1].Spawn?
  {
    var es1, v := TakeOwner(w, d);
    w' := Next(v, Spawn(d, pid, port, {port}));
    RunThen(w, es1, v, Spawn(d, pid, port, {port}));
    es := es1 + [Spawn(d, pid, port, {port})];
  }

  lemma TakeOwner(w: World, d: nat) returns (es: seq<Event>, w': World)
    requires Ready(w, d) && Free(w, OwnerLock) && w.threads[d].sawFree
    ensures Run(w, es, w') && AllBy(d, es) && w'.procs == w.procs && SameRecords(w, w')
    ensures |w'.threads| == |w.threads| && LiveDaemon(w', d) && Holds(w', d)
    ensures var t := w'.threads[d];
            && t.probe.None? && t.child.None? && t.owner.Some?
            && t.owner.value < |w'.ofds| && w'.ofds[t.owner.value].locked
  {
    var v := Next(w, OpenOwner(d));
    w' := Next(v, LockOwner(d));
    es := [OpenOwner(d), LockOwner(d)];
    assert Run(v, [LockOwner(d)], w');
    assert es[1..] == [LockOwner(d)];
  }

  /** A starter that finds both locks free can always complete its spawn. */
  lemma FreeSlotCanBeTaken(w: World, d: nat, pid: int, port: int) returns (es: seq<Event>, w': World)
    requires IdleStarter(w, d) && Free(w, SpawnLock) && Free(w, OwnerLock) && FreshPid(w, pid) && port > 0
    ensures Run(w, es, w') && |w'.procs| == |w.procs| + 1 && w'.procs[..|w.procs|] == w.procs
    ensures IsLive(w', |w.procs|) && IsServe(w', |w.procs|)
    ensures AllBy(d, es) && es != [] && es[|es| - 1].Spawn?
  {
    var es1, v := TakeStarter(w, d);
    var es2, v' := ProbeAndSpawn(v, d, pid, port);
    RunConcat(w, es1, v, es2, v');
    es, w' := es1 + es2, v';
  }

  lemma ProbeAndSpawn(w: World, d: nat, pid: int, port: int) returns (es: seq<Event>, w': World)
    requires Ready(w, d) && Free(w, OwnerLock) && FreshPid(w, pid) && port > 0
    ensures Run(w, es, w') && |w'.procs| == |w.procs| + 1 && w'.procs[..|w.procs|] == w.procs
    ensures IsLive(w', |w.procs|) && IsServe(w', |w.procs|)
    ensures AllBy(d, es) && es != [] && es[|es| - 1].Spawn?
  {
    var es1, v := LookFree(w, d);
    var es2, v' := TakeOwnerAndSpawn(v, d, pid, port);
    RunConcat(w, es1, v, es2, v');
    es, w' := es1 + es2, v';
  }

  /** A whole probe that was granted. */
  lemma LookFree(w: World, d: nat) returns (es: seq<Event>, w': World)
    requires Ready(w, d) && Free(w, OwnerLock)
    ensures Run(w, es, w') && AllBy(d, es)
    ensures Ready(w', d) && Free(w', OwnerLock) && w'.procs == w.procs && SameRecords(w, w') && w'.threads[d].sawFree
  {
    var es1, v := StartProbe(w, d);
    var es2, v' := EndProbe(v, d);
    RunConcat(w, es1, v, es2, v');
    es, w' := es1 + es2, v';
  }

  /** Others have exited: `c` is what it was, and references and locks only went. */
  ghost predicate Dwindled(w: World, w': World, c: nat) {
    && |w'.procs| == |w.procs| && |w'.threads| == |w.threads| && |w'.ofds| == |w.ofds|
    && (c < |w.procs| ==> w'.procs[c] == w.procs[c])
    && (c < |w.threads| ==> w'.threads[c] == w.threads[c])
    && forall o :: 0 <= o < |w.ofds| ==>
         && w'.ofds[o] == w.ofds[o].(refs := w'.ofds[o].refs, locked := w'.ofds[o].locked)
         && w'.ofds[o].refs <= w.ofds[o].refs && (w'.ofds[o].locked ==> w.ofds[o].locked)
  }

  lemma ExitDwindles(w: World, v: World, c: nat, p: nat)
    requires Dwindled(w, v, c) && IsLive(v, p) && p != c
    ensures Dwindled(w, Next(v, Exit(p)), c)
    ensures forall q :: 0 <= q < |v.procs| && !v.procs[q].status.Live? ==> !Next(v, Exit(p)).procs[q].status.Live?
    ensures !IsLive(Next(v, Exit(p)), p)
  {
  }

  predicate OnlyExits(es: seq<Event>, c: nat) {
    forall k :: 0 <= k < |es| ==> es[k].Exit? && es[k].p != c
  }

  /** All processes below `n` but `c` exit. */
  lemma {:induction false} OthersExit(w: World, c: nat, n: nat) returns (es: seq<Event>, w': World)
    requires Inv(w) && n <= |w.procs|
    ensures Run(w, es, w') && Inv(w') && OnlyExits(es, c) && Dwindled(w, w', c)
    ensures forall p :: 0 <= p < n && p != c ==> !w'.procs[p].status.Live?
  {
    if n == 0 {
      es, w' := [], w;
    } else {
      es, w' := OthersExit(w, c, n - 1);
      if n - 1 != c && IsLive(w', n - 1) {
        es, w' := OneMoreExits(w, es, w', c, n - 1);
      }
    }
  }

  lemma OneMoreExits(w: World, es: seq<Event>, v: World, c: nat, p: nat) returns (es': seq<Event>, w': World)
    requires Run(w, es, v) && Inv(v) && OnlyExits(es, c) && Dwindled(w, v, c) && IsLive(v, p) && p != c
    ensures Run(w, es', w') && Inv(w') && OnlyExits(es', c) && Dwindled(w, w', c) && !IsLive(w', p)
    ensures forall q :: 0 <= q < |v.procs| && !v.procs[q].status.Live? ==> !w'.procs[q].status.Live?
  {
    StepKeeps(v, Exit(p));
    ExitDwindles(w, v, c, p);
    RunThen(w, es, v, Exit(p));
    es', w' := es + [Exit(p)], Next(v, Exit(p));
  }

  lemma {:induction false} APidIsFree(procs: seq<Proc>) returns (pid: int)
    ensures pid > 0 && forall p :: 0 <= p < |procs| ==> procs[p].pid < pid
  {
    if procs == [] {
      pid := 1;
    } else {
      pid := APidIsFree(procs[..|procs| - 1]);
      var last := procs[|procs| - 1].pid;
      forall p | 0 <= p < |procs| - 1 ensures procs[p].pid < pid { assert procs[..|procs| - 1][p] == procs[p]; }
      pid := if last < pid then pid else last + 1;
    }
  }

  /** When nobody but `c` is alive and `c` has no reference, nothing is locked. */
  lemma NothingLocked(w: World, c: nat)
    requires Inv(w) && IsServe(w, c) && !Refers(w, c)
    requires forall p :: 0 <= p < |w.procs| && p != c ==> !w.procs[p].status.Live?
    ensures Free(w, SpawnLock) && Free(w, OwnerLock)
  {
    forall o: nat | o < |w.ofds| ensures !w.ofds[o].locked {
      assert OfdOk(w, o);
      forall p | p in w.ofds[o].refs ensures p == c { assert RefOk(w, o, p); }
      assert c in w.ofds[o].refs ==> RefOk(w, o, c);
    }
  }

  /** A fresh daemon takes a free slot. */
  lemma NewDaemonSpawns(w: World) returns (es: seq<Event>, w': World)
    requires Inv(w) && Free(w, SpawnLock) && Free(w, OwnerLock)
    ensures Run(w, es, w') && es != [] && es[|es| - 1].Spawn?
    ensures forall k :: 0 <= k < |es| ==> es[k].Boot? || Actor(es[k]).Some?
    ensures |w'.procs| == |w.procs| + 2 && w'.procs[..|w.procs|] == w.procs
    ensures IsLive(w', |w.procs| + 1) && IsServe(w', |w.procs| + 1)
  {
    var pid := APidIsFree(w.procs);
    var v := Next(w, Boot(pid));
    var fs;
    fs, w' := FreeSlotCanBeTaken(v, |w.procs|, pid + 1, 1);
    es := [Boot(pid)] + fs;
    assert es[1..] == fs;
    assert w'.procs[..|w.procs|] == w'.procs[..|v.procs|][..|w.procs|];
  }

  /** The child neither exits nor closes its last reference. */
  predicate Spares(es: seq<Event>, c: nat) {
    forall k :: 0 <= k < |es| ==> es[k] != Exit(c) && es[k] != CloseFd3(c, true)
  }

  /** A live child without a reference gets a second one beside it. */
  lemma VacatedSlotIsTaken(w: World, c: nat) returns (es: seq<Event>, w': World)
    requires Inv(w) && IsLive(w, c) && IsServe(w, c) && !Refers(w, c)
    ensures Run(w, es, w') && Spares(es, c) && es != [] && es[|es| - 1].Spawn?
    ensures IsLive(w', c) && IsServe(w', c)
    ensures exists c': nat :: c' != c && IsLive(w', c') && IsServe(w', c')
  {
    var es1, w1 := OthersExit(w, c, |w.procs|);
    NothingLocked(w1, c);
    var es2, w2 := NewDaemonSpawns(w1);
    RunConcat(w, es1, w1, es2, w2);
    SparesBoth(es1, es2, c);
    es, w' := es1 + es2, w2;
    StillLive(w1, w', c);
    assert IsLive(w', |w1.procs| + 1) && IsServe(w', |w1.procs| + 1);
  }

  lemma SparesBoth(es: seq<Event>, fs: seq<Event>, c: nat)
    requires OnlyExits(es, c)
    requires forall k :: 0 <= k < |fs| ==> fs[k].Boot? || Actor(fs[k]).Some?
    ensures Spares(es + fs, c) && Lives(es + fs, c)
  {
  }

  lemma StillLive(w: World, w': World, c: nat)
    requires IsLive(w, c) && IsServe(w, c) && |w.procs| <= |w'.procs| && w'.procs[..|w.procs|] == w.procs
    ensures IsLive(w', c) && IsServe(w', c)
  {
    assert w'.procs[c] == w'.procs[..|w.procs|][c];
  }

  /** So exclusion rests on that reference: whenever a child gives up its last one, a
      run leads to two live children. */
  lemma ClosedFd3AdmitsSecondChild(w: World, c: nat) returns (es: seq<Event>, w': World)
    requires Inv(w) && Enabled(w, CloseFd3(c, true))
    ensures Run(w, es, w') && es != [] && es[0] == CloseFd3(c, true)
    ensures IsLive(w', c) && IsServe(w', c)
    ensures exists c': nat :: c' != c && IsLive(w', c') && IsServe(w', c')
  {
    var e := CloseFd3(c, true);
    var v := Next(w, e);
    StepKeeps(w, e);
    var fs;
    fs, w' := VacatedSlotIsTaken(v, c);
    es := [e] + fs;
    assert es[1..] == fs;
  }

  lemma LiveStep(w: World, e: Event, c: nat)
    requires Enabled(w, e) && IsLive(w, c) && e != Exit(c)
    ensures IsLive(Next(w, e), c)
  {
  }

  lemma {:induction false} RefersRun(w: World, es: seq<Event>, w': World, c: nat)
    requires Inv(w) && Refers(w, c) && Run(w, es, w') && Spares(es, c)
    ensures Refers(w', c) && w.procs[c].kind == w'.procs[c].kind
    decreases |es|
  {
    if es != [] {
      assert es[0] != Exit(c) && es[0] != CloseFd3(c, true);
      LiveStep(w, es[0], c);
      RefersStep(w, es[0], c);
      StepKeeps(w, es[0]);
      IdentitiesKept(w, es[0]);
      assert SameIdentity(w.procs[c], Next(w, es[0]).procs[c]);
      forall k | 0 <= k < |es[1..]| ensures es[1..][k] != Exit(c) && es[1..][k] != CloseFd3(c, true) {
        assert es[1..][k] == es[k + 1];
      }
      RefersRun(Next(w, es[0]), es[1..], w', c);
    }
  }

  predicate NoSpawn(es: seq<Event>) {
    forall k :: 0 <= k < |es| ==> !es[k].Spawn?
  }

  /** While `c` is left alone, nobody spawns. */
  ghost predicate Blocks(w: World, c: nat) {
    forall es, w' :: Run(w, es, w') && Spares(es, c) ==> NoSpawn(es)
  }

  /** Main result: in every reachable world a live child blocks all spawns, over every
      run in which it neither exits nor closes its last reference, exactly when it
      still has a reference to its description. */
  lemma ReferenceIsTheSlot(es0: seq<Event>, w: World, c: nat)
    requires Run(INIT, es0, w) && IsLive(w, c) && IsServe(w, c)
    ensures Blocks(w, c) <==> Refers(w, c)
  {
    RunInv(es0, w);
    SlotsAlwaysHandedOut(INIT, es0, w);
    if Refers(w, c) {
      var o := w.procs[c].kind.slot;
      forall d | 0 <= d < |w.threads| && w.threads[d].owner == Some(o) ensures w.threads[d].child.Some? {
        assert StarterOk(w, d);
      }
      forall es, w' | Run(w, es, w') && Spares(es, c) ensures NoSpawn(es) {
        RefersRun(w, es, w', c);
        HeldSlotBlocksSpawns(w, o, es, w');
      }
    } else {
      var es, w' := VacatedSlotIsTaken(w, c);
      assert es[|es| - 1].Spawn?;
    }
  }

  // ----- a daemon re-executes itself -----------------------------------------------------------

  /** A re-executed daemon keeps the descriptor it does not know of. */
  lemma StrandedStep(w: World, e: Event, d: nat, o: nat)
    requires Inv(w) && Enabled(w, e) && e != Exit(d) && LiveDaemon(w, d)
    requires o < |w.ofds| && w.ofds[o].stranded && d in w.ofds[o].refs
    ensures var v := Next(w, e); LiveDaemon(v, d) && o < |v.ofds| && v.ofds[o].stranded && d in v.ofds[o].refs
  {
    assert StarterOk(w, d) && OfdOk(w, o);
    if Actor(e).Some? {
      var a := Actor(e).value;
      assert StarterOk(w, a);
      assert w.threads[a].starter != Some(o) && w.threads[a].probe != Some(o) && w.threads[a].owner != Some(o);
      StarterStepKeepsOfd(w, e, a, o);
      LiveStep(w, e, d);
      IdentitiesKept(w, e);
    } else {
      StrandedEnvironmentStep(w, e, d, o);
    }
  }

  lemma StrandedEnvironmentStep(w: World, e: Event, d: nat, o: nat)
    requires Enabled(w, e) && Actor(e).None? && e != Exit(d) && LiveDaemon(w, d) && |w.procs| == |w.threads|
    requires o < |w.ofds| && w.ofds[o].stranded && !w.ofds[o].cloexec && d in w.ofds[o].refs
    ensures var v := Next(w, e); LiveDaemon(v, d) && o < |v.ofds| && v.ofds[o].stranded && d in v.ofds[o].refs
  {
  }

  lemma {:induction false} StrandedRun(w: World, es: seq<Event>, w': World, d: nat, o: nat)
    requires Inv(w) && Run(w, es, w') && LiveDaemon(w, d) && Lives(es, d)
    requires o < |w.ofds| && w.ofds[o].stranded && d in w.ofds[o].refs
    ensures o < |w'.ofds| && d in w'.ofds[o].refs
    decreases |es|
  {
    if es != [] {
      assert es[0] != Exit(d);
      StrandedStep(w, es[0], d, o);
      StepKeeps(w, es[0]);
      forall k | 0 <= k < |es[1..]| ensures es[1..][k] != Exit(d) { assert es[1..][k] == es[k + 1]; }
      StrandedRun(Next(w, es[0]), es[1..], w', d, o);
    }
  }

  /** `d` has the owner lock without knowing of it. */
  ghost predicate Strands(w: World, d: nat) {
    exists o :: 0 <= o < |w.ofds| && w.ofds[o].stranded && w.ofds[o].locked && d in w.ofds[o].refs
  }

  /** A daemon that re-executes itself is idle; it strands the owner lock when it had it
      taken, or stranded it before. */
  lemma ReexecStrands(w: World, d: nat)
    requires Inv(w) && LiveDaemon(w, d)
    ensures var v := Next(w, Reexec(d));
            && IdleStarter(v, d)
            && (Strands(v, d) <==>
                  || Strands(w, d)
                  || (w.threads[d].owner.Some? && w.threads[d].owner.value < |w.ofds|
                      && w.ofds[w.threads[d].owner.value].locked))
  {
    var v := Next(w, Reexec(d));
    assert StarterOk(w, d);
    if w.threads[d].owner.Some? {
      var o := w.threads[d].owner.value;
      assert v.ofds[o].stranded && d in v.ofds[o].refs;
    }
    forall o | 0 <= o < |w.ofds| && d in w.ofds[o].refs && !w.ofds[o].cloexec
      ensures v.ofds[o] == w.ofds[o].(stranded := true)
      ensures w.threads[d].owner == Some(o) || w.ofds[o].stranded
    {
      assert OfdOk(w, o) && RefOk(w, o, d);
    }
    StrandedKind(w, d);
    StepKeeps(w, Reexec(d));
    StrandedKind(v, d);
  }

  /** What a daemon strands is a description of the kind that children get. */
  lemma StrandedKind(w: World, d: nat)
    requires Inv(w) && LiveDaemon(w, d)
    ensures forall o :: 0 <= o < |w.ofds| && w.ofds[o].stranded && d in w.ofds[o].refs ==>
              !w.ofds[o].cloexec && w.ofds[o].file.OwnerLock? && PastSpawn(w, o)
  {
    forall o | 0 <= o < |w.ofds| && w.ofds[o].stranded && d in w.ofds[o].refs
      ensures !w.ofds[o].cloexec && w.ofds[o].file.OwnerLock? && PastSpawn(w, o)
    {
      assert OfdOk(w, o) && RefOk(w, o, d) && StarterOk(w, d);
      forall a | 0 <= a < |w.threads| ensures w.threads[a].owner != Some(o) { assert StarterOk(w, a); }
    }
  }

  predicate Lives(es: seq<Event>, d: nat) {
    forall k :: 0 <= k < |es| ==> es[k] != Exit(d)
  }

  /** While `d` lives, nobody spawns. */
  ghost predicate Jams(w: World, d: nat) {
    forall es, w' :: Run(w, es, w') && Lives(es, d) ==> NoSpawn(es)
  }

  /** When an idle daemon is all that is alive and strands nothing, nothing is locked. */
  lemma NothingStranded(w: World, d: nat)
    requires Inv(w) && IdleStarter(w, d) && !Strands(w, d)
    requires forall p :: 0 <= p < |w.procs| && p != d ==> !w.procs[p].status.Live?
    ensures Free(w, SpawnLock) && Free(w, OwnerLock)
  {
    forall o: nat | o < |w.ofds| ensures !w.ofds[o].locked {
      assert OfdOk(w, o);
      forall p | p in w.ofds[o].refs ensures p == d { assert RefOk(w, o, p); }
      assert d in w.ofds[o].refs ==> RefOk(w, o, d);
    }
  }

  lemma IdleDaemonYields(w: World, d: nat) returns (es: seq<Event>, w': World)
    requires Inv(w) && IdleStarter(w, d) && !Strands(w, d)
    ensures Run(w, es, w') && Lives(es, d) && es != [] && es[|es| - 1].Spawn?
  {
    var es1, w1 := OthersExit(w, d, |w.procs|);
    NothingStranded(w1, d);
    var es2, w2 := NewDaemonSpawns(w1);
    RunConcat(w, es1, w1, es2, w2);
    SparesBoth(es1, es2, d);
    es, w' := es1 + es2, w2;
  }

  /** Main result: an idle daemon blocks all spawns for as long as it lives exactly when
      it strands the owner lock. */
  lemma StrandedLockJams(w: World, d: nat)
    requires Inv(w) && IdleStarter(w, d)
    ensures Jams(w, d) <==> Strands(w, d)
  {
    if Strands(w, d) {
      var o :| 0 <= o < |w.ofds| && w.ofds[o].stranded && w.ofds[o].locked && d in w.ofds[o].refs;
      StrandedKind(w, d);
      forall es, w' | Run(w, es, w') && Lives(es, d) ensures NoSpawn(es) {
        StrandedRun(w, es, w', d, o);
        HeldSlotBlocksSpawns(w, o, es, w');
      }
    } else {
      var es, w' := IdleDaemonYields(w, d);
      assert es[|es| - 1].Spawn?;
    }
  }

  // ----- signals ---------------------------------------------------------------------------------

  /** A retained child is never reaped while its daemon lives, so its pid means it. */
  lemma RetainedPidIsPinned(es: seq<Event>, w: World, d: nat)
    requires Run(INIT, es, w) && d < |w.threads| && w.threads[d].retained.Some?
    ensures var c := w.threads[d].retained.value;
            && ChildOk(w, d, c) && !w.procs[c].status.Gone?
            && !Enabled(w, Reap(c))
            && forall p :: 0 <= p < |w.procs| && w.procs[p].pid == w.procs[c].pid ==> p == c || w.procs[p].status.Gone?
  {
    RunInv(es, w);
    assert StarterOk(w, d);
    var c := w.threads[d].retained.value;
    forall p | 0 <= p < |w.procs| && w.procs[p].pid == w.procs[c].pid ensures p == c || w.procs[p].status.Gone? {
      if p < c { assert w.procs[p].pid == w.procs[c].pid; }
    }
  }

  /** Every SIGTERM of a restart went to the sender's own child, or to a process
      that carried the recorded pid and port at that moment; and the latter was
      the recorded incarnation exactly when that had not been reaped. */
  lemma SignalsAreAttributed(es: seq<Event>, w: World, k: nat)
    requires Run(INIT, es, w) && k < |w.signals|
    ensures var s := w.signals[k];
            && s.target < |w.procs|
            && match s.recorded {
                 case None => IsServe(w, s.target) && w.procs[s.target].parent == s.sender
                 case Some(r) =>
                   && IsServe(w, r.inc) && w.procs[r.inc].pid == r.pid && w.procs[r.inc].kind.port == r.port
                   && w.procs[s.target].pid == r.pid && r.port in w.procs[s.target].claims
                   && (s.target == r.inc <==> !s.reaped)
               }
  {
    RunInv(es, w);
    assert SignalOk(w, w.signals[k]);
  }

  /** The other side of that condition is real: once the recorded incarnation is
      reaped, an unrelated process can take its pid, and one whose command line
      reads `opencode ... --port N` for the recorded port is signalled. */
  lemma RecycledPidIsSignalled(w: World, d: nat) returns (es: seq<Event>, w': World)
    requires Inv(w) && LiveDaemon(w, d) && Holds(w, d) && w.threads[d].child.None?
    requires w.file.Some? && FreshPid(w, w.file.value.pid)
    ensures Run(w, es, w')
    ensures |w'.signals| == |w.signals| + 1
    ensures var s := w'.signals[|w.signals|];
            && s.sender == d && s.recorded == w.file && s.target != w.file.value.inc
            && s.target == |w.procs| < |w'.procs| && w'.procs[s.target].kind.Other?
  {
    var r := w.file.value;
    assert RecOk(w, r);
    var e1 := Foreign(r.pid, {r.port});
    var v := Next(w, e1);
    var e2 := SignalRecorded(d, |w.procs|);
    assert Enabled(v, e2);
    w' := Next(v, e2);
    es := [e1, e2];
    assert es[1..] == [e2] && Run(v, [e2], w');
  }

  // ----- a starter is killed ---------------------------------------------------------------------

  /** SIGKILL of a starter at any boundary frees the starter lock, and leaves the
      owner lock either free or held by processes that are not starters, or one that
      re-executed itself in an earlier handoff; a child that was already started
      keeps the slot. */
  lemma CrashLeavesNoGap(w: World, d: nat)
    requires Inv(w) && LiveDaemon(w, d) && Holds(w, d)
    ensures var w' := Next(w, Exit(d));
            && Free(w', SpawnLock)
            && (forall c: nat :: Covered(w, c) ==> Covered(w', c) && OwnsSlot(w', c))
            && (forall o, p :: 0 <= o < |w'.ofds| && w'.ofds[o].file.OwnerLock? && w'.ofds[o].locked
                               && p in w'.ofds[o].refs ==>
                  IsLive(w', p) && (w'.procs[p].kind.Daemon? ==> w'.ofds[o].stranded && w'.ofds[o].opener == p))
  {
    var w' := Next(w, Exit(d));
    StepKeeps(w, Exit(d));
    assert StarterOk(w, d);
    forall c: nat | Covered(w, c) ensures Covered(w', c) && OwnsSlot(w', c) {
      CoveredOwns(w', c);
    }
    forall o, p | 0 <= o < |w'.ofds| && w'.ofds[o].file.OwnerLock? && w'.ofds[o].locked && p in w'.ofds[o].refs
      ensures IsLive(w', p) && (w'.procs[p].kind.Daemon? ==> w'.ofds[o].stranded && w'.ofds[o].opener == p)
    {
      assert OfdOk(w', o) && RefOk(w', o, p);
      if w'.procs[p].kind.Daemon? { NoOtherHolder(w, d, p, o); }
    }
  }

  lemma NoOtherHolder(w: World, d: nat, p: nat, o: nat)
    requires Inv(w) && Holds(w, d) && p < |w.threads| && p != d
    ensures w.threads[p].owner.None? && w.threads[p].probe.None?
    ensures w.threads[p].starter == Some(o) && o < |w.ofds| ==> w.ofds[o].file.SpawnLock?
  {
    assert StarterOk(w, p);
    if Holds(w, p) { OneHolder(w, d, p); }
  }

  /** Some run leads here. */
  ghost predicate Reachable(w: World) {
    exists es :: Run(INIT, es, w)
  }

  lemma ReachableInv(w: World)
    requires Reachable(w)
    ensures Inv(w)
  {
    var es :| Run(INIT, es, w);
    RunInv(es, w);
  }

  lemma ReachableNext(w: World, e: Event)
    requires Reachable(w) && Enabled(w, e)
    ensures Reachable(Next(w, e))
  {
    var es :| Run(INIT, es, w);
    RunThen(INIT, es, w, e);
  }

  // ----- who wrote what ------------------------------------------------------------------------------

  function WrittenBy(log: seq<Publication>, d: nat): seq<Rec> {
    if log == [] then []
    else
      var rest := WrittenBy(log[..|log| - 1], d);
      if log[|log| - 1].writer == d then rest + [log[|log| - 1].rec] else rest
  }

  ghost predicate WritesMatch(w: World) {
    && (forall d :: 0 <= d < |w.threads| && LiveDaemon(w, d) ==> w.threads[d].writes == WrittenBy(w.log, d))
    && (forall k :: 0 <= k < |w.log| ==> w.log[k].writer < |w.threads|)
  }

  lemma {:induction false} NeverWrote(log: seq<Publication>, d: nat)
    requires forall k :: 0 <= k < |log| ==> log[k].writer != d
    ensures WrittenBy(log, d) == []
  {
    if log != [] { NeverWrote(log[..|log| - 1], d); }
  }

  lemma WritesMatchStep(w: World, e: Event)
    requires Inv(w) && WritesMatch(w) && Enabled(w, e)
    ensures WritesMatch(Next(w, e))
  {
    var w' := Next(w, e);
    LogAfter(w, e);
    forall d | 0 <= d < |w'.threads| && LiveDaemon(w', d) ensures w'.threads[d].writes == WrittenBy(w'.log, d) {
      if d >= |w.threads| {
        NewLocals(w, e, d);
        NeverWrote(w'.log, d);
      } else {
        IdentitiesKept(w, e);
        assert SameIdentity(w.procs[d], w'.procs[d]);
        assert LiveDaemon(w, d);
        WritesAfter(w, e, d);
      }
    }
  }

  lemma LogAfter(w: World, e: Event)
    requires |w.procs| == |w.threads| && Enabled(w, e)
    ensures |Next(w, e).threads| >= |w.threads|
    ensures !e.Publish? ==> Next(w, e).log == w.log
    ensures e.Publish? ==> Next(w, e).threads[e.d].writes == w.threads[e.d].writes + [Next(w, e).log[|w.log|].rec]
                           && |Next(w, e).log| == |w.log| + 1 && Next(w, e).log[..|w.log|] == w.log
                           && Next(w, e).log[|w.log|].writer == e.d && e.d < |w.threads| == |Next(w, e).threads|
  {
  }

  lemma WritesAfter(w: World, e: Event, d: nat)
    requires |w.procs| == |w.threads| && Enabled(w, e) && d < |w.threads| && LiveDaemon(Next(w, e), d)
    ensures e != Publish(d) ==> Next(w, e).threads[d].writes == w.threads[d].writes
  {
    if Actor(e).None? {
      EnvironmentKeepsLocals(w, e, d);
    } else if Actor(e) != Some(d) {
      StarterStepKeepsLocals(w, e, d);
    }
  }

  /** The records a daemon believes it wrote are exactly its publications. */
  lemma {:induction false} WritesMatchLog(w: World, es: seq<Event>, w': World)
    requires Inv(w) && WritesMatch(w) && Run(w, es, w')
    ensures WritesMatch(w')
    decreases |es|
  {
    if es != [] {
      WritesMatchStep(w, es[0]);
      StepKeeps(w, es[0]);
      WritesMatchLog(Next(w, es[0]), es[1..], w');
    }
  }

  /** A starter's descriptors are for different descriptions. */
  lemma DescriptorsDiffer(w: World, d: nat)
    requires Reachable(w) && d < |w.threads|
    ensures var t := w.threads[d];
            && (t.starter.Some? ==> t.starter != t.owner && t.starter != t.probe)
            && (t.owner.Some? ==> t.owner.value < |w.ofds| && d in w.ofds[t.owner.value].refs)
  {
    ReachableInv(w);
    assert StarterOk(w, d);
  }
}

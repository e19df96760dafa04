/**
 The daemon around the detached transactions: boot, the restart arm shared by the
 restart hook and the death watcher, and the port that readiness is served on.
*/
module DetachedRuntime {
  import opened Wrappers
  import opened Lifecycle
  import opened OwnerLock
  import opened OwnerLockInv
  import opened OwnerLockRuns
  import opened DetachedMachine
  import opened DetachedStart
  import opened DetachedRestart

  /** One SetReady: the child it was for, and the URL the lifecycle showed then. */
  datatype Flip = Flip(child: nat, url: int)

  /** The port a proxy URL names: a URL is only built for a positive port. */
  function UrlFor(port: int): int {
    if port <= 0 then 0 else port
  }

  class Runtime {
    const m: Machine
    const d: nat
    var life: Life
    var cmd: Option<nat>       // the retained child
    var port: int
    var url: int
    var flips: seq<Flip>       // readiness flips of restarts
    var armed: seq<int>        // pids the death watcher was pointed at
    ghost var k: Keep

    constructor (m: Machine, d: nat)
      requires m.Valid() && Idle(m.w, d, Keep(None, []))
      ensures this.m == m && this.d == d && k == Keep(None, []) && cmd == None
      ensures life == NEW_LIFE && flips == [] && armed == []
    {
      this.m, this.d := m, d;
      life, cmd, port, url, flips, armed := NEW_LIFE, None, 0, 0, [], [];
      k := Keep(None, []);
    }

    /** Between transactions. */
    ghost predicate Settled()
      reads this, m
    {
      m.Valid() && Idle(m.w, d, k) && cmd == k.retained
    }

    /** The runtime, its proxy and the lifecycle name one target. */
    ghost predicate Wired()
      reads this
    {
      url == UrlFor(port) && life.url == url
    }

    /** The detached arm of boot, through the point where the URL is recorded. */
    method Boot(obs: Observer, replies: seq<Reply>, lands: bool, faults: Faults)
      returns (res: StartResult, ghost v: StartView)
      requires Settled() && cmd == None && flips == [] && Probe(replies)
      modifies this, m, obs
      ensures InTime(obs.now - old(obs.now), res) && obs.seen == v.After(old(obs.seen))
      ensures Settled() && Wired() && port == res.port && flips == []
      ensures StartReport(old(m.w), m.w, d, old(k), Attachable(replies), lands, faults, old(obs.now), v, res)
      ensures life.state.Ready? <==> res.verdict in {Spawned, Reattached}
      ensures !life.state.Ready? ==> life.state.Failed?
      ensures cmd == (if res.verdict.Spawned? then res.child else None)
      ensures armed == old(armed) +
                       if res.verdict in {StartContended, OrphanedOwner} || res.pid <= 0 then [] else [res.pid]
    {
      res, v := EnsureDetachedOpenCode(m, obs, d, k, replies, lands, faults);
      k := KeepOf(m.w, d);
      Apply(res);
    }

    /** The daemon's side of a start's result. */
    method Apply(res: StartResult)
      modifies this`life, this`cmd, this`port, this`url, this`armed
      ensures Wired() && port == res.port
      ensures life.state == if res.verdict in {Spawned, Reattached} then Ready else Failed
      ensures cmd == (if res.verdict.Spawned? then res.child else old(cmd))
      ensures armed == old(armed) +
                       if res.verdict in {StartContended, OrphanedOwner} || res.pid <= 0 then [] else [res.pid]
    {
      life := if res.verdict in {Spawned, Reattached} then life.SetReady() else life.SetFailed(None);
      port, url := res.port, UrlFor(res.port);
      if res.verdict.Spawned? {
        cmd := res.child;
      }
      if res.verdict in {Spawned, StartFailed, Reattached, SlotOccupied} && res.pid > 0 {
        armed := armed + [res.pid];
      }
      life := life.SetOpenCodeURL(url);
    }

    /** Retargets the running daemon when the port changed. */
    method ApplyFreshPortRetarget(effectivePort: int)
      modifies this`life, this`port, this`url
      requires Wired()
      ensures Wired()
      ensures effectivePort > 0 ==> port == effectivePort
      ensures effectivePort <= 0 ==> port == old(port) && life == old(life)
      ensures life == old(life).SetOpenCodeURL(life.url)
    {
      if effectivePort <= 0 || effectivePort == port {
        return;
      }
      life := life.SetOpenCodeURL(effectivePort);
      port, url := effectivePort, effectivePort;
    }

    /** One serialized restart.  Ready is published only for the new child, and
        only when the lifecycle already names its port, also when boot left no
        port at all; a failed restart keeps the previous target. */
    method Restart(obs: Observer, lands: bool, faults: Faults) returns (res: RestartResult, ghost v: RestartView)
      requires Settled() && Wired()
      modifies this, m, obs
      ensures old(obs.now) <= obs.now <= old(obs.now) + RESTART_TIME && obs.seen == v.After(old(obs.seen))
      ensures Settled() && Wired()
      ensures RestartReport(old(m.w), m.w, d, old(k), old(port), lands, faults, old(obs.now), v, res)
      ensures res.ok ==>
                && life.state.Ready? && cmd == res.child
                && life.url == port == res.port == m.w.procs[res.child.value].kind.port && port > 0
                && flips == old(flips) + [Flip(res.child.value, port)]
      ensures !res.ok ==>
                && life.state.Failed? && flips == old(flips)
                && port == old(port) && url == old(url) && life.url == old(life.url)
                && cmd == (if res.child.Some? then res.child else old(cmd))
      ensures armed == old(armed) + (if res.child.Some? then [m.w.procs[res.child.value].pid] else [])
      ensures life.generation == old(life.generation) + 1
    {
      life := life.SetStarting();
      res, v := RestartDetachedOpenCode(m, obs, d, k, cmd, port, lands, faults);
      k := KeepOf(m.w, d);
      Conclude(res, if res.child.Some? then m.w.procs[res.child.value].pid else 0);
    }

    /** Takes a restart's result over: the child and its watcher in any case, the port
        and readiness on success. */
    method Conclude(res: RestartResult, pid: int)
      requires Wired() && (res.ok ==> res.child.Some? && res.port > 0)
      modifies this`life, this`cmd, this`port, this`url, this`flips, this`armed
      ensures Wired() && life.generation == old(life.generation)
      ensures cmd == (if res.child.Some? then res.child else old(cmd))
      ensures armed == old(armed) + (if res.child.Some? then [pid] else [])
      ensures res.ok ==> life.state.Ready? && port == res.port && flips == old(flips) + [Flip(res.child.value, port)]
      ensures !res.ok ==> life.state.Failed? && port == old(port) && flips == old(flips)
    {
      if res.child.Some? {
        cmd := res.child;
        armed := armed + [pid];
      }
      if !res.ok {
        life := life.SetFailed(None);
        return;
      }
      ApplyFreshPortRetarget(res.port);
      flips := flips + [Flip(res.child.value, life.url)];
      life := life.SetReady();
    }
  }
}

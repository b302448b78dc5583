/** The two MySQL clusters a switchover acts on, as seen by the engine and the preflight
    checks: who accepts writes, where each ProxySQL sends them, which transactions each
    side has executed, and the log of state-changing calls.

    Any call may fail. A failed call may nevertheless have been applied, and between any
    two calls both sides may execute and purge more transactions. */
module Clusters {
  import opened Faults
  import opened Text
  import GtidText

  type Gtid = GtidText.Gtid

  datatype Node = Node(executed: set<Gtid>, purged: set<Gtid>)

  datatype Replication = Replication(configured: bool, running: bool)

  datatype Settings = Settings(logReplicaUpdates: bool, gtidMode: string, binlogFormat: string, expireSeconds: int)

  /** Executed sets only grow: purging removes binary logs, not history. */
  predicate Grew(before: Node, after: Node) { before.executed <= after.executed }

  type Proxy = nat

  /** What a call did to the ProxySQL instances: which staging tables lost the writer it
      removes, which gained the one it adds, and which instances loaded staging into their
      runtime. A failed call may have done any part of its work. */
  datatype Change = Change(ok: bool, removed: set<Proxy>, added: set<Proxy>, loaded: set<Proxy>)

  /** A fence on each instance in turn: stage, then load; success is all of it. */
  predicate LegalFence(c: Change, proxies: set<Proxy>)
  {
    && c.removed <= proxies && c.added == {} && c.loaded <= c.removed
    && (c.ok ==> c.loaded == proxies)
  }

  /** A two-phase change: nothing is loaded before every instance is staged. */
  predicate LegalRoute(c: Change, proxies: set<Proxy>)
  {
    && c.removed <= proxies && c.added <= c.removed && c.loaded <= proxies
    && (c.loaded != {} ==> c.added == proxies)
    && (c.ok ==> c.added == c.loaded == proxies)
  }

  datatype Call =
    | Cleared
    | FenceLocal(r: Outcome)
    | ProbeLocal(reachable: bool)
    | BlackholeLocal(c: Change)
    | EnableRemote(r: Outcome, executed: set<Gtid>)
    | StopReplica(onRemote: bool, ok: bool)
    | ResetReplica(onRemote: bool, ok: bool)
    | RouteToRemote(c: Change)
    | DemoteRemote(r: Outcome)
    | ReenableLocal(r: Outcome)
    | RestoreRouting(c: Change)

  /** The instances whose table sends writes to the local side, and to the remote one. */
  datatype Routes = Routes(local: set<Proxy>, remote: set<Proxy>)

  /** Which side accepts writes, and where the configured ProxySQL instances send them, by
      their staging and their runtime tables. */
  datatype Sides = Sides(
    localWritable: bool, remoteWritable: bool, proxies: set<Proxy>, staged: Routes, runtime: Routes)
  {
    predicate Formed()
    {
      staged.local <= proxies && staged.remote <= proxies && runtime.local <= proxies && runtime.remote <= proxies
    }
  }

  /** The side takes writes from ProxySQL clients. */
  predicate LocalServes(s: Sides) { s.localWritable && s.runtime.local != {} }

  predicate RemoteServes(s: Sides) { s.remoteWritable && s.runtime.remote != {} }

  /** The local side takes routed writes while the remote accepts writes from anyone. */
  predicate TwoWriters(s: Sides) { LocalServes(s) && s.remoteWritable }

  predicate NoWriter(s: Sides) { !LocalServes(s) && !RemoteServes(s) }

  function Load(runtime: Routes, staged: Routes, loaded: set<Proxy>): Routes
  {
    Routes((runtime.local - loaded) + (staged.local * loaded), (runtime.remote - loaded) + (staged.remote * loaded))
  }

  function Publish(s: Sides, staged: Routes, loaded: set<Proxy>): Sides
  {
    s.(staged := staged, runtime := Load(s.runtime, staged, loaded))
  }

  function Step(s: Sides, c: Call): Sides
  {
    match c
    case FenceLocal(r) => if r.applied then s.(localWritable := false) else s
    case BlackholeLocal(c) =>
      Publish(s, Routes(s.staged.local - c.removed, s.staged.remote), c.loaded)
    case EnableRemote(r, _) => if r.applied then s.(remoteWritable := true) else s
    case RouteToRemote(c) =>
      Publish(s, Routes(s.staged.local - c.removed, s.staged.remote + c.added), c.loaded)
    case DemoteRemote(r) => if r.applied then s.(remoteWritable := false) else s
    case ReenableLocal(r) => if r.applied then s.(localWritable := true) else s
    case RestoreRouting(c) =>
      Publish(s, Routes(s.staged.local + c.added, s.staged.remote - c.removed), c.loaded)
    case _ => s
  }

  function Replay(start: Sides, log: seq<Call>): Sides
  {
    if log == [] then start else Step(Replay(start, log[..|log| - 1]), log[|log| - 1])
  }

  lemma ReplaySnoc(start: Sides, log: seq<Call>, c: Call)
    ensures Replay(start, log + [c]) == Step(Replay(start, log), c)
  {
    assert (log + [c])[..|log|] == log;
  }

  class World {
    ghost const start: Sides
    ghost var calls: seq<Call>
    var localWritable: bool
    var remoteWritable: bool
    const proxies: set<Proxy>
    var staged: Routes
    var runtime: Routes
    var local: Node
    var remote: Node
    var channel: Replication
    var settings: Settings
    ghost var readFailures: nat
    ghost var cancellations: nat

    ghost predicate Valid()
      reads `calls, `localWritable, `remoteWritable, `staged, `runtime
    {
      start.proxies == proxies && Now().Formed() && Now() == Replay(start, calls)
    }

    function Now(): Sides
      reads `localWritable, `remoteWritable, `staged, `runtime
    {
      Sides(localWritable, remoteWritable, proxies, staged, runtime)
    }

    constructor (s: Sides, l: Node, r: Node, channel: Replication, settings: Settings)
      requires s.Formed()
      ensures Valid() && Now() == start == s && proxies == s.proxies && calls == [] && local == l && remote == r
    {
      start, calls := s, [];
      localWritable, remoteWritable := s.localWritable, s.remoteWritable;
      proxies, staged, runtime := s.proxies, s.staged, s.runtime;
      local, remote, this.channel, this.settings := l, r, channel, settings;
      readFailures, cancellations := 0, 0;
    }

    /** Commits, replication and purging that happen meanwhile. */
    method Interfere()
      modifies this`local, this`remote
      ensures Grew(old(local), local) && Grew(old(remote), remote)
    {
      var committed: set<Gtid>, applied: set<Gtid> := *, *;
      var localPurge: set<Gtid>, remotePurge: set<Gtid> := *, *;
      local := Node(local.executed + committed, local.purged + localPurge * local.executed);
      remote := Node(remote.executed + applied, remote.purged + remotePurge * remote.executed);
    }

    ghost method Record(c: Call)
      requires start.proxies == proxies && Now().Formed() && Now() == Step(Replay(start, calls), c)
      modifies this`calls
      ensures Valid() && calls == old(calls) + [c]
    {
      ReplaySnoc(start, calls, c);
      calls := calls + [c];
    }

    // --- state-changing calls ------------------------------------------------------------

    /** SetReadOnly on the local side; a success means it no longer accepts writes. */
    method SetLocalReadOnly() returns (ok: bool, ghost r: Outcome)
      requires Valid()
      modifies `calls, `localWritable, `local, `remote
      ensures Valid() && Grew(old(local), local) && Grew(old(remote), remote)
      ensures localWritable == (old(localWritable) && !r.applied)
      ensures calls == old(calls) + [FenceLocal(r)] && r.ok == ok && (ok ==> r.applied)
    {
      hide Replay;
      Interfere();
      var applied: bool;
      ok, applied := *, *;
      if ok {
        applied := true;
      }
      if applied {
        localWritable := false;
      }
      r := Outcome(ok, applied);
      Record(FenceLocal(r));
    }

    method ProbeReachable() returns (reachable: bool)
      requires Valid()
      modifies `calls, `local, `remote
      ensures Valid() && Grew(old(local), local) && Grew(old(remote), remote)
      ensures calls == old(calls) + [ProbeLocal(reachable)]
    {
      hide Replay;
      Interfere();
      reachable := *;
      Record(ProbeLocal(reachable));
    }

    method Blackhole() returns (ok: bool, ghost c: Change)
      requires Valid()
      modifies `calls, `staged, `runtime, `local, `remote
      ensures Valid() && Grew(old(local), local) && Grew(old(remote), remote)
      ensures runtime.local == old(runtime.local) - c.loaded
      ensures calls == old(calls) + [BlackholeLocal(c)] && c.ok == ok && LegalFence(c, proxies)
    {
      hide Replay;
      Interfere();
      var removed: set<Proxy>, loaded: set<Proxy>;
      ok, removed, loaded := *, *, *;
      removed := if ok then proxies else removed * proxies;
      loaded := if ok then proxies else loaded * removed;
      staged := Routes(staged.local - removed, staged.remote);
      runtime := Load(runtime, staged, loaded);
      c := Change(ok, removed, {}, loaded);
      Record(BlackholeLocal(c));
    }

    /** SetReadWrite on the remote side. Even a success may not have taken effect yet. */
    method SetRemoteReadWrite() returns (ok: bool, ghost r: Outcome, ghost executed: set<Gtid>)
      requires Valid()
      modifies `calls, `remoteWritable, `local, `remote
      ensures Valid() && Grew(old(local), local) && Grew(old(remote), remote)
      ensures remoteWritable == (old(remoteWritable) || r.applied)
      ensures calls == old(calls) + [EnableRemote(r, executed)] && r.ok == ok
      ensures old(remote).executed <= executed == remote.executed
    {
      hide Replay;
      Interfere();
      var applied: bool;
      ok, applied := *, *;
      if applied {
        remoteWritable := true;
      }
      r, executed := Outcome(ok, applied), remote.executed;
      Record(EnableRemote(r, executed));
    }

    method SetRemoteReadOnly() returns (ok: bool, ghost r: Outcome)
      requires Valid()
      modifies `calls, `remoteWritable, `local, `remote
      ensures Valid() && Grew(old(local), local) && Grew(old(remote), remote)
      ensures remoteWritable == (old(remoteWritable) && !r.applied)
      ensures calls == old(calls) + [DemoteRemote(r)] && r.ok == ok && (ok ==> r.applied)
    {
      hide Replay;
      Interfere();
      var applied: bool;
      ok, applied := *, *;
      if ok {
        applied := true;
      }
      if applied {
        remoteWritable := false;
      }
      r := Outcome(ok, applied);
      Record(DemoteRemote(r));
    }

    method SetLocalReadWrite() returns (ok: bool, ghost r: Outcome)
      requires Valid()
      modifies `calls, `localWritable, `local, `remote
      ensures Valid() && Grew(old(local), local) && Grew(old(remote), remote)
      ensures localWritable == (old(localWritable) || r.applied)
      ensures calls == old(calls) + [ReenableLocal(r)] && r.ok == ok
    {
      hide Replay;
      Interfere();
      var applied: bool;
      ok, applied := *, *;
      if applied {
        localWritable := true;
      }
      r := Outcome(ok, applied);
      Record(ReenableLocal(r));
    }

    method StopThenReset(onRemote: bool, stopAtError: bool) returns (ok: bool, ghost made: seq<Call>)
      requires Valid()
      modifies `calls, `local, `remote
      ensures Valid() && Grew(old(local), local) && Grew(old(remote), remote)
      ensures calls == old(calls) + made
      ensures |made| == 1 || |made| == 2
      ensures made[0].StopReplica? && made[0].onRemote == onRemote
      ensures |made| == 1 ==> stopAtError && !made[0].ok && !ok
      ensures |made| == 2 ==>
        && made[1].ResetReplica? && made[1].onRemote == onRemote
        && (stopAtError ==> made[0].ok) && ok == (made[0].ok && made[1].ok)
    {
      hide Replay;
      Interfere();
      var stopped: bool := *;
      made := [StopReplica(onRemote, stopped)];
      Record(StopReplica(onRemote, stopped));
      if !stopped && stopAtError {
        return false, made;
      }
      hide Replay;
      Interfere();
      var reset: bool := *;
      Record(ResetReplica(onRemote, reset));
      made := [StopReplica(onRemote, stopped), ResetReplica(onRemote, reset)];
      ok := stopped && reset;
    }

    /** What a two-phase change, complete or not, may have done. */
    method TwoPhase() returns (ok: bool, removed: set<Proxy>, added: set<Proxy>, loaded: set<Proxy>)
      ensures LegalRoute(Change(ok, removed, added, loaded), proxies)
    {
      ok, removed, added, loaded := *, *, *, *;
      removed := if ok then proxies else removed * proxies;
      added := if ok then proxies else added * removed;
      loaded := if ok then proxies else if added == proxies then loaded * proxies else {};
    }

    method ApplyFailoverRouting() returns (ok: bool, ghost c: Change)
      requires Valid()
      modifies `calls, `staged, `runtime, `local, `remote
      ensures Valid() && Grew(old(local), local) && Grew(old(remote), remote)
      ensures runtime.local == old(runtime.local) - c.loaded && c.loaded <= runtime.remote
      ensures calls == old(calls) + [RouteToRemote(c)] && c.ok == ok && LegalRoute(c, proxies)
    {
      hide Replay;
      Interfere();
      var removed, added, loaded;
      ok, removed, added, loaded := TwoPhase();
      staged := Routes(staged.local - removed, staged.remote + added);
      runtime := Load(runtime, staged, loaded);
      c := Change(ok, removed, added, loaded);
      Record(RouteToRemote(c));
    }

    method RollbackRouting() returns (ok: bool, ghost c: Change)
      requires Valid()
      modifies `calls, `staged, `runtime, `local, `remote
      ensures Valid() && Grew(old(local), local) && Grew(old(remote), remote)
      ensures runtime.remote == old(runtime.remote) - c.loaded && c.loaded <= runtime.local
      ensures calls == old(calls) + [RestoreRouting(c)] && c.ok == ok && LegalRoute(c, proxies)
    {
      hide Replay;
      Interfere();
      var removed, added, loaded;
      ok, removed, added, loaded := TwoPhase();
      staged := Routes(staged.local + added, staged.remote - removed);
      runtime := Load(runtime, staged, loaded);
      c := Change(ok, removed, added, loaded);
      Record(RestoreRouting(c));
    }

    /** Marks that preflight has passed; no call is made. */
    ghost method Clear()
      requires Valid()
      modifies this`calls
      ensures Valid() && calls == old(calls) + [Cleared]
    {
      Record(Cleared);
    }

    /** The pause before the fence; the caller's context may end it. */
    method Drain() returns (cancelled: bool)
      modifies `cancellations, `local, `remote
      ensures Grew(old(local), local) && Grew(old(remote), remote)
      ensures cancellations == old(cancellations) + if cancelled then 1 else 0
    {
      Interfere();
      cancelled := *;
      cancellations := cancellations + if cancelled then 1 else 0;
    }

    // --- queries; readFailures counts the reads that fail, and the waits given up -----------

    ghost method CountRead(failed: bool)
      modifies `readFailures
      ensures readFailures == old(readFailures) + if failed then 1 else 0
    {
      readFailures := readFailures + if failed then 1 else 0;
    }

    /** IsWritable on the remote side; None is a read error. */
    method IsRemoteWritable() returns (answer: Option<bool>)
      modifies `local, `remote, `readFailures
      ensures Grew(old(local), local) && Grew(old(remote), remote)
      ensures answer.Some? ==> answer.value == remoteWritable
      ensures readFailures == old(readFailures) + if answer.None? then 1 else 0
    {
      Interfere();
      var err: bool := *;
      answer := if err then None else Some(remoteWritable);
      CountRead(err);
    }

    /** The replication channel on the remote side. */
    method ReplicationStatus() returns (answer: Option<Replication>)
      modifies `local, `remote, `readFailures
      ensures Grew(old(local), local) && Grew(old(remote), remote)
      ensures answer.Some? ==> answer.value == channel
      ensures readFailures == old(readFailures) + if answer.None? then 1 else 0
    {
      Interfere();
      var err: bool := *;
      answer := if err then None else Some(channel);
      CountRead(err);
    }

    method RemoteSettings() returns (answer: Option<Settings>)
      modifies `local, `remote, `readFailures
      ensures Grew(old(local), local) && Grew(old(remote), remote)
      ensures answer.Some? ==> answer.value == settings
      ensures readFailures == old(readFailures) + if answer.None? then 1 else 0
    {
      Interfere();
      var err: bool := *;
      answer := if err then None else Some(settings);
      CountRead(err);
    }

    /** GetGTIDSnapshot: gtid_executed is read first, gtid_purged later. */
    method Snapshot(ofRemote: bool) returns (snap: Option<Node>)
      modifies `local, `remote, `readFailures
      ensures Grew(old(local), local) && Grew(old(remote), remote)
      ensures snap.Some? && !ofRemote ==> old(local).executed <= snap.value.executed <= local.executed
      ensures snap.Some? && ofRemote ==> old(remote).executed <= snap.value.executed <= remote.executed
      ensures readFailures == old(readFailures) + if snap.None? then 1 else 0
    {
      Interfere();
      var executed := if ofRemote then remote.executed else local.executed;
      Interfere();
      var purged := if ofRemote then remote.purged else local.purged;
      var err: bool := *;
      snap := if err then None else Some(Node(executed, purged));
      CountRead(err);
    }

    /** MissingGTIDs: `set` minus the node's executed set. On an error Go returns "". */
    method MissingGTIDs(onRemote: bool, gtids: set<Gtid>) returns (err: bool, missing: set<Gtid>)
      modifies `local, `remote, `readFailures
      ensures Grew(old(local), local) && Grew(old(remote), remote)
      ensures err ==> missing == {} && gtids != {}
      ensures !err ==> missing == gtids - (if onRemote then remote.executed else local.executed)
      ensures !err ==> (missing == {} <==> gtids <= (if onRemote then remote.executed else local.executed))
      ensures readFailures == old(readFailures) + if err then 1 else 0
    {
      if gtids == {} {
        return false, {};
      }
      Interfere();
      err := *;
      var executed := if onRemote then remote.executed else local.executed;
      missing := if err then {} else gtids - executed;
      assert forall g :: g in gtids && g !in executed ==> g in gtids - executed;
      CountRead(err);
    }

    /** WAIT_FOR_EXECUTED_GTID_SET on the remote side. */
    method WaitForGTID(gtids: set<Gtid>) returns (ok: bool)
      modifies `local, `remote, `readFailures
      ensures Grew(old(local), local) && Grew(old(remote), remote)
      ensures ok ==> gtids <= remote.executed
      ensures gtids == {} ==> ok
      ensures readFailures == old(readFailures) + if ok then 0 else 1
    {
      if gtids == {} {
        return true;
      }
      Interfere();
      var gaveUp: bool := *;
      ok := !gaveUp && gtids <= remote.executed;
      CountRead(!ok);
    }
  }
}

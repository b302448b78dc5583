/** The switchover engine (internal/switchover/engine.go): the phases of an attempt, the
    rollback, and the checkpoints they leave. */
module Engine {
  import opened Text
  import opened Clusters
  import opened Faults
  import opened Protocol
  import opened Progress
  import opened Attempt
  import P = Preflight

  /** Panicked: routing was reached without a ProxySQL manager, and the call on nil
      aborts the attempt without a rollback. */
  datatype Result =
    | Finished(success: bool, failedPhase: Phase, rolledBack: bool, report: P.Report)
    | Panicked

  /** The phase an attempt did not get past; Done after a success. */
  function Reached(r: Result): Phase
  {
    match r
    case Panicked => Routing
    case Finished(_, failedPhase, _, _) => failedPhase
  }

  function Undoable(s: seq<Phase>): seq<Phase>
  {
    if s == [] then []
    else (if s[0] in {Fence, Promote, Routing} then [s[0]] else []) + Undoable(s[1..])
  }

  lemma {:induction false} UndoableIff(s: seq<Phase>, ph: Phase)
    ensures ph in Undoable(s) <==> ph in s && (ph == Fence || ph == Promote || ph == Routing)
  {
    if s != [] {
      UndoableIff(s[1..], ph);
      assert s == [s[0]] + s[1..];
    }
  }

  lemma ReversedHas(s: seq<Phase>, ph: Phase)
    ensures ph in Reversed(s) <==> ph in s
  {
    if s != [] {
      ReversedAt(s, 0);
    }
    if ph in s {
      var i :| 0 <= i < |s| && s[i] == ph;
      ReversedAt(s, |s| - 1 - i);
    }
    if ph in Reversed(s) && s != [] {
      var i :| 0 <= i < |Reversed(s)| && Reversed(s)[i] == ph;
      ReversedAt(s, i);
    }
  }

  /** A rollback demotes, re-enables and restores the routing exactly as the promotion, the
      fence and the routing are among the completed phases. */
  lemma RollbackUndoes(completed: seq<Phase>, undo: seq<Call>)
    requires Undone(undo) == Reversed(Undoable(completed))
    ensures Promote in completed <==> exists i :: 0 <= i < |undo| && undo[i].DemoteRemote?
    ensures Fence in completed <==> exists i :: 0 <= i < |undo| && undo[i].ReenableLocal?
    ensures Routing in completed <==> exists i :: 0 <= i < |undo| && undo[i].RestoreRouting?
  {
    UndoneIff(undo);
    ReversedHas(Undoable(completed), Promote);
    ReversedHas(Undoable(completed), Fence);
    ReversedHas(Undoable(completed), Routing);
    UndoableIff(completed, Promote);
    UndoableIff(completed, Fence);
    UndoableIff(completed, Routing);
    hide Undone, Reversed, Undoable;
  }

  lemma {:induction false} ReversedCons<T>(h: T, s: seq<T>)
    ensures Reversed([h] + s) == Reversed(s) + [h]
  {
    if s == [] {
      assert [h] + s == [h];
    } else {
      ReversedCons(h, s[..|s| - 1]);
      assert ([h] + s)[..|s|] == [h] + s[..|s| - 1];
    }
  }

  lemma ReversedUndoable(h: Phase, s: seq<Phase>)
    ensures Reversed(Undoable([h] + s)) ==
      Reversed(Undoable(s)) + if h in {Fence, Promote, Routing} then [h] else []
  {
    assert ([h] + s)[1..] == s;
    hide Reversed;
    if h in {Fence, Promote, Routing} {
      ReversedCons(h, Undoable(s));
    } else {
      assert [] + Undoable(s) == Undoable(s);
    }
  }

  /** Replication calls change none of what the discipline looks at. */
  lemma {:induction false} SnocQuietly(start: Sides, log: seq<Call>, made: seq<Call>)
    requires Disciplined(start, log)
    requires forall i :: 0 <= i < |made| ==> made[i].StopReplica? || made[i].ResetReplica?
    ensures Disciplined(start, log + made)
    ensures FenceHolds(log + made) == FenceHolds(log) && Undemoted(log + made) == Undemoted(log)
  {
    hide Disciplined, SqlFenceHolds, BlackholeHolds, Undemoted;
    if made == [] {
      assert log + made == log;
    } else {
      var init, last := made[..|made| - 1], made[|made| - 1];
      SnocQuietly(start, log, init);
      Snoc(start, log + init, last);
      assert log + made == (log + init) + [last];
    }
  }

  lemma NotYetPromoted(earlier: seq<Phase>, ph: Phase)
    requires earlier + [ph] <= ENGINE_ORDER
    ensures ph == Fence ==> Promote !in earlier
    ensures Routing in earlier ==> ph in {ReverseReplica, Verify}
  {
    assert (earlier + [ph])[|earlier|] == ph;
    assert forall i :: 0 <= i < |earlier| ==> earlier[i] == (earlier + [ph])[i] == ENGINE_ORDER[i];
  }

  /** What the rollback of each failure amounts to. */
  lemma RollbackShape(undo: seq<Call>, completed: seq<Phase>)
    requires SoundDemotions(undo) && |undo| == |Undone(undo)| && Undone(undo) == Reversed(Undoable(completed))
    ensures completed == [PreFlight] ==> undo == []
    ensures completed == [PreFlight, Fence] ==> UndoRun(undo) && |undo| == 1
    ensures completed == [PreFlight, Fence, Promote] ==> UndoRun(undo) && |undo| == 2
  {
    ReversedPhases();
    UndoableOf(completed);
    if |undo| == 1 {
      Short(undo);
    } else if |undo| == 2 {
      Short(undo);
      assert |Undoes(undo[0])| == 1 && |Undoes(undo[1])| == 1;
      assert Undone(undo)[0] == Undoes(undo[0])[0] && Undone(undo)[1] == Undoes(undo[1])[0];
    }
  }

  lemma UndoableOf(completed: seq<Phase>)
    ensures completed == [PreFlight] ==> Undoable(completed) == []
    ensures completed == [PreFlight, Fence] ==> Undoable(completed) == [Fence]
    ensures completed == [PreFlight, Fence, Promote] ==> Undoable(completed) == [Fence, Promote]
  {
    assert completed == [PreFlight] ==> completed[1..] == [];
    assert completed == [PreFlight, Fence] ==> completed[1..] == [Fence] && [Fence][1..] == [];
    assert completed == [PreFlight, Fence, Promote] ==>
      completed[1..] == [Fence, Promote] && [Fence, Promote][1..] == [Promote] && [Promote][1..] == [];
  }

  /** The phases the reporter is told have passed. A failed reverse replica is left out,
      though the engine goes on. */
  function Passed(reached: Phase, reverseOk: bool): seq<Phase>
  {
    match reached
    case PreFlight => []
    case Fence => [PreFlight]
    case Promote => [PreFlight, Fence]
    case Routing => [PreFlight, Fence, Promote]
    case ReverseReplica => [PreFlight, Fence, Promote, Routing]
    case Verify => [PreFlight, Fence, Promote, Routing] + if reverseOk then [ReverseReplica] else []
    case Done => [PreFlight, Fence, Promote, Routing] + (if reverseOk then [ReverseReplica] else []) + [Verify]
  }

  lemma PassedAtTheEnd(reverseOk: bool)
    ensures Passed(Verify, reverseOk) == Passed(ReverseReplica, false) + if reverseOk then [ReverseReplica] else []
    ensures Passed(Done, reverseOk) == Passed(Verify, reverseOk) + [Verify]
  {
  }

  lemma AttemptedToTheEnd(cfg: Config, t: Trace, reverseOk: bool)
    requires FenceRun(cfg, t.fence, true) && PromoteRun(cfg, t.promote, true)
    requires cfg.hasProxySQL && RoutingRun(cfg, t.routing, true)
    requires ReverseRun(cfg, t.reverse, reverseOk) && t.undo == []
    ensures Attempted(cfg, t, Verify, reverseOk) && Attempted(cfg, t, Done, reverseOk)
  {
  }

  lemma FencedBySql(cfg: Config, r: Outcome)
    requires r.ok && r.applied
    ensures FenceRun(cfg, [FenceLocal(r)], true)
  {
  }

  lemma NotFenced(cfg: Config, r: Outcome, reachable: bool)
    requires !r.ok
    ensures cfg.checks.hasLocalInspector && (reachable || !cfg.hasProxySQL) ==>
      FenceRun(cfg, [FenceLocal(r), ProbeLocal(reachable)], false)
    ensures !cfg.checks.hasLocalInspector && !cfg.hasProxySQL ==> FenceRun(cfg, [FenceLocal(r)], false)
  {
  }

  lemma BlackholeTried(cfg: Config, r: Outcome, c: Change)
    requires !r.ok && cfg.hasProxySQL && LegalFence(c, cfg.proxies)
    ensures cfg.checks.hasLocalInspector ==>
      FenceRun(cfg, [FenceLocal(r), ProbeLocal(false)] + [BlackholeLocal(c)], c.ok)
    ensures !cfg.checks.hasLocalInspector ==> FenceRun(cfg, [FenceLocal(r)] + [BlackholeLocal(c)], c.ok)
  {
  }

  lemma AttemptedFence(cfg: Config, made: seq<Call>)
    requires FenceRun(cfg, made, false) || (cfg.drains && made == [])
    ensures Attempted(cfg, Trace(made, [], [], [], []), Fence, false)
    ensures Passed(Fence, false) == [PreFlight] && Passed(Promote, false) == [PreFlight, Fence]
  {
  }

  lemma PassedInOrder(reached: Phase, reverseOk: bool)
    ensures Ascending(Passed(reached, reverseOk))
    ensures forall ph :: ph in Passed(reached, reverseOk) <==>
              Index(ph) < Index(reached) && (ph == ReverseReplica ==> reverseOk)
  {
  }

  predicate SoundDemotions(s: seq<Call>)
  {
    forall i :: 0 <= i < |s| && s[i].DemoteRemote? ==> Sound(s[i].r)
  }

  lemma PrefixStep(completed: seq<Phase>, i: nat)
    requires i < |completed| && completed <= ENGINE_ORDER
    ensures completed[..i] + [completed[i]] == completed[..i + 1] <= ENGINE_ORDER
  {
  }

  lemma RollbackStart(completed: seq<Phase>)
    ensures Undone([]) == Reversed(Undoable(completed[|completed|..])) && |Undone([])| == 0
    ensures SoundDemotions([]) && completed[..|completed|] == completed
  {
    assert completed[|completed|..] == [];
  }

  lemma RollbackStep(completed: seq<Phase>, i: nat, undo: seq<Call>, made: seq<Call>)
    requires i < |completed| && SoundDemotions(undo) && SoundDemotions(made)
    requires |undo| == |Undone(undo)| && Undone(undo) == Reversed(Undoable(completed[i + 1..]))
    requires Undone(made) == (if completed[i] in {Fence, Promote, Routing} then [completed[i]] else [])
    requires |made| == |Undone(made)|
    ensures SoundDemotions(undo + made) && |undo + made| == |Undone(undo + made)|
    ensures Undone(undo + made) == Reversed(Undoable(completed[i..]))
  {
    hide Undone, Reversed, Undoable;
    assert completed[i..] == [completed[i]] + completed[i + 1..];
    ReversedUndoable(completed[i], completed[i + 1..]);
    UndoneConcat(undo, made);
  }

  class Engine {
    const cfg: Config
    const world: World
    const reporter: Reporter

    constructor (cfg: Config, world: World, reporter: Reporter)
      ensures this.cfg == cfg && this.world == world && this.reporter == reporter
    {
      this.cfg, this.world, this.reporter := cfg, world, reporter;
    }

    /** The engine's ProxySQL manager is the world's. */
    ghost predicate Wired() { cfg.proxies == world.proxies == world.start.proxies }

    ghost predicate Safe()
      reads world`calls, world`localWritable, world`remoteWritable, world`staged, world`runtime
    {
      Wired() && world.Valid() && Disciplined(world.start, world.calls)
    }

    twostate predicate NothingLost()
      reads world
    {
      && Grew(old(world.local), world.local) && Grew(old(world.remote), world.remote)
      && old(world.readFailures) <= world.readFailures && old(world.cancellations) <= world.cancellations
    }

    /** No read was made, and no drain. */
    twostate predicate NoRead()
      reads world
    {
      world.readFailures == old(world.readFailures) && world.cancellations == old(world.cancellations)
    }

    /** Unless a checkpoint write was lost, the stored list is the one reported. */
    twostate predicate Checkpointed()
      reads reporter, reporter.policy
    {
      && old(reporter.lost) <= reporter.lost
      && (reporter.lost == old(reporter.lost) ==> reporter.UpToDate())
    }

    /** Makes routed writes to the local side impossible, or fails. */
    method PhaseFence() returns (ok: bool, ghost made: seq<Call>)
      requires Safe() && !Undemoted(world.calls)
      modifies world
      ensures Safe() && NothingLost() && NoRead()
      ensures world.calls == old(world.calls) + made && FenceRun(cfg, made, ok)
      ensures !Undemoted(world.calls) && (ok ==> FenceHolds(world.calls)) && made != []
    {
      hide Disciplined, SqlFenceHolds, BlackholeHolds, Undemoted, Replay, World.Valid, FenceRun;
      ghost var log := world.calls;
      var fenced;
      ghost var r;
      fenced, r := world.SetLocalReadOnly();
      made := [FenceLocal(r)];
      Snoc(world.start, log, FenceLocal(r));
      if fenced {
        FencedBySql(cfg, r);
        return true, made;
      }
      var reachable := false;
      log := world.calls;
      if cfg.checks.hasLocalInspector {
        reachable := world.ProbeReachable();
        made := [FenceLocal(r), ProbeLocal(reachable)];
        Snoc(world.start, log, ProbeLocal(reachable));
      }
      NotFenced(cfg, r, reachable);
      if reachable {
        return false, made;
      }
      if !cfg.hasProxySQL {
        return false, made;
      }
      log := world.calls;
      ghost var c;
      ok, c := world.Blackhole();
      BlackholeTried(cfg, r, c);
      made := made + [BlackholeLocal(c)];
      Snoc(world.start, log, BlackholeLocal(c));
    }

    /** Write-enables the remote side, then makes it forget its upstream as best it can. */
    method PhasePromote() returns (ok: bool, ghost made: seq<Call>)
      requires Safe() && !Undemoted(world.calls) && FenceHolds(world.calls)
      modifies world
      ensures Safe() && NothingLost() && NoRead()
      ensures world.calls == old(world.calls) + made && PromoteRun(cfg, made, ok)
      ensures FenceHolds(world.calls) && (Undemoted(world.calls) <==> ok)
      ensures old(world.remote).executed <= made[0].executed <= world.remote.executed
    {
      hide Disciplined, SqlFenceHolds, BlackholeHolds, Undemoted, Replay, World.Valid;
      ghost var log := world.calls;
      ghost var r, executed;
      ok, r, executed := world.SetRemoteReadWrite();
      ghost var enable := EnableRemote(r, executed);
      made := [enable];
      Snoc(world.start, log, enable);
      if !ok {
        return;
      }
      if cfg.hasRemoteReplication && cfg.checks.channel != "" {
        ghost var more;
        ghost var before := world.calls;
        var reset;
        reset, more := world.StopThenReset(true, false);
        SnocQuietly(world.start, before, more);
        made := [enable] + more;
      }
    }

    method PhaseRouting() returns (ok: bool, ghost made: seq<Call>)
      requires Safe() && cfg.hasProxySQL
      modifies world
      ensures Safe() && NothingLost() && NoRead()
      ensures world.calls == old(world.calls) + made && RoutingRun(cfg, made, ok)
      ensures FenceHolds(world.calls) == old(FenceHolds(world.calls))
      ensures Undemoted(world.calls) == old(Undemoted(world.calls))
    {
      hide Disciplined, SqlFenceHolds, BlackholeHolds, Undemoted, Replay, World.Valid;
      ghost var c;
      ok, c := world.ApplyFailoverRouting();
      made := [RouteToRemote(c)];
      Snoc(world.start, old(world.calls), RouteToRemote(c));
    }

    /** Stops and clears the former source's channel; the first failure ends it. */
    method PhaseReverseReplica() returns (ok: bool, ghost made: seq<Call>)
      requires Safe()
      modifies world
      ensures Safe() && NothingLost() && NoRead()
      ensures world.calls == old(world.calls) + made && ReverseRun(cfg, made, ok)
    {
      hide Disciplined, SqlFenceHolds, BlackholeHolds, Undemoted, Replay, World.Valid;
      if !cfg.hasReverseSource {
        return false, [];
      }
      if !cfg.hasLocalReplication {
        return false, [];
      }
      ok, made := world.StopThenReset(false, true);
      SnocQuietly(world.start, old(world.calls), made);
    }

    /** Passes exactly when the remote was read as writable; None is a read error. */
    method PhaseVerify() returns (ok: bool, ghost answer: Option<bool>)
      modifies world`local, world`remote, world`readFailures
      ensures NothingLost() && (ok <==> answer == Some(true))
      ensures answer.Some? ==> answer.value == world.remoteWritable
      ensures answer.None? <==> world.readFailures > old(world.readFailures)
    {
      var writable := world.IsRemoteWritable();
      answer := writable;
      ok := writable.Some? && writable.value;
    }

    /** Undoes the fence, the promotion and the routing among `completed`, last first,
        whatever fails on the way. The discipline survives exactly when no routing is
        undone in front of a promoted remote that only a blackhole keeps alone. */
    method Rollback(completed: seq<Phase>) returns (ghost undo: seq<Call>)
      requires Safe() && completed <= ENGINE_ORDER
      requires Undemoted(world.calls) ==> Promote in completed
      modifies world
      ensures world.Valid() && NothingLost() && NoRead()
      ensures Safe() <==> (Routing in completed && old(Undemoted(world.calls)) ==> old(SqlFenceHolds(world.calls)))
      ensures world.calls == old(world.calls) + undo && SoundDemotions(undo)
      ensures |undo| == |Undone(undo)| && Undone(undo) == Reversed(Undoable(completed))
    {
      RollbackStart(completed);
      undo := [];
      hide Disciplined, SqlFenceHolds, BlackholeHolds, Undemoted, Replay, World.Valid, Undone, Reversed, Undoable,
           SoundDemotions;
      ghost var mayRestore := Undemoted(world.calls) ==> SqlFenceHolds(world.calls);
      var i := |completed|;
      while i > 0
        invariant 0 <= i <= |completed|
        invariant world.Valid() && NothingLost() && NoRead()
        invariant world.calls == old(world.calls) + undo && SoundDemotions(undo)
        invariant |undo| == |Undone(undo)| && Undone(undo) == Reversed(Undoable(completed[i..]))
        invariant Undemoted(world.calls) ==> Promote in completed[..i]
        invariant Disciplined(world.start, world.calls) <==>
          mayRestore || Routing in completed[..i] || Routing !in completed
        invariant Routing in completed[..i] ==> mayRestore == (Undemoted(world.calls) ==> SqlFenceHolds(world.calls))
      {
        i := i - 1;
        PrefixStep(completed, i);
        ghost var made := UndoPhase(completed[i], completed[..i]);
        RollbackStep(completed, i, undo, made);
        Append(old(world.calls), undo, made);
        undo := undo + made;
      }
    }

    method UndoPromote() returns (ghost made: seq<Call>)
      requires Wired() && world.Valid()
      modifies world
      ensures world.Valid() && NothingLost() && NoRead() && !Undemoted(world.calls)
      ensures Disciplined(world.start, world.calls) <==> old(Disciplined(world.start, world.calls))
      ensures world.calls == old(world.calls) + made && SoundDemotions(made) && |made| == 1 && Undone(made) == [Promote]
    {
      hide Disciplined, SqlFenceHolds, BlackholeHolds, Undemoted, Replay, World.Valid, Undone;
      var ok;
      ghost var r;
      ok, r := world.SetRemoteReadOnly();
      made := [DemoteRemote(r)];
      Snoc(world.start, old(world.calls), DemoteRemote(r));
      One(made, DemoteRemote(r));
    }

    method UndoFence() returns (ghost made: seq<Call>)
      requires Wired() && world.Valid() && !Undemoted(world.calls)
      modifies world
      ensures world.Valid() && NothingLost() && NoRead() && !Undemoted(world.calls)
      ensures Disciplined(world.start, world.calls) <==> old(Disciplined(world.start, world.calls))
      ensures world.calls == old(world.calls) + made && SoundDemotions(made) && |made| == 1 && Undone(made) == [Fence]
    {
      hide Disciplined, SqlFenceHolds, BlackholeHolds, Undemoted, Replay, World.Valid, Undone;
      var ok;
      ghost var r;
      ok, r := world.SetLocalReadWrite();
      made := [ReenableLocal(r)];
      Snoc(world.start, old(world.calls), ReenableLocal(r));
      One(made, ReenableLocal(r));
    }

    method UndoRouting() returns (ghost made: seq<Call>)
      requires Wired() && world.Valid()
      modifies world
      ensures world.Valid() && NothingLost() && NoRead() && Undemoted(world.calls) == old(Undemoted(world.calls))
      ensures Disciplined(world.start, world.calls) <==>
        && old(Disciplined(world.start, world.calls))
        && (old(Undemoted(world.calls)) ==> old(SqlFenceHolds(world.calls)))
      ensures world.calls == old(world.calls) + made && SoundDemotions(made) && |made| == 1 && Undone(made) == [Routing]
    {
      hide Disciplined, SqlFenceHolds, BlackholeHolds, Undemoted, Replay, World.Valid, Undone;
      var ok;
      ghost var c;
      ok, c := world.RollbackRouting();
      made := [RestoreRouting(c)];
      Snoc(world.start, old(world.calls), RestoreRouting(c));
      One(made, RestoreRouting(c));
    }

    method UndoPhase(ph: Phase, ghost earlier: seq<Phase>) returns (ghost made: seq<Call>)
      requires Wired() && world.Valid() && earlier + [ph] <= ENGINE_ORDER
      requires Undemoted(world.calls) ==> Promote in earlier + [ph]
      modifies world
      ensures world.Valid() && NothingLost() && NoRead()
      ensures Disciplined(world.start, world.calls) <==>
        && old(Disciplined(world.start, world.calls))
        && (ph == Routing && old(Undemoted(world.calls)) ==> old(SqlFenceHolds(world.calls)))
      ensures world.calls == old(world.calls) + made && SoundDemotions(made)
      ensures Undone(made) == (if ph in {Fence, Promote, Routing} then [ph] else []) && |made| == |Undone(made)|
      ensures Undemoted(world.calls) ==> Promote in earlier
      ensures Routing in earlier ==> world.calls == old(world.calls)
    {
      NotYetPromoted(earlier, ph);
      assert Undone([]) == [] && SoundDemotions([]);
      hide Disciplined, SqlFenceHolds, BlackholeHolds, Undemoted, Replay, World.Valid, Undone, SoundDemotions;
      made := [];
      match ph
      case Promote =>
        made := UndoPromote();
      case Fence =>
        made := UndoFence();
      case Routing =>
        made := UndoRouting();
      case _ =>
    }

    /** The reverse replica: best effort, reported complete only if it is. */
    method ReportReverseReplica() returns (ok: bool, ghost made: seq<Call>)
      requires Safe() && reporter.Valid()
      modifies world, reporter, reporter.policy
      ensures Safe() && NothingLost() && NoRead() && reporter.Valid()
      ensures world.calls == old(world.calls) + made && ReverseRun(cfg, made, ok)
      ensures reporter.completed == old(reporter.completed) + if ok then [ReverseReplica] else []
      ensures old(reporter.lost) <= reporter.lost
    {
      hide Disciplined, Replay, World.Valid, ReverseRun, Reporter.Valid, Reporter.UpToDate;
      reporter.OnPhaseStart(ReverseReplica);
      ok, made := PhaseReverseReplica();
      if !ok {
        reporter.OnPhaseError(ReverseReplica);
      } else {
        reporter.OnPhaseComplete(ReverseReplica);
      }
    }

    /** The end of an attempt that passed its routing: the reverse replica is best effort,
        and a failed verification is not rolled back. */
    method ExecuteRouted(report: P.Report, ghost t0: Trace)
      returns (result: Result, ghost t: Trace, ghost reverseOk: bool)
      requires Safe() && reporter.Valid() && reporter.completed == Passed(ReverseReplica, false)
      requires FenceRun(cfg, t0.fence, true) && PromoteRun(cfg, t0.promote, true)
      requires cfg.hasProxySQL && RoutingRun(cfg, t0.routing, true) && t0.undo == []
      modifies world, reporter, reporter.policy
      ensures Safe() && NothingLost() && reporter.Valid()
      ensures t == t0.(reverse := t.reverse) && world.calls == old(world.calls) + t.reverse
      ensures result.Finished? && result.success == (result.failedPhase == Done)
      ensures result.failedPhase == Verify ==> !world.remoteWritable || world.readFailures > old(world.readFailures)
      ensures Checkpointed() && world.cancellations == old(world.cancellations)
      ensures result.failedPhase in {Verify, Done} && !result.rolledBack && (result.success ==> world.remoteWritable)
      ensures Attempted(cfg, t, result.failedPhase, reverseOk)
      ensures reporter.completed == Passed(result.failedPhase, reverseOk)
    {
      hide Disciplined, SqlFenceHolds, BlackholeHolds, Undemoted, Replay, World.Valid, FenceRun, PromoteRun,
           RoutingRun, ReverseRun, UndoRun, Passed, Attempted, Reporter.Valid;
      var reversed;
      ghost var made;
      reversed, made := ReportReverseReplica();
      reverseOk := reversed;
      t := t0.(reverse := made);
      PassedAtTheEnd(reverseOk);
      AttemptedToTheEnd(cfg, t, reverseOk);
      reporter.OnPhaseStart(Verify);
      var ok;
      ghost var answer;
      ok, answer := PhaseVerify();
      if !ok {
        reporter.OnPhaseError(Verify);
        return Finished(false, Verify, false, report), t, reverseOk;
      }
      reporter.OnPhaseComplete(Verify);
      return Finished(true, Done, false, report), t, reverseOk;
    }

    /** The routing of an attempt that passed its promotion. */
    method ExecutePromoted(report: P.Report, ghost t0: Trace)
      returns (result: Result, ghost t: Trace, ghost reverseOk: bool)
      requires Safe() && reporter.Valid() && reporter.completed == Passed(Routing, false)
      requires FenceRun(cfg, t0.fence, true) && PromoteRun(cfg, t0.promote, true)
      requires t0.routing == t0.reverse == t0.undo == []
      modifies world, reporter, reporter.policy
      ensures Safe() && NothingLost() && reporter.Valid()
      ensures Reached(result) == Verify ==> !world.remoteWritable || world.readFailures > old(world.readFailures)
      ensures Checkpointed() && world.cancellations == old(world.cancellations)
      ensures t.fence == t0.fence && t.promote == t0.promote
      ensures world.calls == old(world.calls) + t.routing + t.reverse + t.undo
      ensures Attempted(cfg, t, Reached(result), reverseOk)
      ensures Index(Reached(result)) > Index(Promote)
      ensures result.Panicked? <==> Reached(result) == Routing && !cfg.hasProxySQL
      ensures result.Finished? ==>
        && (result.success <==> result.failedPhase == Done)
        && (result.rolledBack <==> result.failedPhase == Routing)
        && (result.success ==> world.remoteWritable)
      ensures reporter.completed == Passed(Reached(result), reverseOk)
    {
      hide Reporter.Valid, Reporter.UpToDate;
      hide Disciplined, SqlFenceHolds, BlackholeHolds, Undemoted, Replay, World.Valid, FenceRun, PromoteRun,
           RoutingRun, ReverseRun, UndoRun, Undone,
           Reversed, Undoable, SoundDemotions;
      t, reverseOk := t0, false;
      reporter.OnPhaseStart(Routing);
      if !cfg.hasProxySQL {
        return Panicked, t, reverseOk;
      }
      var ok;
      ghost var made;
      ok, made := PhaseRouting();
      t := t.(routing := made);
      if !ok {
        reporter.OnPhaseError(Routing);
        var completed := [PreFlight, Fence, Promote];
        ghost var undo := Rollback(completed);
        RollbackShape(undo, completed);
        t := t.(undo := undo);
        return Finished(false, Routing, true, report), t, reverseOk;
      }
      reporter.OnPhaseComplete(Routing);
      result, t, reverseOk := ExecuteRouted(report, t);
    }

    /** The promotion of an attempt that passed its fence. */
    method ExecuteFenced(report: P.Report, ghost t0: Trace)
      returns (result: Result, ghost t: Trace, ghost reverseOk: bool)
      requires Safe() && reporter.Valid() && reporter.completed == Passed(Promote, false)
      requires !Undemoted(world.calls) && FenceHolds(world.calls)
      requires FenceRun(cfg, t0.fence, true) && t0 == Trace(t0.fence, [], [], [], [])
      modifies world, reporter, reporter.policy
      ensures Safe() && NothingLost() && reporter.Valid()
      ensures Reached(result) == Verify ==> !world.remoteWritable || world.readFailures > old(world.readFailures)
      ensures Checkpointed() && world.cancellations == old(world.cancellations)
      ensures t.fence == t0.fence
      ensures world.calls == old(world.calls) + t.promote + t.routing + t.reverse + t.undo
      ensures Attempted(cfg, t, Reached(result), reverseOk)
      ensures t.promote != [] && t.promote[0].EnableRemote?
      ensures old(world.remote).executed <= t.promote[0].executed
      ensures Index(Reached(result)) > Index(Fence)
      ensures result.Panicked? <==> Reached(result) == Routing && !cfg.hasProxySQL
      ensures result.Finished? ==>
        && (result.success <==> result.failedPhase == Done)
        && (result.rolledBack <==> result.failedPhase in {Promote, Routing})
        && (result.success ==> world.remoteWritable)
      ensures reporter.completed == Passed(Reached(result), reverseOk)
    {
      hide Reporter.Valid, Reporter.UpToDate;
      hide Disciplined, SqlFenceHolds, BlackholeHolds, Undemoted, Replay, World.Valid, FenceRun, RoutingRun,
           ReverseRun, UndoRun,
           Undone, Reversed,
           Undoable, SoundDemotions;
      t, reverseOk := t0, false;
      reporter.OnPhaseStart(Promote);
      var ok;
      ghost var made;
      ok, made := PhasePromote();
      t := t.(promote := made);
      if !ok {
        reporter.OnPhaseError(Promote);
        var completed := [PreFlight, Fence];
        ghost var undo := Rollback(completed);
        RollbackShape(undo, completed);
        t := t.(undo := undo);
        return Finished(false, Promote, true, report), t, reverseOk;
      }
      reporter.OnPhaseComplete(Promote);
      result, t, reverseOk := ExecutePromoted(report, t);
    }

    /** Runs the checks. What a passed preflight means, and why one fails. */
    method PhasePreFlight() returns (ok: bool, report: P.Report, ghost a: P.Answers)
      modifies world`local, world`remote, world`readFailures
      ensures NothingLost() && (ok <==> P.Gate(cfg.checks, a))
      ensures ok ==> PreFlightMeans(a, old(world.local), world.remote)
      ensures !ok ==> PreFlightFails(a, old(world.local)) || world.readFailures > old(world.readFailures)
    {
      hide P.Gate, P.Waived, P.SettingsHold, P.HardPassed;
      report, a := P.Run(world, cfg.checks);
      ok := P.OK(report);
    }

    /** The remote is read-only and configured to be promoted, nothing is quarantined, and
        the remote has what the local side had executed before; if the local side could not
        be read, the operator accepts that. */
    ghost predicate PreFlightMeans(a: P.Answers, localBefore: Node, remoteNow: Node)
      reads world`remoteWritable, world`channel, world`settings
    {
      && cfg.checks.hasRemote && !world.remoteWritable && !cfg.checks.quarantined
      && P.SettingsHold(world, cfg.checks)
      && (a.local.Some? ==> localBefore.executed <= a.local.value.executed <= remoteNow.executed)
      && (a.local.None? ==> cfg.checks.allowDataLoss)
    }

    /** A reason for a failed preflight other than a failed read or an abandoned wait. */
    ghost predicate PreFlightFails(a: P.Answers, localBefore: Node)
      reads world`remoteWritable, world`channel, world`settings
    {
      || !cfg.checks.hasRemote || world.remoteWritable || cfg.checks.quarantined
      || !P.SettingsHold(world, cfg.checks)
      || (if cfg.checks.hasLocalInspector && cfg.checks.hasRemoteInspector
          then a.remote.Some? && !(a.remote.value.purged <= localBefore.executed)
          else !cfg.checks.allowDataLoss)
    }

    ghost method PassPreFlight()
      requires Safe() && !world.remoteWritable
      modifies world`calls
      ensures Safe() && world.calls == old(world.calls) + [Cleared] && !Undemoted(world.calls)
    {
      hide Disciplined, SqlFenceHolds, BlackholeHolds, Undemoted, Replay;
      Snoc(world.start, world.calls, Cleared);
      world.Clear();
    }

    /** An attempt from its passed preflight on. */
    method ExecuteCleared(report: P.Report)
      returns (result: Result, ghost t: Trace, ghost reverseOk: bool)
      requires Safe() && reporter.Valid() && reporter.completed == Passed(Fence, false)
      requires !Undemoted(world.calls)
      modifies world, reporter, reporter.policy
      ensures Safe() && NothingLost() && reporter.Valid()
      ensures Reached(result) == Verify ==> !world.remoteWritable || world.readFailures > old(world.readFailures)
      ensures t.fence == [] <==> world.cancellations > old(world.cancellations)
      ensures old(reporter.lost) <= reporter.lost
      ensures old(reporter.UpToDate()) && reporter.lost == old(reporter.lost) ==> reporter.UpToDate()
      ensures world.calls == old(world.calls) + t.fence + t.promote + t.routing + t.reverse + t.undo
      ensures Attempted(cfg, t, Reached(result), reverseOk)
      ensures t.promote != [] ==> t.promote[0].EnableRemote? && old(world.remote).executed <= t.promote[0].executed
      ensures result.Panicked? <==> Reached(result) == Routing && !cfg.hasProxySQL
      ensures result.Finished? ==>
        && (result.success <==> result.failedPhase == Done)
        && (result.rolledBack <==> result.failedPhase in {Fence, Promote, Routing} && t.fence != [])
        && (result.success ==> world.remoteWritable)
      ensures reporter.completed == Passed(Reached(result), reverseOk)
    {
      hide Reporter.Valid, Reporter.UpToDate;
      hide Disciplined, SqlFenceHolds, BlackholeHolds, Undemoted, Replay, World.Valid, FenceRun, PromoteRun,
           RoutingRun, ReverseRun, UndoRun, Undone,
           Reversed, Undoable, SoundDemotions, Attempted;
      reverseOk, t := false, Trace([], [], [], [], []);
      var completed := [PreFlight];
      if cfg.drains {
        var cancelled := world.Drain();
        if cancelled {
          AttemptedFence(cfg, []);
          return Finished(false, Fence, false, report), t, reverseOk;
        }
      }
      reporter.OnPhaseStart(Fence);
      var ok;
      ghost var made;
      ok, made := PhaseFence();
      t := t.(fence := made);
      if !ok {
        reporter.OnPhaseError(Fence);
        ghost var undo := Rollback(completed);
        RollbackShape(undo, completed);
        AttemptedFence(cfg, made);
        return Finished(false, Fence, true, report), t, reverseOk;
      }
      reporter.OnPhaseComplete(Fence);
      result, t, reverseOk := ExecuteFenced(report, t);
    }

    /** An attempt whose preflight has just passed: its log, and what the reporter was told. */
    method ExecutePassed(report: P.Report)
      returns (result: Result, ghost t: Trace, ghost reverseOk: bool)
      requires Safe() && reporter.Valid() && reporter.completed == [] && !world.remoteWritable
      modifies world, reporter, reporter.policy
      ensures Safe() && NothingLost() && reporter.Valid()
      ensures world.calls == old(world.calls) + All(t) && world.Now() == Replay(old(world.Now()), All(t))
      ensures Attempted(cfg, t, Reached(result), reverseOk)
      ensures t.promote != [] ==> t.promote[0].EnableRemote? && old(world.remote).executed <= t.promote[0].executed
      ensures t.fence == [] <==> world.cancellations > old(world.cancellations)
      ensures Reached(result) == Verify ==> !world.remoteWritable || world.readFailures > old(world.readFailures)
      ensures Checkpointed()
      ensures result.Panicked? <==> Reached(result) == Routing && !cfg.hasProxySQL
      ensures result.Finished? ==>
        && (result.success <==> result.failedPhase == Done)
        && (result.rolledBack <==> result.failedPhase in {Fence, Promote, Routing} && t.fence != [])
        && (result.success ==> world.remoteWritable)
      ensures
        && world.cancellations == old(world.cancellations) && t.fence != [] && cfg.hasProxySQL
        && ((t.fence[0].FenceLocal? && t.fence[0].r.ok)
            || (t.fence[|t.fence| - 1].BlackholeLocal? && t.fence[|t.fence| - 1].c.ok))
        && (t.promote != [] ==> t.promote[0].EnableRemote? && t.promote[0].r.ok)
        && (t.routing != [] ==> t.routing[0].RouteToRemote? && t.routing[0].c.ok)
        && world.remoteWritable && world.readFailures == old(world.readFailures)
        ==> result.Finished? && result.success
      ensures Ascending(reporter.completed)
      ensures forall ph :: ph in reporter.completed <==>
                Index(ph) < Index(Reached(result)) && (ph == ReverseReplica ==> reverseOk)
    {
      hide Disciplined, SqlFenceHolds, BlackholeHolds, Undemoted, Replay, Attempted, Passed, Reporter.Valid,
           Reporter.UpToDate, Ascending;
      reporter.OnPhaseComplete(PreFlight);
      PassPreFlight();
      PassedAtFence();
      result, t, reverseOk := ExecuteCleared(report);
      ExecuteOrder(t, old(world.calls));
      SameReplay(world.start, old(world.calls), All(t), old(world.Now()), world.Now());
      PassedInOrder(Reached(result), reverseOk);
      OnlyVerifyRemains(cfg, t, Reached(result), reverseOk);
    }

    /** One attempt. Preflight failures leave no trace. Otherwise the calls made are a
        forward part and the rollback's, as Attempted describes; every call obeyed the
        discipline; and what the reporter was told is exactly what was passed. */
    method Execute() returns (result: Result, ghost a: P.Answers, ghost t: Trace, ghost reverseOk: bool)
      requires Safe() && reporter.Valid() && reporter.completed == []
      modifies world, reporter, reporter.policy
      ensures Safe() && NothingLost() && reporter.Valid()
      ensures !P.Gate(cfg.checks, a) ==>
        && result.Finished? && !result.success && result.failedPhase == PreFlight && !result.rolledBack
        && world.calls == old(world.calls) && reporter.completed == []
      ensures P.Gate(cfg.checks, a) ==>
        && !old(world.remoteWritable)
        && world.calls == old(world.calls) + All(t) && world.Now() == Replay(old(world.Now()), All(t))
        && Attempted(cfg, t, Reached(result), reverseOk)
      ensures !P.Gate(cfg.checks, a) ==>
        PreFlightFails(a, old(world.local)) || world.readFailures > old(world.readFailures)
      ensures P.Gate(cfg.checks, a) ==>
        && cfg.checks.hasRemote && !cfg.checks.quarantined && old(P.SettingsHold(world, cfg.checks))
        && (a.local.Some? ==>
              && old(world.local).executed <= a.local.value.executed <= world.remote.executed
              && (t.promote != [] ==> t.promote[0].EnableRemote? && a.local.value.executed <= t.promote[0].executed))
        && (a.local.None? ==> cfg.checks.allowDataLoss)
      ensures P.Gate(cfg.checks, a) ==>
        && (t.fence == [] <==> world.cancellations > old(world.cancellations))
        && (Reached(result) == Verify ==> !world.remoteWritable || world.readFailures > old(world.readFailures))
      ensures
        && P.Gate(cfg.checks, a)
        && world.cancellations == old(world.cancellations) && t.fence != [] && cfg.hasProxySQL
        && ((t.fence[0].FenceLocal? && t.fence[0].r.ok)
            || (t.fence[|t.fence| - 1].BlackholeLocal? && t.fence[|t.fence| - 1].c.ok))
        && (t.promote != [] ==> t.promote[0].EnableRemote? && t.promote[0].r.ok)
        && (t.routing != [] ==> t.routing[0].RouteToRemote? && t.routing[0].c.ok)
        && world.remoteWritable && world.readFailures == old(world.readFailures)
        ==> result.Finished? && result.success
      ensures Checkpointed()
      ensures result.Panicked? <==> P.Gate(cfg.checks, a) && Reached(result) == Routing && !cfg.hasProxySQL
      ensures result.Finished? ==>
        && (result.success <==> result.failedPhase == Done)
        && (result.rolledBack <==> result.failedPhase in {Fence, Promote, Routing} && t.fence != [])
        && (result.success ==> world.remoteWritable)
      ensures P.Gate(cfg.checks, a) ==>
        && Ascending(reporter.completed)
        && forall ph :: ph in reporter.completed <==>
             Index(ph) < Index(Reached(result)) && (ph == ReverseReplica ==> reverseOk)
    {
      hide Disciplined, SqlFenceHolds, BlackholeHolds, Undemoted, Replay, Attempted, P.Gate, P.SettingsHold,
           Passed, Reporter.Valid, Reporter.UpToDate, Ascending, All;
      reverseOk, t := false, Trace([], [], [], [], []);
      reporter.OnPhaseStart(PreFlight);
      var passed, report;
      passed, report, a := PhasePreFlight();
      if !passed {
        reporter.OnPhaseError(PreFlight);
        return Finished(false, PreFlight, false, report), a, t, reverseOk;
      }
      result, t, reverseOk := ExecutePassed(report);
    }
  }

  lemma PassedAtFence()
    ensures Passed(Fence, false) == [PreFlight]
  {
  }

  lemma SameReplay(start: Sides, log: seq<Call>, made: seq<Call>, before: Sides, after: Sides)
    requires before == Replay(start, log) && after == Replay(start, log + made)
    ensures after == Replay(before, made)
  {
    ReplayConcat(start, log, made);
  }

  lemma ExecuteOrder(t: Trace, log: seq<Call>)
    ensures log + [Cleared] + t.fence + t.promote + t.routing + t.reverse + t.undo == log + All(t)
  {
  }
}

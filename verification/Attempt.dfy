/** One switchover attempt as the calls it leaves behind, and what those calls amount to
    for every pattern of faults (internal/switchover/engine.go). */
module Attempt {
  import opened Clusters
  import opened Faults
  import opened Progress
  import Preflight

  /** Which optional parts of the engine's configuration are set. */
  datatype Config = Config(
    checks: Preflight.Config, drains: bool, hasProxySQL: bool, proxies: set<Proxy>, hasRemoteReplication: bool,
    hasReverseSource: bool, hasLocalReplication: bool)
  {
    predicate StopsRemote() { hasRemoteReplication && checks.channel != "" }
    predicate Reverses() { hasReverseSource && hasLocalReplication }
  }

  /** The calls of an attempt that passed preflight, phase by phase. */
  datatype Trace = Trace(fence: seq<Call>, promote: seq<Call>, routing: seq<Call>, reverse: seq<Call>, undo: seq<Call>)

  function Forward(t: Trace): seq<Call> { [Cleared] + t.fence + t.promote + t.routing + t.reverse }

  function All(t: Trace): seq<Call> { Forward(t) + t.undo }

  predicate Sound(r: Outcome) { r.ok ==> r.applied }

  /** SQL fence; if it fails, probe where there is an inspector; if the local side does not
      answer, blackhole where there is a ProxySQL. */
  predicate FenceRun(p: Config, s: seq<Call>, ok: bool)
  {
    && s != [] && s[0].FenceLocal? && Sound(s[0].r)
    && if s[0].r.ok then |s| == 1 && ok
       else if p.checks.hasLocalInspector then
         && |s| >= 2 && s[1].ProbeLocal?
         && if s[1].reachable then |s| == 2 && !ok
            else if p.hasProxySQL then |s| == 3 && Blackholes(p, s[2], ok)
            else |s| == 2 && !ok
       else if p.hasProxySQL then |s| == 2 && Blackholes(p, s[1], ok)
       else |s| == 1 && !ok
  }

  predicate Blackholes(p: Config, c: Call, ok: bool)
  {
    c.BlackholeLocal? && LegalFence(c.c, p.proxies) && c.c.ok == ok
  }

  predicate RoutingRun(p: Config, s: seq<Call>, ok: bool)
  {
    |s| == 1 && s[0].RouteToRemote? && LegalRoute(s[0].c, p.proxies) && s[0].c.ok == ok
  }

  predicate PromoteRun(p: Config, s: seq<Call>, ok: bool)
  {
    && s != [] && s[0].EnableRemote? && s[0].r.ok == ok
    && if ok && p.StopsRemote()
       then |s| == 3 && s[1].StopReplica? && s[1].onRemote && s[2].ResetReplica? && s[2].onRemote
       else |s| == 1
  }

  predicate ReverseRun(p: Config, s: seq<Call>, ok: bool)
  {
    if p.Reverses() then
      && s != [] && s[0].StopReplica? && !s[0].onRemote
      && if s[0].ok then |s| == 2 && s[1].ResetReplica? && !s[1].onRemote && s[1].ok == ok else |s| == 1 && !ok
    else s == [] && !ok
  }

  /** The local side is re-enabled last, after any demotion. */
  predicate UndoRun(s: seq<Call>)
  {
    || (|s| == 1 && s[0].ReenableLocal?)
    || (|s| == 2 && s[0].DemoteRemote? && Sound(s[0].r) && s[1].ReenableLocal?)
  }

  predicate Demoted(s: seq<Call>) { |s| == 2 && s[0].DemoteRemote? && s[0].r.applied }

  predicate Reenabled(s: seq<Call>) { s != [] && s[|s| - 1].ReenableLocal? && s[|s| - 1].r.applied }

  /** The attempt passed every phase before `reached` and failed there; Done is success. */
  predicate Attempted(p: Config, t: Trace, reached: Phase, reverseOk: bool)
  {
    match reached
    case PreFlight => false
    case Fence =>
      && (FenceRun(p, t.fence, false) || (p.drains && t.fence == []))
      && t.promote == t.routing == t.reverse == t.undo == []
    case Promote =>
      && FenceRun(p, t.fence, true) && PromoteRun(p, t.promote, false)
      && t.routing == t.reverse == []
      && UndoRun(t.undo) && |t.undo| == 1
    case Routing =>
      && FenceRun(p, t.fence, true) && PromoteRun(p, t.promote, true) && t.reverse == []
      && if p.hasProxySQL then
           && RoutingRun(p, t.routing, false)
           && UndoRun(t.undo) && |t.undo| == 2
         else t.routing == t.undo == []
    case ReverseReplica => false
    case _ =>
      && FenceRun(p, t.fence, true) && PromoteRun(p, t.promote, true)
      && p.hasProxySQL && RoutingRun(p, t.routing, true)
      && ReverseRun(p, t.reverse, reverseOk) && t.undo == []
  }

  // --- what these runs mean, call by call -------------------------------------------------

  /** A fence phase passes exactly if its SQL fence or its blackhole succeeded. A blackhole
      is made exactly when the SQL fence failed, there is a ProxySQL, and the local side was
      not found reachable; and it is looked for wherever there is an inspector. */
  lemma FenceEscalates(p: Config, s: seq<Call>, ok: bool)
    requires FenceRun(p, s, ok)
    ensures var sql, last := s[0], s[|s| - 1];
            && sql.FenceLocal? && (sql.r.ok ==> sql.r.applied && |s| == 1)
            && (ok <==> sql.r.ok || (last.BlackholeLocal? && last.c.ok))
            && (!sql.r.ok && p.checks.hasLocalInspector ==> |s| > 1 && s[1].ProbeLocal?)
            && (last.BlackholeLocal? <==>
                  && !sql.r.ok && p.hasProxySQL
                  && !(p.checks.hasLocalInspector && |s| > 1 && s[1] == ProbeLocal(true)))
            && (last.BlackholeLocal? && last.c.ok ==> last.c.loaded == p.proxies)
  {
  }

  /** A promotion is one attempt to write-enable the remote; if it succeeds, replication on
      the remote is stopped and reset wherever there is a controller and a channel. */
  lemma PromoteStopsReplication(p: Config, s: seq<Call>, ok: bool)
    requires PromoteRun(p, s, ok)
    ensures s != [] && s[0].EnableRemote? && (ok <==> s[0].r.ok)
    ensures ok && p.hasRemoteReplication && p.checks.channel != "" ==>
      |s| == 3 && s[1].StopReplica? && s[1].onRemote && s[2].ResetReplica? && s[2].onRemote
    ensures !ok || !p.hasRemoteReplication || p.checks.channel == "" ==> |s| == 1
  {
  }

  /** An attempt that is not cancelled tries to fence; one that is fenced tries to promote;
      one that is promoted tries to route, if there is a ProxySQL, and otherwise crashes; one
      that has routed sets up the reverse replica where that is configured, and verifies. */
  lemma NothingHoldsBack(p: Config, t: Trace, reached: Phase, reverseOk: bool)
    requires Attempted(p, t, reached, reverseOk)
    ensures t.fence == [] ==> p.drains && reached == Fence
    ensures
      && t.fence != []
      && (t.fence[0].r.ok || (t.fence[|t.fence| - 1].BlackholeLocal? && t.fence[|t.fence| - 1].c.ok))
      <==> t.promote != []
    ensures t.promote != [] && t.promote[0].r.ok && p.hasProxySQL <==> t.routing != []
    ensures t.promote != [] && t.promote[0].r.ok && !p.hasProxySQL ==> reached == Routing
    ensures t.routing != [] && t.routing[0].c.ok <==> reached == Verify || reached == Done
    ensures t.routing != [] && t.routing[0].c.ok && p.hasReverseSource && p.hasLocalReplication <==> t.reverse != []
    ensures t.reverse != [] ==> t.reverse[0].StopReplica? && !t.reverse[0].onRemote
    ensures t.routing != [] && t.routing[0].c.ok ==>
      (reverseOk <==> |t.reverse| == 2 && t.reverse[0].ok && t.reverse[1].ResetReplica? && t.reverse[1].ok)
    ensures t.reverse != [] && t.reverse[0].ok ==>
      |t.reverse| == 2 && t.reverse[1].ResetReplica? && !t.reverse[1].onRemote
  {
    Parts(p, t, reached, reverseOk);
    if t.fence != [] {
      FenceEscalates(p, t.fence, reached != Fence);
    }
    if t.promote != [] {
      PromoteStopsReplication(p, t.promote, reached != Promote);
    }
    hide FenceRun, PromoteRun;
  }

  /** When the drain is over and every fence, promotion and routing call made succeeded, only
      the verification can still fail. */
  lemma OnlyVerifyRemains(p: Config, t: Trace, reached: Phase, reverseOk: bool)
    requires Attempted(p, t, reached, reverseOk)
    ensures
      && t.fence != [] && p.hasProxySQL
      && ((t.fence[0].FenceLocal? && t.fence[0].r.ok)
          || (t.fence[|t.fence| - 1].BlackholeLocal? && t.fence[|t.fence| - 1].c.ok))
      && (t.promote != [] ==> t.promote[0].EnableRemote? && t.promote[0].r.ok)
      && (t.routing != [] ==> t.routing[0].RouteToRemote? && t.routing[0].c.ok)
      ==> reached == Verify || reached == Done
  {
    NothingHoldsBack(p, t, reached, reverseOk);
    hide Attempted;
  }

  /** What is undone, call by call: a promotion that reported failure re-enables the local
      side; a routing change that did demotes the remote first; nothing else undoes. */
  lemma WhatIsUndone(p: Config, t: Trace, reached: Phase, reverseOk: bool)
    requires Attempted(p, t, reached, reverseOk)
    ensures t.promote != [] && !t.promote[0].r.ok <==> |t.undo| == 1
    ensures t.routing != [] && !t.routing[0].c.ok <==> |t.undo| == 2
    ensures |t.undo| <= 2
    ensures |t.undo| == 1 ==> t.undo[0].ReenableLocal?
    ensures |t.undo| == 2 ==> t.undo[0].DemoteRemote? && t.undo[1].ReenableLocal?
  {
    Parts(p, t, reached, reverseOk);
    hide FenceRun, ReverseRun;
  }

  // --- phases as the log shows them -------------------------------------------------------

  function Completes(c: Call): seq<Phase>
  {
    match c
    case FenceLocal(r) => if r.ok then [Fence] else []
    case BlackholeLocal(c) => if c.ok then [Fence] else []
    case EnableRemote(r, _) => if r.ok then [Promote] else []
    case RouteToRemote(c) => if c.ok then [Routing] else []
    case _ => []
  }

  function Undoes(c: Call): seq<Phase>
  {
    match c
    case DemoteRemote(_) => [Promote]
    case ReenableLocal(_) => [Fence]
    case RestoreRouting(_) => [Routing]
    case _ => []
  }

  /** The phases whose completion the log shows, in order. */
  function Completed(log: seq<Call>): seq<Phase>
  {
    if log == [] then [] else Completed(log[..|log| - 1]) + Completes(log[|log| - 1])
  }

  /** The phases whose undo the log shows, in order. */
  function Undone(log: seq<Call>): seq<Phase>
  {
    if log == [] then [] else Undone(log[..|log| - 1]) + Undoes(log[|log| - 1])
  }

  function Reversed<T>(s: seq<T>): seq<T>
  {
    if s == [] then [] else [s[|s| - 1]] + Reversed(s[..|s| - 1])
  }

  lemma Append<T>(a: seq<T>, b: seq<T>, c: seq<T>)
    ensures (a + b) + c == a + (b + c)
  {
  }

  lemma CompletedSnoc(log: seq<Call>, c: Call)
    ensures Completed(log + [c]) == Completed(log) + Completes(c)
  {
    hide Completes;
    assert (log + [c])[..|log|] == log;
  }

  /** Reversing keeps every element, in the opposite place. */
  lemma {:induction false} ReversedAt<T>(s: seq<T>, i: nat)
    requires i < |s|
    ensures |Reversed(s)| == |s| && Reversed(s)[i] == s[|s| - 1 - i]
  {
    if |s| > 1 {
      ReversedAt(s[..|s| - 1], if i == 0 then 0 else i - 1);
    }
  }

  /** The undone phases, call by call. */
  lemma {:induction false} UndoneIff(s: seq<Call>)
    ensures Promote in Undone(s) <==> exists i :: 0 <= i < |s| && s[i].DemoteRemote?
    ensures Fence in Undone(s) <==> exists i :: 0 <= i < |s| && s[i].ReenableLocal?
    ensures Routing in Undone(s) <==> exists i :: 0 <= i < |s| && s[i].RestoreRouting?
  {
    if s != [] {
      var init, last := s[..|s| - 1], s[|s| - 1];
      UndoneIff(init);
      UndoneSnoc(init, last);
      assert s == init + [last];
      hide Undone;
    }
  }

  lemma {:induction false} CompletedConcat(a: seq<Call>, b: seq<Call>)
    ensures Completed(a + b) == Completed(a) + Completed(b)
  {
    hide Completes;
    if b == [] {
      assert a + b == a;
    } else {
      var c, d := b[..|b| - 1], b[|b| - 1];
      CompletedConcat(a, c);
      CompletedSnoc(a + c, d);
      assert a + b == (a + c) + [d];
      Append(Completed(a), Completed(c), Completes(d));
    }
  }

  lemma UndoneSnoc(log: seq<Call>, c: Call)
    ensures Undone(log + [c]) == Undone(log) + Undoes(c)
  {
    hide Undoes;
    assert (log + [c])[..|log|] == log;
  }

  lemma {:induction false} UndoneConcat(a: seq<Call>, b: seq<Call>)
    ensures Undone(a + b) == Undone(a) + Undone(b)
  {
    hide Undoes;
    if b == [] {
      assert a + b == a;
    } else {
      var c, d := b[..|b| - 1], b[|b| - 1];
      UndoneConcat(a, c);
      UndoneSnoc(a + c, d);
      assert a + b == (a + c) + [d];
      Append(Undone(a), Undone(c), Undoes(d));
    }
  }

  lemma {:induction false} ReplayConcat(s: Sides, a: seq<Call>, b: seq<Call>)
    ensures Replay(s, a + b) == Replay(Replay(s, a), b)
  {
    if b == [] {
      assert a + b == a;
    } else {
      ReplayConcat(s, a, b[..|b| - 1]);
      assert (a + b)[..|a + b| - 1] == a + b[..|b| - 1];
    }
  }

  lemma One(s: seq<Call>, c: Call)
    requires s == [c]
    ensures Completed(s) == Completes(c) && Undone(s) == Undoes(c)
    ensures forall x :: Replay(x, s) == Step(x, c)
  {
    assert s[..0] == [];
  }

  lemma Two(s: seq<Call>, c: Call, d: Call)
    requires s == [c, d]
    ensures Completed(s) == Completes(c) + Completes(d) && Undone(s) == Undoes(c) + Undoes(d)
    ensures forall x :: Replay(x, s) == Step(Step(x, c), d)
  {
    assert s[..1] == [c];
    One(s[..1], c);
  }

  lemma Three(s: seq<Call>, c: Call, d: Call, e: Call)
    requires s == [c, d, e]
    ensures Completed(s) == Completes(c) + Completes(d) + Completes(e)
    ensures Undone(s) == Undoes(c) + Undoes(d) + Undoes(e)
    ensures forall x :: Replay(x, s) == Step(Step(Step(x, c), d), e)
  {
    assert s[..2] == [c, d];
    Two(s[..2], c, d);
  }

  lemma Short(s: seq<Call>)
    requires 1 <= |s| <= 3
    ensures |s| == 1 ==> Completed(s) == Completes(s[0]) && Undone(s) == Undoes(s[0])
    ensures |s| == 2 ==> Completed(s) == Completes(s[0]) + Completes(s[1]) && Undone(s) == Undoes(s[0]) + Undoes(s[1])
    ensures |s| == 3 ==>
      && Completed(s) == Completes(s[0]) + Completes(s[1]) + Completes(s[2])
      && Undone(s) == Undoes(s[0]) + Undoes(s[1]) + Undoes(s[2])
    ensures |s| == 1 ==> forall x :: Replay(x, s) == Step(x, s[0])
    ensures |s| == 2 ==> forall x :: Replay(x, s) == Step(Step(x, s[0]), s[1])
    ensures |s| == 3 ==> forall x :: Replay(x, s) == Step(Step(Step(x, s[0]), s[1]), s[2])
  {
    if |s| == 1 {
      One(s, s[0]);
    } else if |s| == 2 {
      Two(s, s[0], s[1]);
    } else {
      Three(s, s[0], s[1], s[2]);
    }
  }

  lemma Parts(p: Config, t: Trace, reached: Phase, reverseOk: bool)
    requires Attempted(p, t, reached, reverseOk)
    ensures Index(reached) >= Index(Fence)
    ensures if reached == Fence && t.fence == [] then true else FenceRun(p, t.fence, reached != Fence)
    ensures if reached == Fence then t.promote == [] else PromoteRun(p, t.promote, reached != Promote)
    ensures t.routing == [] || RoutingRun(p, t.routing, reached != Routing)
    ensures Index(reached) < Index(Routing) ==> t.routing == []
    ensures Index(reached) > Index(Routing) ==> RoutingRun(p, t.routing, true)
    ensures t.reverse == [] || ReverseRun(p, t.reverse, reverseOk)
    ensures t.undo == [] || UndoRun(t.undo)
    ensures reached == Promote ==> |t.undo| == 1
    ensures reached == Routing && p.hasProxySQL ==> |t.undo| == 2
    ensures reached != Promote && !(reached == Routing && p.hasProxySQL) ==> t.undo == []
  {
    hide FenceRun, PromoteRun, ReverseRun;
  }

  const NO_CHANGE := Change(false, {}, {}, {})

  /** What the attempt's blackhole did, if it made one. */
  function FenceChange(s: seq<Call>): Change
  {
    if s != [] && s[|s| - 1].BlackholeLocal? then s[|s| - 1].c else NO_CHANGE
  }

  /** What the attempt's routing change did, if it made one. */
  function RouteChange(s: seq<Call>): Change
  {
    if s != [] && s[0].RouteToRemote? then s[0].c else NO_CHANGE
  }

  function Fenced(x: Sides, c: Change): Sides
  {
    Publish(x, Routes(x.staged.local - c.removed, x.staged.remote), c.loaded)
  }

  function Routed(x: Sides, c: Change): Sides
  {
    Publish(x, Routes(x.staged.local - c.removed, x.staged.remote + c.added), c.loaded)
  }

  lemma NothingPublished(x: Sides)
    ensures Fenced(x, NO_CHANGE) == x && Routed(x, NO_CHANGE) == x
  {
    assert x.staged.local - {} == x.staged.local && x.staged.remote + {} == x.staged.remote;
    assert (x.runtime.local - {}) + (x.staged.local * {}) == x.runtime.local;
    assert (x.runtime.remote - {}) + (x.staged.remote * {}) == x.runtime.remote;
  }

  /** The effect of a fence phase; none of its calls touches the remote side. */
  lemma FenceEffect(p: Config, s: seq<Call>, ok: bool, x: Sides)
    requires FenceRun(p, s, ok)
    ensures s != [] && s[0].FenceLocal?
    ensures Replay(x, s) == Fenced(x.(localWritable := x.localWritable && !s[0].r.applied), FenceChange(s))
    ensures LegalFence(FenceChange(s), p.proxies) || FenceChange(s) == NO_CHANGE
    ensures s[0].r.ok ==> ok && s[0].r.applied && FenceChange(s) == NO_CHANGE
    ensures ok && !s[0].r.ok ==> LegalFence(FenceChange(s), p.proxies) && FenceChange(s).ok
  {
    hide Completed, Undone, Replay, Publish;
    Short(s);
    NothingPublished(x.(localWritable := x.localWritable && !s[0].r.applied));
  }

  lemma PromoteEffect(p: Config, s: seq<Call>, ok: bool, x: Sides)
    requires PromoteRun(p, s, ok)
    ensures s != [] && s[0].EnableRemote? && s[0].r.ok == ok
    ensures Replay(x, s) == if s[0].r.applied then x.(remoteWritable := true) else x
  {
    hide Completed, Undone, Replay;
    Short(s);
  }

  lemma RoutingEffect(p: Config, s: seq<Call>, ok: bool, x: Sides)
    requires RoutingRun(p, s, ok)
    ensures Replay(x, s) == Routed(x, RouteChange(s)) && LegalRoute(RouteChange(s), p.proxies)
  {
    hide Replay, Publish;
    Short(s);
  }

  lemma QuietStep(c: Call, x: Sides)
    requires c.StopReplica? || c.ResetReplica?
    ensures Step(x, c) == x
  {
  }

  lemma ReverseEffect(p: Config, s: seq<Call>, ok: bool, x: Sides)
    requires ReverseRun(p, s, ok)
    ensures Replay(x, s) == x
  {
    if s == [] {
      assert Replay(x, []) == x;
    } else {
      hide Completed, Undone, Replay, Step;
      Short(s);
      QuietStep(s[0], x);
      if |s| == 2 {
        QuietStep(s[1], x);
      }
    }
  }

  lemma UndoEffect(s: seq<Call>, x: Sides)
    requires UndoRun(s)
    ensures Replay(x, s) ==
      x.(remoteWritable := x.remoteWritable && !Demoted(s), localWritable := x.localWritable || Reenabled(s))
  {
    hide Completed, Undone, Replay;
    Short(s);
  }

  lemma FencePhases(p: Config, s: seq<Call>, ok: bool)
    requires FenceRun(p, s, ok)
    ensures Completed(s) == (if ok then [Fence] else []) && Undone(s) == []
  {
    hide Completed, Undone, Replay;
    Short(s);
  }

  lemma PromotePhases(p: Config, s: seq<Call>, ok: bool)
    requires PromoteRun(p, s, ok)
    ensures Completed(s) == (if ok then [Promote] else []) && Undone(s) == []
  {
    hide Completed, Undone, Replay;
    Short(s);
  }

  lemma RoutingPhases(p: Config, s: seq<Call>, ok: bool)
    requires RoutingRun(p, s, ok)
    ensures Completed(s) == (if ok then [Routing] else []) && Undone(s) == []
  {
    hide Completed, Undone, Replay;
    Short(s);
  }

  lemma ReversePhases(p: Config, s: seq<Call>, ok: bool)
    requires ReverseRun(p, s, ok)
    ensures Completed(s) == [] && Undone(s) == []
  {
    if s != [] {
      hide Completed, Undone, Replay;
      Short(s);
    }
  }

  lemma UndoPhases(s: seq<Call>)
    requires UndoRun(s)
    ensures Undone(s) == if |s| == 1 then [Fence] else [Promote, Fence]
    ensures |s| == 1 || |s| == 2
  {
    hide Completed, Undone, Replay;
    Short(s);
  }

  lemma RegroupCompleted(t: Trace)
    ensures Completed(Forward(t)) ==
      Completed(t.fence) + Completed(t.promote) + Completed(t.routing) + Completed(t.reverse)
  {
    hide Completed;
    var a := [Cleared] + t.fence;
    One([Cleared], Cleared);
    CompletedConcat([Cleared], t.fence);
    CompletedConcat(a, t.promote);
    CompletedConcat(a + t.promote, t.routing);
    CompletedConcat(a + t.promote + t.routing, t.reverse);
  }

  lemma RegroupUndone(t: Trace)
    ensures Undone(Forward(t)) == Undone(t.fence) + Undone(t.promote) + Undone(t.routing) + Undone(t.reverse)
  {
    hide Undone;
    var a := [Cleared] + t.fence;
    One([Cleared], Cleared);
    UndoneConcat([Cleared], t.fence);
    UndoneConcat(a, t.promote);
    UndoneConcat(a + t.promote, t.routing);
    UndoneConcat(a + t.promote + t.routing, t.reverse);
  }

  lemma RegroupSides(t: Trace, x: Sides)
    ensures Replay(x, All(t)) ==
      Replay(Replay(Replay(Replay(Replay(x, t.fence), t.promote), t.routing), t.reverse), t.undo)
  {
    hide Replay;
    var a := [Cleared] + t.fence;
    One([Cleared], Cleared);
    ReplayConcat(x, [Cleared], t.fence);
    ReplayConcat(x, a, t.promote);
    ReplayConcat(x, a + t.promote, t.routing);
    ReplayConcat(x, a + t.promote + t.routing, t.reverse);
    ReplayConcat(x, Forward(t), t.undo);
  }

  function ReachedPhases(reached: Phase): seq<Phase>
  {
    match reached
    case PreFlight => []
    case Fence => []
    case Promote => [Fence]
    case Routing => [Fence, Promote]
    case _ => [Fence, Promote, Routing]
  }

  lemma Joined(reached: Phase)
    requires Index(reached) >= Index(Fence)
    ensures
      (if reached == Fence then [] else [Fence])
      + (if Index(reached) > Index(Promote) then [Promote] else [])
      + (if Index(reached) > Index(Routing) then [Routing] else []) + [] == ReachedPhases(reached)
  {
  }

  lemma Nothing()
    ensures Completed([]) == [] && Undone([]) == []
  {
  }

  lemma FencePhasesOf(p: Config, t: Trace, reached: Phase, reverseOk: bool)
    requires Attempted(p, t, reached, reverseOk)
    ensures Completed(t.fence) == (if reached == Fence then [] else [Fence]) && Undone(t.fence) == []
  {
    Parts(p, t, reached, reverseOk);
    Nothing();
    hide Attempted, Completed, Undone, FenceRun, PromoteRun, ReverseRun, UndoRun;
    if t.fence != [] {
      FencePhases(p, t.fence, reached != Fence);
    }
  }

  lemma PromotePhasesOf(p: Config, t: Trace, reached: Phase, reverseOk: bool)
    requires Attempted(p, t, reached, reverseOk)
    ensures Completed(t.promote) == (if Index(reached) > Index(Promote) then [Promote] else [])
    ensures Undone(t.promote) == []
  {
    Parts(p, t, reached, reverseOk);
    Nothing();
    hide Attempted, Completed, Undone, FenceRun, PromoteRun, ReverseRun, UndoRun;
    if reached != Fence {
      PromotePhases(p, t.promote, reached != Promote);
    }
  }

  lemma RoutingPhasesOf(p: Config, t: Trace, reached: Phase, reverseOk: bool)
    requires Attempted(p, t, reached, reverseOk)
    ensures Completed(t.routing) == (if Index(reached) > Index(Routing) then [Routing] else [])
    ensures Undone(t.routing) == []
  {
    Parts(p, t, reached, reverseOk);
    Nothing();
    hide Attempted, Completed, Undone, FenceRun, PromoteRun, ReverseRun, UndoRun;
    if t.routing != [] {
      RoutingPhases(p, t.routing, reached != Routing);
    }
  }

  lemma LaterPhasesOf(p: Config, t: Trace, reached: Phase, reverseOk: bool)
    requires Attempted(p, t, reached, reverseOk)
    ensures Completed(t.reverse) == [] && Undone(t.reverse) == []
    ensures Undone(t.undo) == if |t.undo| == 0 then [] else if |t.undo| == 1 then [Fence] else [Promote, Fence]
  {
    Parts(p, t, reached, reverseOk);
    Nothing();
    hide Attempted, Completed, Undone, FenceRun, PromoteRun, ReverseRun, UndoRun;
    if t.reverse != [] {
      ReversePhases(p, t.reverse, reverseOk);
    }
    if t.undo != [] {
      UndoPhases(t.undo);
    }
  }

  /** The log of an attempt shows the completed phases in the engine's order, without a
      gap, up to the phase it reached; and the undo calls are exactly their reverse, or
      none at all once routing has passed or has crashed. */
  lemma UndoMirrorsProgress(p: Config, t: Trace, reached: Phase, reverseOk: bool)
    requires Attempted(p, t, reached, reverseOk)
    ensures Completed(Forward(t)) == ReachedPhases(reached) && Undone(Forward(t)) == []
    ensures |t.undo| == |Undone(t.undo)|
    ensures Undone(t.undo) ==
      if reached == Promote || (reached == Routing && p.hasProxySQL) then Reversed(Completed(Forward(t))) else []
  {
    hide Completed, Undone, FenceRun, PromoteRun, ReverseRun, Reversed;
    Parts(p, t, reached, reverseOk);
    FencePhasesOf(p, t, reached, reverseOk);
    PromotePhasesOf(p, t, reached, reverseOk);
    RoutingPhasesOf(p, t, reached, reverseOk);
    LaterPhasesOf(p, t, reached, reverseOk);
    hide Attempted, UndoRun;
    RegroupCompleted(t);
    RegroupUndone(t);
    Joined(reached);
    ReversedPhases();
  }

  lemma ReversedPhases()
    ensures Reversed([Fence]) == [Fence] && Reversed([Fence, Promote]) == [Promote, Fence]
  {
    assert [Fence][..0] == [] && [Fence, Promote][..1] == [Fence];
    assert Reversed([Fence, Promote]) == [Promote] + Reversed([Fence]);
  }

  predicate FenceApplied(t: Trace) { t.fence != [] && t.fence[0].FenceLocal? && t.fence[0].r.applied }

  /** The SQL fence reported success. */
  predicate FenceOk(t: Trace) { t.fence != [] && t.fence[0].FenceLocal? && t.fence[0].r.ok }

  predicate PromoteApplied(t: Trace) { t.promote != [] && t.promote[0].EnableRemote? && t.promote[0].r.applied }

  /** Writability after an attempt, wherever it stopped. */
  function LocalAfter(t: Trace, x: Sides): bool { Reenabled(t.undo) || (x.localWritable && !FenceApplied(t)) }

  function RemoteAfter(t: Trace, x: Sides): bool
  {
    !Demoted(t.undo) && (PromoteApplied(t) || x.remoteWritable)
  }

  /** The routes after an attempt: what its blackhole and then its routing change loaded. */
  function RoutesAfter(t: Trace, x: Sides): Sides { Routed(Fenced(x, FenceChange(t.fence)), RouteChange(t.routing)) }

  /** What an attempt did to the routes is what a fence and a routing change may do; and an
      attempt that got past its fence without SQL has blackholed every ProxySQL. */
  lemma ChangesOf(p: Config, t: Trace, reached: Phase, reverseOk: bool)
    requires Attempted(p, t, reached, reverseOk)
    ensures FenceOk(t) ==> FenceApplied(t) && reached != Fence && FenceChange(t.fence) == NO_CHANGE
    ensures FenceChange(t.fence) == NO_CHANGE || LegalFence(FenceChange(t.fence), p.proxies)
    ensures reached != Fence && !FenceOk(t) ==>
              LegalFence(FenceChange(t.fence), p.proxies) && FenceChange(t.fence).ok
    ensures RouteChange(t.routing) == NO_CHANGE || LegalRoute(RouteChange(t.routing), p.proxies)
  {
    var x := Sides(false, false, {}, Routes({}, {}), Routes({}, {}));
    Parts(p, t, reached, reverseOk);
    hide Attempted, Replay, FenceRun, PromoteRun, RoutingRun, ReverseRun, UndoRun, Fenced, Routed;
    if t.fence != [] {
      FenceEffect(p, t.fence, reached != Fence, x);
    }
    if t.routing != [] {
      RoutingEffect(p, t.routing, reached != Routing, x);
    }
  }

  lemma FencePart(p: Config, t: Trace, reached: Phase, reverseOk: bool, x: Sides)
    requires Attempted(p, t, reached, reverseOk)
    ensures Replay(x, t.fence) ==
      Fenced(x, FenceChange(t.fence)).(localWritable := x.localWritable && !FenceApplied(t))
  {
    Parts(p, t, reached, reverseOk);
    assert Replay(x, []) == x;
    NothingPublished(x);
    hide Attempted, Replay, FenceRun, PromoteRun, RoutingRun, ReverseRun, UndoRun, Fenced;
    FencedKeepsWritable(x, FenceChange(t.fence), x.localWritable && !FenceApplied(t));
    if t.fence != [] {
      FenceEffect(p, t.fence, reached != Fence, x);
    }
  }

  lemma PromotePart(p: Config, t: Trace, reached: Phase, reverseOk: bool, x: Sides)
    requires Attempted(p, t, reached, reverseOk)
    ensures Replay(x, t.promote) == x.(remoteWritable := x.remoteWritable || PromoteApplied(t))
  {
    Parts(p, t, reached, reverseOk);
    assert Replay(x, []) == x;
    hide Attempted, Replay, FenceRun, PromoteRun, RoutingRun, ReverseRun, UndoRun;
    if t.promote != [] {
      PromoteEffect(p, t.promote, reached != Promote, x);
    }
  }

  lemma RoutingPart(p: Config, t: Trace, reached: Phase, reverseOk: bool, x: Sides)
    requires Attempted(p, t, reached, reverseOk)
    ensures Replay(x, t.routing) == Routed(x, RouteChange(t.routing))
  {
    Parts(p, t, reached, reverseOk);
    assert Replay(x, []) == x;
    NothingPublished(x);
    hide Attempted, Replay, FenceRun, PromoteRun, RoutingRun, ReverseRun, UndoRun, Routed;
    if t.routing != [] {
      RoutingEffect(p, t.routing, reached != Routing, x);
    }
  }

  lemma LastParts(p: Config, t: Trace, reached: Phase, reverseOk: bool, x: Sides)
    requires Attempted(p, t, reached, reverseOk)
    ensures Replay(Replay(x, t.reverse), t.undo) ==
      x.(remoteWritable := x.remoteWritable && !Demoted(t.undo), localWritable := x.localWritable || Reenabled(t.undo))
  {
    Parts(p, t, reached, reverseOk);
    assert forall y :: Replay(y, []) == y;
    hide Attempted, Replay, FenceRun, PromoteRun, RoutingRun, ReverseRun, UndoRun;
    if t.reverse != [] {
      ReverseEffect(p, t.reverse, reverseOk, x);
    }
    if t.undo != [] {
      UndoEffect(t.undo, x);
    }
  }

  /** What the sides are after an attempt, wherever it stopped and whatever failed. */
  lemma SidesAfter(p: Config, t: Trace, reached: Phase, reverseOk: bool, x: Sides)
    requires Attempted(p, t, reached, reverseOk)
    ensures Replay(x, All(t)) ==
      RoutesAfter(t, x).(localWritable := LocalAfter(t, x), remoteWritable := RemoteAfter(t, x))
  {
    hide Attempted, Replay, Fenced, Routed, All, Demoted, Reenabled, FenceApplied, PromoteApplied;
    RegroupSides(t, x);
    FencePart(p, t, reached, reverseOk, x);
    var y := Replay(x, t.fence);
    PromotePart(p, t, reached, reverseOk, y);
    var z := Replay(y, t.promote);
    RoutingPart(p, t, reached, reverseOk, z);
    LastParts(p, t, reached, reverseOk, Replay(z, t.routing));
    FencedKeepsWritable(x, FenceChange(t.fence), z.localWritable);
    RoutedKeepsWritable(Fenced(x, FenceChange(t.fence)), z, RouteChange(t.routing));
  }

  lemma FencedKeepsWritable(x: Sides, c: Change, writable: bool)
    ensures Fenced(x.(localWritable := writable), c) == Fenced(x, c).(localWritable := writable)
    ensures Fenced(x, c).remoteWritable == x.remoteWritable && Fenced(x, c).proxies == x.proxies
  {
  }

  lemma RoutedKeepsWritable(x: Sides, y: Sides, c: Change)
    requires y == x.(localWritable := y.localWritable, remoteWritable := y.remoteWritable)
    ensures Routed(y, c) == Routed(x, c).(localWritable := y.localWritable, remoteWritable := y.remoteWritable)
  {
  }

  /** Where ProxySQL sends writes after an attempt: nowhere local where a fence or a routing
      change was loaded; to the remote where a routing change was loaded, and where a fence
      loaded a staging table that an earlier, aborted change had left it in. */
  function ToLocal(t: Trace, x: Sides): set<Proxy>
  {
    x.runtime.local - (FenceChange(t.fence).loaded + RouteChange(t.routing).loaded)
  }

  function ToRemote(t: Trace, x: Sides): set<Proxy>
  {
    var fence, route := FenceChange(t.fence).loaded, RouteChange(t.routing).loaded;
    (x.runtime.remote - fence) + (x.staged.remote * fence) + route
  }

  lemma RuntimeAfter(p: Config, t: Trace, reached: Phase, reverseOk: bool, x: Sides)
    requires Attempted(p, t, reached, reverseOk) && x.Formed() && x.proxies == p.proxies
    ensures Replay(x, All(t)).runtime == Routes(ToLocal(t, x), ToRemote(t, x))
  {
    ChangesOf(p, t, reached, reverseOk);
    SidesAfter(p, t, reached, reverseOk, x);
    hide Replay, Attempted, FenceChange, RouteChange, All;
    LoadsAfter(x, FenceChange(t.fence), RouteChange(t.routing));
  }

  lemma LoadsAfter(x: Sides, fence: Change, route: Change)
    requires x.Formed()
    requires fence == NO_CHANGE || LegalFence(fence, x.proxies)
    requires route == NO_CHANGE || LegalRoute(route, x.proxies)
    ensures Routed(Fenced(x, fence), route).runtime ==
      Routes(x.runtime.local - (fence.loaded + route.loaded),
             (x.runtime.remote - fence.loaded) + (x.staged.remote * fence.loaded) + route.loaded)
  {
    var y := Fenced(x, fence);
    assert y.runtime.local == x.runtime.local - fence.loaded;
    var staged := y.staged.remote + route.added;
    assert staged * route.loaded == route.loaded;
    assert (y.staged.local - route.removed) * route.loaded == {};
  }

  /** An attempt ends with two writers exactly when the SQL fence was the one that held,
      the promotion took effect, the rollback re-enabled the local side without the remote
      having been demoted, and some ProxySQL that sent writes to the local side did not
      load the routing change. */
  lemma TwoWritersIff(p: Config, t: Trace, reached: Phase, reverseOk: bool, x: Sides)
    requires Attempted(p, t, reached, reverseOk) && x.Formed() && x.proxies == p.proxies && !x.remoteWritable
    ensures TwoWriters(Replay(x, All(t))) <==>
      && FenceOk(t) && PromoteApplied(t) && Reenabled(t.undo) && !Demoted(t.undo)
      && !(x.runtime.local <= RouteChange(t.routing).loaded)
  {
    ChangesOf(p, t, reached, reverseOk);
    SidesAfter(p, t, reached, reverseOk, x);
    RuntimeAfter(p, t, reached, reverseOk, x);
    hide Replay, FenceRun, PromoteRun, RoutingRun, ReverseRun, UndoRun, Publish, Routed, Fenced;
    LeftBehind(x.runtime.local, FenceChange(t.fence).loaded, RouteChange(t.routing).loaded, x.proxies);
  }

  lemma LeftBehind(routed: set<Proxy>, fence: set<Proxy>, route: set<Proxy>, all: set<Proxy>)
    requires routed <= all
    ensures fence == {} ==> (routed - (fence + route) == {} <==> routed <= route)
    ensures fence == all ==> routed - (fence + route) == {}
    ensures routed - (fence + route) == {} <==> routed <= fence + route
  {
    assert fence == {} ==> fence + route == route;
    if routed - (fence + route) == {} {
      assert forall q :: q in routed ==> q in routed - (fence + route) || q in fence + route;
    }
  }

  /** The dual: an attempt ends with no side taking routed writes exactly when the local
      side is read-only or every ProxySQL that sent it writes has loaded a fence or a
      routing change, and the remote is read-only or no ProxySQL sends it writes. */
  lemma NoWriterIff(p: Config, t: Trace, reached: Phase, reverseOk: bool, x: Sides)
    requires Attempted(p, t, reached, reverseOk) && x.Formed() && x.proxies == p.proxies && !x.remoteWritable
    ensures NoWriter(Replay(x, All(t))) <==>
      && ((!Reenabled(t.undo) && (x.localWritable ==> FenceApplied(t)))
          || x.runtime.local <= FenceChange(t.fence).loaded + RouteChange(t.routing).loaded)
      && (!PromoteApplied(t) || Demoted(t.undo) || ToRemote(t, x) == {})
  {
    ChangesOf(p, t, reached, reverseOk);
    SidesAfter(p, t, reached, reverseOk, x);
    RuntimeAfter(p, t, reached, reverseOk, x);
    hide Replay, Attempted, Publish, Routed, Fenced, ToRemote;
    LeftBehind(x.runtime.local, FenceChange(t.fence).loaded, RouteChange(t.routing).loaded, x.proxies);
  }

  /** Both sides are as writable as before, and ProxySQL sends writes where it did. */
  predicate Restored(x: Sides, y: Sides)
  {
    y.localWritable == x.localWritable && y.remoteWritable == x.remoteWritable && y.runtime == x.runtime
  }

  /** A failed promotion or routing leaves things as it found them exactly when the local
      side is as writable as it was, a promotion that took effect was demoted, and what its
      fence and its routing change loaded moved no writes. */
  lemma RestoredIff(p: Config, t: Trace, reached: Phase, x: Sides)
    requires Attempted(p, t, reached, false) && x.Formed() && x.proxies == p.proxies && !x.remoteWritable
    requires reached == Promote || (reached == Routing && p.hasProxySQL)
    ensures Restored(x, Replay(x, All(t))) <==>
      && (if x.localWritable then Reenabled(t.undo) || !FenceApplied(t) else !Reenabled(t.undo))
      && (PromoteApplied(t) ==> Demoted(t.undo))
      && x.runtime.local !! FenceChange(t.fence).loaded + RouteChange(t.routing).loaded
      && ToRemote(t, x) == x.runtime.remote
  {
    ChangesOf(p, t, reached, false);
    SidesAfter(p, t, reached, false, x);
    RuntimeAfter(p, t, reached, false, x);
    hide Replay, Attempted, Publish, Routed, Fenced, ToRemote;
    var moved := FenceChange(t.fence).loaded + RouteChange(t.routing).loaded;
    assert x.runtime.local - moved == x.runtime.local <==> x.runtime.local !! moved by {
      if x.runtime.local - moved == x.runtime.local {
        assert forall q :: q in x.runtime.local * moved ==> q in x.runtime.local - moved;
      }
    }
  }

  /** With the SQL fence holding, the last two conditions say that no instance that sent
      writes to the local side loaded the routing change, and that only instances which
      already sent writes to the remote did. */
  lemma RestoredBehindSqlFence(p: Config, t: Trace, reached: Phase, x: Sides)
    requires Attempted(p, t, reached, false) && FenceOk(t)
    ensures FenceChange(t.fence).loaded == {}
    ensures ToRemote(t, x) == x.runtime.remote <==> RouteChange(t.routing).loaded <= x.runtime.remote
  {
    ChangesOf(p, t, reached, false);
    SidesAfter(p, t, reached, false, x);
    hide Attempted, Replay;
    var route := RouteChange(t.routing).loaded;
    assert (x.runtime.remote - {}) + (x.staged.remote * {}) + route == x.runtime.remote + route;
  }

  /** A routing change that was loaded everywhere and then failed to save: the rollback
      makes both sides as writable as before, yet nobody takes a routed write. */
  lemma LoadedRoutingLeavesNobody(p: Config, executed: set<Gtid>, x: Sides)
    requires p.hasProxySQL && !p.StopsRemote() && p.proxies != {} && x.proxies == p.proxies
    requires x.Formed() && x.localWritable && !x.remoteWritable && x.runtime == Routes(p.proxies, {})
    ensures var all := p.proxies;
            var t := Trace([FenceLocal(Outcome(true, true))], [EnableRemote(Outcome(true, true), executed)],
                           [RouteToRemote(Change(false, all, all, all))], [],
                           [DemoteRemote(Outcome(true, true)), ReenableLocal(Outcome(true, true))]);
            var y := Replay(x, All(t));
            && Attempted(p, t, Routing, false) && y.localWritable && !y.remoteWritable
            && NoWriter(y) && !Restored(x, y)
  {
    var all := p.proxies;
    var t := Trace([FenceLocal(Outcome(true, true))], [EnableRemote(Outcome(true, true), executed)],
                   [RouteToRemote(Change(false, all, all, all))], [],
                   [DemoteRemote(Outcome(true, true)), ReenableLocal(Outcome(true, true))]);
    SidesAfter(p, t, Routing, false, x);
    RuntimeAfter(p, t, Routing, false, x);
    hide Replay, Publish, Routed, Fenced;
    assert x.runtime.local - ({} + all) == {};
  }

  /** A blackhole that was loaded everywhere and then failed to save ends the attempt at
      its fence: nothing is undone, and the local side takes no routed write. */
  lemma FailedBlackholeSticks(p: Config, x: Sides)
    requires p.checks.hasLocalInspector && p.hasProxySQL && x.proxies == p.proxies
    requires x.Formed() && !x.remoteWritable
    ensures var all := p.proxies;
            var t := Trace([FenceLocal(Outcome(false, false)), ProbeLocal(false),
                            BlackholeLocal(Change(false, all, {}, all))], [], [], [], []);
            var y := Replay(x, All(t));
            && Attempted(p, t, Fence, false) && y.localWritable == x.localWritable
            && y.runtime.local == {} && NoWriter(y)
  {
    var all := p.proxies;
    var t := Trace([FenceLocal(Outcome(false, false)), ProbeLocal(false),
                    BlackholeLocal(Change(false, all, {}, all))], [], [], [], []);
    SidesAfter(p, t, Fence, false, x);
    RuntimeAfter(p, t, Fence, false, x);
    hide Replay, Publish, Routed, Fenced;
    assert x.runtime.local - (all + {}) == {};
  }

  /** A SQL fence that reported failure but was applied, on a local side that answers the
      probe, is never undone either. */
  lemma FailedFenceSticks(p: Config, x: Sides)
    requires p.checks.hasLocalInspector && x.Formed() && x.proxies == p.proxies
    ensures var t := Trace([FenceLocal(Outcome(false, true)), ProbeLocal(true)], [], [], [], []);
            Attempted(p, t, Fence, false) && Replay(x, All(t)) == x.(localWritable := false)
  {
    var t := Trace([FenceLocal(Outcome(false, true)), ProbeLocal(true)], [], [], [], []);
    SidesAfter(p, t, Fence, false, x);
    NothingPublished(x);
    hide Replay, Publish;
  }

  /** Once routing has passed, or has crashed for want of a ProxySQL, nothing is undone:
      the local side takes no routed write and the remote is as the promotion left it; and
      if routing has passed, every ProxySQL sends writes to the remote and to it only. */
  lemma CommittedStays(p: Config, t: Trace, reached: Phase, reverseOk: bool, x: Sides)
    requires Attempted(p, t, reached, reverseOk) && x.Formed() && x.proxies == p.proxies && !x.remoteWritable
    requires Index(reached) > Index(Routing) || (reached == Routing && !p.hasProxySQL)
    ensures var y := Replay(x, All(t));
            && !LocalServes(y) && y.remoteWritable == PromoteApplied(t)
            && (Index(reached) > Index(Routing) ==> y.runtime == Routes({}, p.proxies))
  {
    Parts(p, t, reached, reverseOk);
    ChangesOf(p, t, reached, reverseOk);
    SidesAfter(p, t, reached, reverseOk, x);
    RuntimeAfter(p, t, reached, reverseOk, x);
    hide Replay, FenceRun, PromoteRun, ReverseRun, UndoRun, Publish, Routed, Fenced, All;
    var fence, route := FenceChange(t.fence).loaded, RouteChange(t.routing).loaded;
    LeftBehind(x.runtime.local, fence, route, x.proxies);
    if Index(reached) > Index(Routing) {
      assert route == p.proxies;
      assert x.runtime.local <= fence + route;
      assert (x.runtime.remote - fence) + (x.staged.remote * fence) + route == p.proxies;
    }
  }

  /** No attempt calls the routing rollback, so none lifts a blackhole. */
  lemma NeverRestoresRouting(p: Config, t: Trace, reached: Phase, reverseOk: bool)
    requires Attempted(p, t, reached, reverseOk)
    ensures forall i :: 0 <= i < |All(t)| ==> !All(t)[i].RestoreRouting?
  {
    Parts(p, t, reached, reverseOk);
    hide Attempted;
    assert NoRestore(t.fence) && NoRestore(t.promote) && NoRestore(t.routing);
    assert NoRestore(t.reverse) && NoRestore(t.undo);
    hide FenceRun, PromoteRun, RoutingRun, ReverseRun, UndoRun;
    NoRestoreConcat([Cleared], t.fence);
    NoRestoreConcat([Cleared] + t.fence, t.promote);
    NoRestoreConcat([Cleared] + t.fence + t.promote, t.routing);
    NoRestoreConcat([Cleared] + t.fence + t.promote + t.routing, t.reverse);
    NoRestoreConcat(Forward(t), t.undo);
  }

  predicate NoRestore(s: seq<Call>) { forall i :: 0 <= i < |s| ==> !s[i].RestoreRouting? }

  lemma NoRestoreConcat(a: seq<Call>, b: seq<Call>)
    requires NoRestore(a) && NoRestore(b)
    ensures NoRestore(a + b)
  {
  }
}

/** How long a cluster has been unwell, and when that opens a failover
    (internal/controller/clusterswitchpolicy_controller.go, internal/controller/decision.go). */
module Counters {
  import opened Text

  datatype Writable = Unknown | Yes | No

  datatype Health = Health(healthy: bool, writable: Writable)

  /** A health check of both sides, or a switchover that succeeded. */
  datatype Event = Checked(local: Health, remote: Health) | Switched

  // --- what a history says ---------------------------------------------------------------

  /** The checks since the local side was last healthy, or last switched over. */
  function LocalStreak(run: seq<Event>): (s: seq<Event>)
    ensures forall e :: e in s ==> e.Checked? && !e.local.healthy
  {
    if run == [] then [] else
      var e := run[|run| - 1];
      if e.Switched? || e.local.healthy then [] else LocalStreak(run[..|run| - 1]) + [e]
  }

  /** The checks since the remote side last answered, or the last switchover. */
  function RemoteStreak(run: seq<Event>): seq<Event>
  {
    if run == [] then [] else
      var e := run[|run| - 1];
      if e.Switched? || e.remote.healthy || e.remote.writable != Unknown then []
      else RemoteStreak(run[..|run| - 1]) + [e]
  }

  function CountUnreachable(s: seq<Event>): nat
  {
    if s == [] then 0 else
      var e := s[|s| - 1];
      CountUnreachable(s[..|s| - 1]) + if e.Checked? && e.local.writable == Unknown then 1 else 0
  }

  lemma CountSnoc(s: seq<Event>, e: Event)
    ensures CountUnreachable(s + [e]) ==
      CountUnreachable(s) + if e.Checked? && e.local.writable == Unknown then 1 else 0
  {
    assert (s + [e])[..|s|] == s;
  }

  lemma StreakSnoc(run: seq<Event>, e: Event)
    ensures LocalStreak(run + [e]) == if e.Switched? || e.local.healthy then [] else LocalStreak(run) + [e]
    ensures RemoteStreak(run + [e]) ==
      if e.Switched? || e.remote.healthy || e.remote.writable != Unknown then [] else RemoteStreak(run) + [e]
  {
    assert (run + [e])[..|run|] == run;
  }

  lemma {:induction false} CountBound(s: seq<Event>)
    ensures CountUnreachable(s) <= |s|
  {
    if s != [] {
      CountBound(s[..|s| - 1]);
    }
  }

  // --- what the streaks are -------------------------------------------------------------------

  /** The local streak is the longest tail of the history without a switchover and without a
      check that found the local side healthy. */
  lemma {:induction false} LocalStreakIsTail(run: seq<Event>)
    ensures var n := |LocalStreak(run)|;
            && n <= |run| && LocalStreak(run) == run[|run| - n..]
            && (forall i :: |run| - n <= i < |run| ==> run[i].Checked? && !run[i].local.healthy)
            && (n < |run| ==> run[|run| - n - 1].Switched? || run[|run| - n - 1].local.healthy)
  {
    if run != [] {
      var init, e := run[..|run| - 1], run[|run| - 1];
      LocalStreakIsTail(init);
      if e.Checked? && !e.local.healthy {
        assert LocalStreak(run) == init[|init| - |LocalStreak(init)|..] + [e];
      }
    }
  }

  /** The remote streak is the longest tail of the history without a switchover and without a
      check that reached the remote side. */
  lemma {:induction false} RemoteStreakIsTail(run: seq<Event>)
    ensures var n := |RemoteStreak(run)|;
            && n <= |run|
            && (forall i :: |run| - n <= i < |run| ==>
                  run[i].Checked? && !run[i].remote.healthy && run[i].remote.writable == Unknown)
            && (n < |run| ==>
                  var e := run[|run| - n - 1];
                  e.Switched? || e.remote.healthy || e.remote.writable != Unknown)
  {
    if run != [] {
      var init := run[..|run| - 1];
      RemoteStreakIsTail(init);
      assert forall i :: 0 <= i < |init| ==> init[i] == run[i];
    }
  }

  lemma PositionsSnoc(s: seq<Event>)
    requires s != []
    ensures var n := |s| - 1;
            (set i | 0 <= i < |s| && s[i].Checked? && s[i].local.writable == Unknown) ==
              (set i | 0 <= i < n && s[..n][i].Checked? && s[..n][i].local.writable == Unknown)
              + if s[n].Checked? && s[n].local.writable == Unknown then {n} else {}
  {
  }

  lemma {:induction false} CountIsCardinality(s: seq<Event>)
    ensures CountUnreachable(s) == |set i | 0 <= i < |s| && s[i].Checked? && s[i].local.writable == Unknown|
  {
    if s != [] {
      CountIsCardinality(s[..|s| - 1]);
      PositionsSnoc(s);
    }
  }

  lemma LocalStep(run: seq<Event>, e: Event)
    requires e.Checked?
    ensures var s, s' := LocalStreak(run), LocalStreak(run + [e]);
            && |s'| == (if e.local.healthy then 0 else |s| + 1)
            && CountUnreachable(s') ==
                 if e.local.healthy then 0
                 else CountUnreachable(s) + if e.local.writable == Unknown then 1 else 0
  {
    StreakSnoc(run, e);
    CountSnoc(LocalStreak(run), e);
    assert CountUnreachable([]) == 0;
    hide LocalStreak, CountUnreachable;
  }

  lemma RemoteStep(run: seq<Event>, e: Event)
    requires e.Checked?
    ensures |RemoteStreak(run + [e])| ==
      if e.remote.healthy || e.remote.writable != Unknown then 0 else |RemoteStreak(run)| + 1
  {
    StreakSnoc(run, e);
    hide RemoteStreak;
  }

  // --- the counters --------------------------------------------------------------------------

  class Status {
    var localFailures: nat
    var localUnreachable: nat
    var remoteFailures: nat
    var remoteUnreachable: nat
    ghost var history: seq<Event>

    ghost predicate Valid()
      reads this
    {
      && localUnreachable == CountUnreachable(LocalStreak(history))
      && localFailures + localUnreachable == |LocalStreak(history)|
      && remoteUnreachable == |RemoteStreak(history)|
    }

    constructor ()
      ensures Valid() && history == []
    {
      localFailures, localUnreachable, remoteFailures, remoteUnreachable, history := 0, 0, 0, 0, [];
    }

    /** The local counters leave each other alone; the remote ones do not. */
    method UpdateHealthStatus(local: Health, remote: Health)
      requires Valid()
      modifies this
      ensures Valid() && history == old(history) + [Checked(local, remote)]
      ensures localFailures ==
        if local.healthy then 0 else old(localFailures) + if local.writable == Unknown then 0 else 1
      ensures localUnreachable ==
        if local.healthy then 0 else old(localUnreachable) + if local.writable == Unknown then 1 else 0
      ensures remoteFailures ==
        if remote.healthy then 0 else old(remoteFailures) + if remote.writable == Unknown then 0 else 1
      ensures remoteUnreachable ==
        if !remote.healthy && remote.writable == Unknown then old(remoteUnreachable) + 1 else 0
    {
      hide LocalStreak, RemoteStreak, CountUnreachable;
      if local.healthy {
        localFailures, localUnreachable := 0, 0;
      } else if local.writable == Unknown {
        localUnreachable := localUnreachable + 1;
      } else {
        localFailures := localFailures + 1;
      }
      if remote.healthy {
        remoteFailures, remoteUnreachable := 0, 0;
      } else if remote.writable == Unknown {
        remoteUnreachable := remoteUnreachable + 1;
      } else {
        remoteFailures, remoteUnreachable := remoteFailures + 1, 0;
      }
      ghost var e := Checked(local, remote);
      LocalStep(history, e);
      RemoteStep(history, e);
      history := history + [e];
    }

    /** The success branch of writeSwitchoverResult. remoteFailures stays. */
    method SwitchoverSucceeded()
      requires Valid()
      modifies this
      ensures Valid() && history == old(history) + [Switched] && remoteFailures == old(remoteFailures)
      ensures localFailures == localUnreachable == remoteUnreachable == 0
    {
      localFailures, localUnreachable, remoteUnreachable := 0, 0, 0;
      assert (history + [Switched])[|history|] == Switched;
      history := history + [Switched];
    }

    /** The cooldown comes first, for a manual switchover too; the remote side's silence comes
        before anything the local side says; and a local failover needs a healthy read-only
        remote. */
    method Decide(cfg: Config, lastSwitchover: Option<int>, now: int, local: Health, remote: Health)
      returns (d: Decision)
      requires Valid()
      ensures d == DecisionAfter(cfg, lastSwitchover, now, local, remote, history)
      ensures var cooling :=
                lastSwitchover.Some? && now - lastSwitchover.value < if cfg.cooldown <= 0 then 600 else cfg.cooldown;
              var auto := !cooling && !cfg.manual && cfg.autoFailover;
              var silent := remoteUnreachable >= cfg.remoteUnreachableThreshold > 0;
              var down := localFailures >= cfg.failureThreshold || localUnreachable >= cfg.failureThreshold;
              && (d == Blocked(Cooldown) <==> cooling)
              && (d == Manual <==> !cooling && cfg.manual)
              && (d == RemoteGone <==> auto && silent && cfg.allowDataLoss)
              && (d == LocalDown <==>
                    auto && !silent && down && remote.healthy && remote.writable == No && local.writable != No)
    {
      d := EvaluateSwitchover(cfg, lastSwitchover, now, local, remote,
                              localFailures, localUnreachable, remoteUnreachable);
    }
  }

  // --- the decision ------------------------------------------------------------------------

  datatype Config = Config(
    cooldown: int, manual: bool, autoFailover: bool, remoteUnreachableThreshold: int, allowDataLoss: bool,
    failureThreshold: int)

  datatype Blocker = Cooldown | NotAuto | DataLossGuard | LocalOk | BothReadOnly | RemoteUnsafe | RemoteUnhealthy

  datatype Decision = Manual | RemoteGone | LocalDown | Blocked(blocker: Blocker)

  const DEFAULT_COOLDOWN := 600

  function EvaluateSwitchover(cfg: Config, lastSwitchover: Option<int>, now: int, local: Health, remote: Health,
                              failures: nat, unreachable: nat, remoteUnreachable: nat): Decision
  {
    var cooldown := if cfg.cooldown <= 0 then DEFAULT_COOLDOWN else cfg.cooldown;
    if lastSwitchover.Some? && now - lastSwitchover.value < cooldown then Blocked(Cooldown)
    else if cfg.manual then Manual
    else if !cfg.autoFailover then Blocked(NotAuto)
    else if cfg.remoteUnreachableThreshold > 0 && remoteUnreachable >= cfg.remoteUnreachableThreshold then
      if !cfg.allowDataLoss then Blocked(DataLossGuard) else RemoteGone
    else if failures < cfg.failureThreshold && unreachable < cfg.failureThreshold then Blocked(LocalOk)
    else if local.writable == No && remote.writable == No then Blocked(BothReadOnly)
    else if remote.writable != No then Blocked(RemoteUnsafe)
    else if !remote.healthy then Blocked(RemoteUnhealthy)
    else LocalDown
  }

  /** The decision as a function of the history alone. */
  function DecisionAfter(cfg: Config, lastSwitchover: Option<int>, now: int, local: Health, remote: Health,
                         history: seq<Event>): Decision
  {
    var streak := LocalStreak(history);
    CountBound(streak);
    EvaluateSwitchover(cfg, lastSwitchover, now, local, remote,
                       |streak| - CountUnreachable(streak), CountUnreachable(streak), |RemoteStreak(history)|)
  }

  /** Every decision, as a condition on the history: s is the current streak of unwell checks,
      of which `dark` could not reach the local side, and `silent` says that the remote side
      has not answered for its threshold. */
  lemma DecisionIff(cfg: Config, last: Option<int>, now: int, local: Health, remote: Health, run: seq<Event>)
    ensures var d, s := DecisionAfter(cfg, last, now, local, remote, run), LocalStreak(run);
            var dark := |set i | 0 <= i < |s| && s[i].Checked? && s[i].local.writable == Unknown|;
            var cooling := last.Some? && now - last.value < if cfg.cooldown <= 0 then 600 else cfg.cooldown;
            var auto := !cooling && !cfg.manual && cfg.autoFailover;
            var silent := |RemoteStreak(run)| >= cfg.remoteUnreachableThreshold > 0;
            var down := dark >= cfg.failureThreshold || |s| - dark >= cfg.failureThreshold;
            && (d == Blocked(Cooldown) <==> cooling)
            && (d == Manual <==> !cooling && cfg.manual)
            && (d == Blocked(NotAuto) <==> !cooling && !cfg.manual && !cfg.autoFailover)
            && (d == RemoteGone <==> auto && silent && cfg.allowDataLoss)
            && (d == Blocked(DataLossGuard) <==> auto && silent && !cfg.allowDataLoss)
            && (d == Blocked(LocalOk) <==> auto && !silent && !down)
            && (d == Blocked(BothReadOnly) <==>
                  auto && !silent && down && local.writable == No && remote.writable == No)
            && (d == Blocked(RemoteUnsafe) <==> auto && !silent && down && remote.writable != No)
            && (d == Blocked(RemoteUnhealthy) <==>
                  auto && !silent && down && local.writable != No && remote.writable == No && !remote.healthy)
            && (d == LocalDown <==>
                  auto && !silent && down && local.writable != No && remote.writable == No && remote.healthy)
  {
    hide LocalStreak, RemoteStreak, CountUnreachable;
    CountIsCardinality(LocalStreak(run));
    CountBound(LocalStreak(run));
  }

  /** After any history, a local failover comes no sooner than `threshold` unwell checks in
      a row, and only towards a healthy read-only remote; and from 2 * threshold - 1 checks
      on, the length of the streak no longer holds it back. */
  lemma LocalFailoverBounds(cfg: Config, last: Option<int>, now: int, local: Health, remote: Health, run: seq<Event>)
    requires cfg.failureThreshold > 0
    ensures var d := DecisionAfter(cfg, last, now, local, remote, run);
            && (d == LocalDown ==> |LocalStreak(run)| >= cfg.failureThreshold
                                   && remote == Health(true, No) && local.writable != No)
            && (|LocalStreak(run)| >= 2 * cfg.failureThreshold - 1 ==> d != Blocked(LocalOk))
            && (d == RemoteGone ==> |RemoteStreak(run)| >= cfg.remoteUnreachableThreshold > 0 && cfg.allowDataLoss)
  {
    CountBound(LocalStreak(run));
  }

  function Repeat(e: Event, n: nat): (s: seq<Event>)
    ensures |s| == n
  {
    if n == 0 then [] else Repeat(e, n - 1) + [e]
  }

  lemma {:induction false} RepeatStreak(run: seq<Event>, e: Event, n: nat)
    requires e.Checked? && !e.local.healthy
    ensures |LocalStreak(run + Repeat(e, n))| == |LocalStreak(run)| + n
    ensures CountUnreachable(LocalStreak(run + Repeat(e, n))) ==
      CountUnreachable(LocalStreak(run)) + if e.local.writable == Unknown then n else 0
  {
    hide LocalStreak, CountUnreachable;
    if n == 0 {
      assert run + Repeat(e, n) == run;
    } else {
      RepeatStreak(run, e, n - 1);
      LocalStep(run + Repeat(e, n - 1), e);
      assert run + Repeat(e, n) == (run + Repeat(e, n - 1)) + [e];
    }
  }

  lemma RepeatCounts(e: Event, n: nat)
    requires e.Checked? && !e.local.healthy
    ensures |LocalStreak(Repeat(e, n))| == n
    ensures CountUnreachable(LocalStreak(Repeat(e, n))) == if e.local.writable == Unknown then n else 0
  {
    RepeatStreak([], e, n);
    assert LocalStreak([]) == [] && CountUnreachable([]) == 0;
    hide LocalStreak, CountUnreachable, Repeat;
    assert [] + Repeat(e, n) == Repeat(e, n);
  }

  lemma TwoKindsCounts(e: Event, f: Event, n: nat)
    requires e.Checked? && !e.local.healthy && e.local.writable == Unknown
    requires f.Checked? && !f.local.healthy && f.local.writable != Unknown
    ensures var run := Repeat(e, n) + Repeat(f, n);
            |LocalStreak(run)| == 2 * n && CountUnreachable(LocalStreak(run)) == n
  {
    hide LocalStreak, CountUnreachable, Repeat;
    RepeatCounts(e, n);
    RepeatStreak(Repeat(e, n), f, n);
  }

  /** The gate of the local path, in terms of the two kinds of check in the streak. */
  lemma GateIsClosedIff(cfg: Config, now: int, local: Health, remote: Health, run: seq<Event>)
    requires cfg.autoFailover && !cfg.manual && cfg.remoteUnreachableThreshold <= 0
    ensures var s := LocalStreak(run);
            DecisionAfter(cfg, None, now, local, remote, run) == Blocked(LocalOk) <==>
              |s| - CountUnreachable(s) < cfg.failureThreshold && CountUnreachable(s) < cfg.failureThreshold
  {
    hide LocalStreak, RemoteStreak, CountUnreachable;
    CountBound(LocalStreak(run));
  }

  /** Both bounds are met: `threshold` checks of one kind open the gate, and threshold - 1
      of each kind, 2 * threshold - 2 in all, do not. */
  lemma LocalFailoverBoundsAreTight(cfg: Config, now: int, local: Health, remote: Health)
    requires cfg.failureThreshold > 0 && cfg.autoFailover && !cfg.manual && cfg.remoteUnreachableThreshold <= 0
    ensures var th := cfg.failureThreshold;
            var dark, sick := Checked(Health(false, Unknown), remote), Checked(Health(false, Yes), remote);
            var few, many := Repeat(dark, th), Repeat(dark, th - 1) + Repeat(sick, th - 1);
            && |LocalStreak(few)| == th && DecisionAfter(cfg, None, now, local, remote, few) != Blocked(LocalOk)
            && |LocalStreak(many)| == 2 * th - 2
            && DecisionAfter(cfg, None, now, local, remote, many) == Blocked(LocalOk)
  {
    hide LocalStreak, RemoteStreak, CountUnreachable, Repeat, DecisionAfter;
    var th := cfg.failureThreshold;
    var dark, sick := Checked(Health(false, Unknown), remote), Checked(Health(false, Yes), remote);
    RepeatCounts(dark, th);
    GateIsClosedIff(cfg, now, local, remote, Repeat(dark, th));
    TwoKindsCounts(dark, sick, th - 1);
    GateIsClosedIff(cfg, now, local, remote, Repeat(dark, th - 1) + Repeat(sick, th - 1));
  }
}

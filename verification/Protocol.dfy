/** The discipline that keeps a switchover from creating two writers, as rules on the log
    of calls, and what follows from it for every log of any length: one attempt or many,
    with any pattern of faults. */
module Protocol {
  import opened Clusters
  import opened Faults

  /** Since the last passed preflight, SetReadOnly succeeded on the local side, and the
      local side has not been re-enabled. */
  predicate SqlFenceHolds(log: seq<Call>)
  {
    log != [] &&
    var init := log[..|log| - 1];
    match log[|log| - 1]
    case FenceLocal(r) => r.ok || SqlFenceHolds(init)
    case ReenableLocal(_) => false
    case Cleared => false
    case _ => SqlFenceHolds(init)
  }

  /** Since the last passed preflight, every ProxySQL was blackholed, and neither the local
      side nor its routing has been restored. */
  predicate BlackholeHolds(log: seq<Call>)
  {
    log != [] &&
    var init := log[..|log| - 1];
    match log[|log| - 1]
    case BlackholeLocal(c) => c.ok || BlackholeHolds(init)
    case RestoreRouting(_) => false
    case ReenableLocal(_) => false
    case Cleared => false
    case _ => BlackholeHolds(init)
  }

  predicate FenceHolds(log: seq<Call>) { SqlFenceHolds(log) || BlackholeHolds(log) }

  /** Since the last passed preflight, a promotion succeeded whose undo has not been
      attempted. */
  predicate Undemoted(log: seq<Call>)
  {
    log != [] &&
    var init := log[..|log| - 1];
    match log[|log| - 1]
    case EnableRemote(r, _) => r.ok || Undemoted(init)
    case DemoteRemote(_) => false
    case Cleared => false
    case _ => Undemoted(init)
  }

  /** Since the last passed preflight, one of the two faults happened that no order of
      calls can mask: a SetReadWrite on the remote that reported failure was applied, or a
      demotion of the remote was not applied. */
  predicate Excused(log: seq<Call>)
  {
    log != [] &&
    var init := log[..|log| - 1];
    match log[|log| - 1]
    case EnableRemote(r, _) => (!r.ok && r.applied) || Excused(init)
    case DemoteRemote(r) => !r.applied || Excused(init)
    case Cleared => false
    case _ => Excused(init)
  }

  /** The SQL fence has just failed and nothing answers for the local side: either the
      probe said unreachable, or there is nobody to ask. */
  predicate NotReported(log: seq<Call>)
  {
    && log != []
    && (log[|log| - 1] == ProbeLocal(false) || (log[|log| - 1].FenceLocal? && !log[|log| - 1].r.ok))
  }

  predicate Allowed(start: Sides, log: seq<Call>, c: Call)
  {
    match c
    case FenceLocal(r) => r.ok ==> r.applied
    case BlackholeLocal(c) => NotReported(log) && LegalFence(c, start.proxies)
    case EnableRemote(_, _) => FenceHolds(log)
    case DemoteRemote(r) => r.ok ==> r.applied
    case ReenableLocal(_) => !Undemoted(log)
    case RouteToRemote(c) => LegalRoute(c, start.proxies)
    case RestoreRouting(c) => LegalRoute(c, start.proxies) && (Undemoted(log) ==> SqlFenceHolds(log))
    case Cleared => !Replay(start, log).remoteWritable
    case _ => true
  }

  predicate Disciplined(start: Sides, log: seq<Call>)
  {
    log != [] ==>
      var init := log[..|log| - 1];
      Disciplined(start, init) && Allowed(start, init, log[|log| - 1])
  }

  lemma DisciplinedSnoc(start: Sides, log: seq<Call>, c: Call)
    ensures Disciplined(start, log + [c]) <==> Disciplined(start, log) && Allowed(start, log, c)
  {
    assert (log + [c])[..|log|] == log;
  }

  /** What one more call does to everything the discipline is about. */
  lemma Snoc(start: Sides, log: seq<Call>, c: Call)
    ensures Disciplined(start, log + [c]) <==> Disciplined(start, log) && Allowed(start, log, c)
    ensures SqlFenceHolds(log + [c]) <==>
      ((c.FenceLocal? && c.r.ok) || SqlFenceHolds(log)) && !c.ReenableLocal? && !c.Cleared?
    ensures BlackholeHolds(log + [c]) <==>
      ((c.BlackholeLocal? && c.c.ok) || BlackholeHolds(log)) && !c.RestoreRouting? && !c.ReenableLocal? && !c.Cleared?
    ensures Undemoted(log + [c]) <==>
      ((c.EnableRemote? && c.r.ok) || Undemoted(log)) && !c.DemoteRemote? && !c.Cleared?
    ensures Excused(log + [c]) <==>
      ((c.EnableRemote? && !c.r.ok && c.r.applied) || (c.DemoteRemote? && !c.r.applied) || Excused(log)) && !c.Cleared?
    ensures Replay(start, log + [c]) == Step(Replay(start, log), c)
  {
    ReplaySnoc(start, log, c);
    assert (log + [c])[..|log|] == log;
  }

  lemma {:induction false} DisciplinedPrefix(start: Sides, log: seq<Call>, n: nat)
    requires Disciplined(start, log) && n <= |log|
    ensures Disciplined(start, log[..n])
  {
    if n == |log| {
      assert log[..n] == log;
    } else {
      assert log[..|log| - 1][..n] == log[..n];
      DisciplinedPrefix(start, log[..|log| - 1], n);
    }
  }

  /** A fence that holds keeps routed writes off the local side; and a writable remote is
      one that is still promoted behind such a fence, or an excused one. */
  lemma {:induction false} FencedWhilePromoted(start: Sides, log: seq<Call>)
    requires Disciplined(start, log) && start.Formed() && !start.remoteWritable
    ensures var s := Replay(start, log);
            && s.Formed() && s.proxies == start.proxies
            && (SqlFenceHolds(log) ==> !s.localWritable)
            && (BlackholeHolds(log) ==> s.staged.local == s.runtime.local == {})
            && (s.remoteWritable && !Excused(log) ==> FenceHolds(log) && Undemoted(log))
  {
    if log != [] {
      FencedWhilePromoted(start, log[..|log| - 1]);
    }
  }

  /** At every point of every disciplined log, both sides accept routed writes only if a
      failed promotion took effect or a demotion did not. */
  lemma NeverTwoWriters(start: Sides, log: seq<Call>, n: nat)
    requires Disciplined(start, log) && start.Formed() && !start.remoteWritable && n <= |log|
    ensures TwoWriters(Replay(start, log[..n])) ==> Excused(log[..n])
  {
    DisciplinedPrefix(start, log, n);
    FencedWhilePromoted(start, log[..n]);
  }

  /** What fenced the local side: the successful SQL fence, or a blackhole on every
      ProxySQL right after the SQL fence failed with the local side not reported
      reachable; and nothing undid it since. */
  predicate FencedBy(log: seq<Call>, j: nat)
  {
    && j < |log|
    && ((log[j].FenceLocal? && log[j].r.ok) || (log[j].BlackholeLocal? && log[j].c.ok && NotReported(log[..j])))
    && forall k :: j < k < |log| ==>
         && !log[k].ReenableLocal? && !log[k].Cleared?
         && (log[j].BlackholeLocal? ==> !log[k].RestoreRouting?)
  }

  lemma {:induction false} SqlFenceHasCause(log: seq<Call>) returns (j: nat)
    requires SqlFenceHolds(log)
    ensures FencedBy(log, j) && log[j].FenceLocal?
  {
    var init, last := log[..|log| - 1], log[|log| - 1];
    if last.FenceLocal? && last.r.ok {
      j := |log| - 1;
    } else {
      j := SqlFenceHasCause(init);
    }
  }

  lemma {:induction false} BlackholeHasCause(start: Sides, log: seq<Call>) returns (j: nat)
    requires Disciplined(start, log) && BlackholeHolds(log)
    ensures FencedBy(log, j) && log[j].BlackholeLocal?
  {
    var init, last := log[..|log| - 1], log[|log| - 1];
    if last.BlackholeLocal? && last.c.ok {
      j := |log| - 1;
      assert log[..j] == init;
    } else {
      j := BlackholeHasCause(start, init);
      assert log[..j] == init[..j];
    }
  }

  lemma FenceHasCause(start: Sides, log: seq<Call>) returns (j: nat)
    requires Disciplined(start, log) && FenceHolds(log)
    ensures FencedBy(log, j)
  {
    if SqlFenceHolds(log) {
      j := SqlFenceHasCause(log);
    } else {
      j := BlackholeHasCause(start, log);
    }
  }

  /** The remote is write-enabled only behind a fence. */
  lemma EnableOnlyAfterFence(start: Sides, log: seq<Call>, i: nat)
    requires Disciplined(start, log) && i < |log| && log[i].EnableRemote?
    ensures exists j :: FencedBy(log[..i], j)
  {
    DisciplinedPrefix(start, log, i + 1);
    assert log[..i + 1] == log[..i] + [log[i]];
    DisciplinedSnoc(start, log[..i], log[i]);
    var j := FenceHasCause(start, log[..i]);
  }

  /** The local side is re-enabled only after a successful promotion's undo has been
      attempted. */
  lemma {:induction false} DemotionComesFirst(start: Sides, log: seq<Call>, i: nat, j: nat)
    requires Disciplined(start, log) && i < j < |log|
    requires log[i].EnableRemote? && log[i].r.ok && log[j].ReenableLocal?
    requires forall k :: i < k < j ==> !log[k].Cleared?
    ensures exists k :: i < k < j && log[k].DemoteRemote?
  {
    DisciplinedPrefix(start, log, j + 1);
    assert log[..j + 1] == log[..j] + [log[j]];
    DisciplinedSnoc(start, log[..j], log[j]);
    if forall k :: i < k < j ==> !log[k].DemoteRemote? {
      StillUndemoted(log[..j], i);
    }
  }

  lemma {:induction false} StillUndemoted(log: seq<Call>, i: nat)
    requires i < |log| && log[i].EnableRemote? && log[i].r.ok
    requires forall k :: i < k < |log| ==> !log[k].DemoteRemote? && !log[k].Cleared?
    ensures Undemoted(log)
  {
    if i < |log| - 1 {
      StillUndemoted(log[..|log| - 1], i);
    }
  }

  /** Counting every client, not only those of ProxySQL: both sides are writable only
      after one of the two faults, or behind a blackhole. */
  lemma BothWritableOnlyBehindBlackhole(start: Sides, log: seq<Call>, n: nat)
    requires Disciplined(start, log) && start.Formed() && !start.remoteWritable && n <= |log|
    ensures var s := Replay(start, log[..n]);
            s.localWritable && s.remoteWritable ==> Excused(log[..n]) || BlackholeHolds(log[..n])
  {
    DisciplinedPrefix(start, log, n);
    FencedWhilePromoted(start, log[..n]);
  }

  /** The calls of an attempt that blackholed a silent local side, then promoted and
      routed to the remote. */
  function BlackholedPromotion(all: set<Proxy>): seq<Call>
  {
    [Cleared, FenceLocal(Outcome(false, false)), ProbeLocal(false), BlackholeLocal(Change(true, all, {}, all)),
     EnableRemote(Outcome(true, true), {}), RouteToRemote(Change(true, all, all, all))]
  }

  lemma BlackholedHolds(start: Sides)
    requires start.Formed() && !start.remoteWritable
    ensures var log := BlackholedPromotion(start.proxies)[..4];
            && Disciplined(start, log) && BlackholeHolds(log)
            && !Undemoted(log) && !SqlFenceHolds(log) && !Excused(log)
            && var s := Replay(start, log);
               && s.localWritable == start.localWritable && s.proxies == start.proxies
               && s.staged.local == s.runtime.local == {}
  {
    var all := start.proxies;
    var c1, c2 := FenceLocal(Outcome(false, false)), ProbeLocal(false);
    var c3 := BlackholeLocal(Change(true, all, {}, all));
    assert Disciplined(start, []) && Replay(start, []) == start;
    assert !SqlFenceHolds([]) && !BlackholeHolds([]) && !Undemoted([]) && !Excused([]);
    hide Disciplined, SqlFenceHolds, BlackholeHolds, Undemoted, Excused, Replay;
    assert [] + [Cleared] == [Cleared];
    Snoc(start, [], Cleared);
    Snoc(start, [Cleared], c1);
    Snoc(start, [Cleared] + [c1], c2);
    Snoc(start, [Cleared] + [c1] + [c2], c3);
    assert [Cleared] + [c1] + [c2] + [c3] == BlackholedPromotion(all)[..4];
  }

  lemma BlackholedPromotionHolds(start: Sides)
    requires start.Formed() && !start.remoteWritable
    ensures var log := BlackholedPromotion(start.proxies);
            && Disciplined(start, log) && Undemoted(log) && !SqlFenceHolds(log) && !Excused(log)
            && var s := Replay(start, log);
               && s.localWritable == start.localWritable && s.remoteWritable
               && s.proxies == start.proxies && s.staged.local == s.runtime.local == {}
  {
    var all := start.proxies;
    var log := BlackholedPromotion(all)[..4];
    var c4, c5 := EnableRemote(Outcome(true, true), {}), RouteToRemote(Change(true, all, all, all));
    BlackholedHolds(start);
    assert BlackholedPromotion(all) == log + [c4] + [c5];
    hide BlackholedPromotion, Disciplined, SqlFenceHolds, BlackholeHolds, Undemoted, Excused, Replay;
    Snoc(start, log, c4);
    Snoc(start, log + [c4], c5);
  }

  /** Why a routing rollback must not precede the demotion unless the SQL fence holds:
      behind a blackhole alone it leaves two writers without any of the excused faults. */
  lemma RoutingRollbackLiftsBlackhole(start: Sides)
    requires start.Formed() && start.proxies != {} && start.localWritable && !start.remoteWritable
    ensures var log := BlackholedPromotion(start.proxies);
            var undo := RestoreRouting(Change(true, start.proxies, start.proxies, start.proxies));
            && Disciplined(start, log) && !Disciplined(start, log + [undo])
            && !Excused(log + [undo]) && TwoWriters(Replay(start, log + [undo]))
  {
    var log := BlackholedPromotion(start.proxies);
    var undo := RestoreRouting(Change(true, start.proxies, start.proxies, start.proxies));
    BlackholedPromotionHolds(start);
    hide BlackholedPromotion, Disciplined, SqlFenceHolds, BlackholeHolds, Undemoted, Excused, Replay;
    Snoc(start, log, undo);
    var s := Replay(start, log);
    assert ({} + start.proxies) * start.proxies == start.proxies;
  }

  /** A promotion that reported failure was applied, or a demotion was not. */
  predicate FaultAt(log: seq<Call>, i: nat)
  {
    && i < |log|
    && ((log[i].EnableRemote? && !log[i].r.ok && log[i].r.applied) || (log[i].DemoteRemote? && !log[i].r.applied))
  }

  predicate NoneCleared(log: seq<Call>, lo: nat, hi: nat)
  {
    forall k :: lo < k < hi && k < |log| ==> !log[k].Cleared?
  }

  /** The two faults, call by call, since the last passed preflight. */
  lemma {:induction false} ExcusedIff(log: seq<Call>)
    ensures Excused(log) <==> exists i: nat :: FaultAt(log, i) && NoneCleared(log, i, |log|)
  {
    if log != [] {
      var init, last := log[..|log| - 1], log[|log| - 1];
      ExcusedIff(init);
      if Excused(init) && !last.Cleared? {
        var i: nat :| FaultAt(init, i) && NoneCleared(init, i, |init|);
        assert FaultAt(log, i) && NoneCleared(log, i, |log|);
      }
      if FaultAt(log, |init|) {
        assert NoneCleared(log, |init|, |log|);
      }
      forall i: nat | FaultAt(log, i) && NoneCleared(log, i, |log|) && i < |init|
        ensures FaultAt(init, i) && NoneCleared(init, i, |init|) && !last.Cleared?
      {
        assert log[|log| - 1] == last;
      }
    }
  }

  /** A SQL fence that succeeded, or a full blackhole right after a probe that found the
      local side unreachable, or after a failed SQL fence when there was nobody to probe. */
  predicate FenceAt(log: seq<Call>, j: nat)
  {
    && j < |log|
    && ((log[j].FenceLocal? && log[j].r.ok)
        || (log[j].BlackholeLocal? && log[j].c.ok && j > 0
            && (log[j - 1] == ProbeLocal(false) || (log[j - 1].FenceLocal? && !log[j - 1].r.ok))))
  }

  predicate NotReenabled(log: seq<Call>, lo: nat, hi: nat)
  {
    forall k :: lo < k < hi && k < |log| ==> !log[k].ReenableLocal? && !log[k].Cleared?
  }

  /** The fence the remote is enabled behind, call by call. */
  lemma EnabledBehindAFence(start: Sides, log: seq<Call>, i: nat)
    requires Disciplined(start, log) && i < |log| && log[i].EnableRemote?
    ensures exists j: nat :: j < i && FenceAt(log, j) && NotReenabled(log, j, i)
  {
    EnableOnlyAfterFence(start, log, i);
    var j: nat :| FencedBy(log[..i], j);
    assert log[..i][j] == log[j];
    if log[j].BlackholeLocal? {
      assert log[..i][..j][j - 1] == log[j - 1];
    }
    assert FenceAt(log, j);
    assert forall k :: j < k < i ==> log[..i][k] == log[k];
    assert NotReenabled(log, j, i);
  }
}

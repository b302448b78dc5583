/** The routing tables behind the switchover's view of ProxySQL: what the two-phase change
    and the fence of Routing do to real tables is what the steps of Clusters say about
    where each instance sends writes. Instances are numbered in the order configured. */
module RoutedWrites {
  import opened Clusters
  import R = Routing

  /** The table sends writes to this member of the write group: it is in service and may be
      connected to. */
  predicate Sends(t: R.Table, w: R.Key) { w in t && t[w].status == "ONLINE" && t[w].maxConnections > 0 }

  function Indices(n: nat): (all: set<Proxy>)
    ensures forall i: nat :: i in all <==> i < n
  {
    if n == 0 then {} else Indices(n - 1) + {n - 1}
  }

  /** Which tables send writes to the old (local) writer, and which to the new (remote). */
  function View(tables: seq<R.Table>, cfg: R.RoutingConfig): Routes
  {
    Routes(set i: nat | i < |tables| && Sends(tables[i], cfg.OldWriter()),
           set i: nat | i < |tables| && Sends(tables[i], cfg.NewWriter()))
  }

  predicate Distinct(cfg: R.RoutingConfig) { (cfg.oldHost, cfg.oldPort) != (cfg.newHost, cfg.newPort) }

  // --- staging ------------------------------------------------------------------------------

  function Removed(staged: seq<R.Table>, cfg: R.RoutingConfig): set<Proxy>
  {
    set i: nat | i < |staged| && !Sends(staged[i], cfg.OldWriter())
  }

  function Added(staged: seq<R.Table>, cfg: R.RoutingConfig): set<Proxy>
  {
    set i: nat | i < |staged| && Sends(staged[i], cfg.NewWriter()) && !Sends(staged[i], cfg.OldWriter())
  }

  /** Once any attempt deletes the old writer it stays deleted, and before that nothing is
      inserted. */
  lemma {:induction false} AttemptsSend(t: R.Table, cfg: R.RoutingConfig, stops: seq<nat>)
    requires forall i :: 0 <= i < |stops| ==> stops[i] <= 3
    requires Distinct(cfg)
    ensures var t' := R.Attempts(t, cfg, stops);
            && (cfg.OldWriter() in t' ==> t' == t)
            && (Sends(t, cfg.NewWriter()) ==> Sends(t', cfg.NewWriter()))
  {
    if stops != [] {
      AttemptsSend(t, cfg, stops[..|stops| - 1]);
    }
  }

  lemma AttemptedSends(t: R.Table, t': R.Table, cfg: R.RoutingConfig)
    requires R.Attempted(t, t', cfg) && Distinct(cfg)
    ensures cfg.OldWriter() in t' ==> t' == t
    ensures Sends(t, cfg.NewWriter()) ==> Sends(t', cfg.NewWriter())
  {
    var stops: seq<nat> :| (forall i :: 0 <= i < |stops| ==> stops[i] <= 3) && t' == R.Attempts(t, cfg, stops);
    AttemptsSend(t, cfg, stops);
  }

  /** Staging after any aborted or complete change. */
  lemma StageView(before: seq<R.Table>, after: seq<R.Table>, cfg: R.RoutingConfig)
    requires |before| == |after| && Distinct(cfg)
    requires forall i :: 0 <= i < |after| ==> R.Attempted(before[i], after[i], cfg)
    ensures View(after, cfg) ==
      Routes(View(before, cfg).local - Removed(after, cfg), View(before, cfg).remote + Added(after, cfg))
    ensures Added(after, cfg) <= Removed(after, cfg) <= Indices(|after|)
  {
    forall i: nat | i < |after|
      ensures Sends(after[i], cfg.OldWriter()) ==> after[i] == before[i]
      ensures Sends(before[i], cfg.NewWriter()) ==> Sends(after[i], cfg.NewWriter())
    {
      AttemptedSends(before[i], after[i], cfg);
    }
    hide R.Attempted, Sends;
    assert View(after, cfg).local == View(before, cfg).local - Removed(after, cfg);
    assert View(after, cfg).remote == View(before, cfg).remote + Added(after, cfg);
  }

  /** Complete staging sends every write to the new writer. */
  lemma PreparedView(before: seq<R.Table>, after: seq<R.Table>, cfg: R.RoutingConfig)
    requires |before| == |after| && Distinct(cfg)
    requires forall i :: 0 <= i < |after| ==> after[i] == R.Prepared(before[i], cfg)
    ensures Added(after, cfg) == Removed(after, cfg) == Indices(|after|)
    ensures View(after, cfg) == Routes({}, Indices(|after|))
  {
  }

  /** Staging after any fence attempt. */
  lemma FenceView(before: seq<R.Table>, after: seq<R.Table>, cfg: R.RoutingConfig, target: R.Key)
    requires |before| == |after| && Distinct(cfg)
    requires target.host == cfg.oldHost && target.port == cfg.oldPort
    requires forall i :: 0 <= i < |after| ==> R.FenceStep(before[i], after[i], target)
    ensures View(after, cfg) == Routes(View(before, cfg).local - Removed(after, cfg), View(before, cfg).remote)
  {
    forall i: nat | i < |after|
      ensures Sends(after[i], cfg.OldWriter()) ==> Sends(before[i], cfg.OldWriter())
      ensures Sends(after[i], cfg.NewWriter()) <==> Sends(before[i], cfg.NewWriter())
    {
      FenceStepSends(before[i], after[i], cfg, target);
    }
    hide R.FenceStep, Sends;
    assert View(after, cfg).local == View(before, cfg).local - Removed(after, cfg);
    assert View(after, cfg).remote == View(before, cfg).remote;
  }

  lemma FenceStepSends(t: R.Table, t': R.Table, cfg: R.RoutingConfig, target: R.Key)
    requires Distinct(cfg) && target.host == cfg.oldHost && target.port == cfg.oldPort
    requires R.FenceStep(t, t', target)
    ensures Sends(t', cfg.OldWriter()) ==> Sends(t, cfg.OldWriter())
    ensures Sends(t', cfg.NewWriter()) <==> Sends(t, cfg.NewWriter())
  {
    var hits := R.Hits(t, target.host, target.port);
    assert cfg.NewWriter() !in hits && cfg.NewWriter() != target;
    if R.Moved(t, t', target) && hits != {} {
      var h :| h in hits;
      R.AtMostOne(hits, h);
      assert cfg.OldWriter() in t ==> cfg.OldWriter() in hits;
    }
  }

  // --- runtime ------------------------------------------------------------------------------

  /** Loading the staging table on some instances. */
  lemma LoadView(staged: seq<R.Table>, before: seq<R.Table>, after: seq<R.Table>, loaded: set<Proxy>,
                 cfg: R.RoutingConfig)
    requires |staged| == |before| == |after| && loaded <= Indices(|staged|)
    requires forall i: nat :: i < |after| ==> after[i] == R.RuntimeAfter(staged[i], before[i], i in loaded)
    ensures View(after, cfg) == Load(View(before, cfg), View(staged, cfg), loaded)
  {
    hide Sends;
    assert View(after, cfg).local == (View(before, cfg).local - loaded) + (View(staged, cfg).local * loaded);
    assert View(after, cfg).remote == (View(before, cfg).remote - loaded) + (View(staged, cfg).remote * loaded);
  }

  /** What a failed commit leaves when every instance used to send writes to the old writer:
      those that loaded send them to the new one, the others still to the old one. */
  lemma MixedCommit(before: seq<R.Table>, staged: seq<R.Table>, after: seq<R.Table>, loaded: set<Proxy>,
                    cfg: R.RoutingConfig)
    requires |staged| == |before| == |after| && loaded <= Indices(|staged|) && Distinct(cfg)
    requires forall i :: 0 <= i < |staged| ==> staged[i] == R.Prepared(before[i], cfg)
    requires forall i: nat :: i < |after| ==> after[i] == R.RuntimeAfter(staged[i], before[i], i in loaded)
    requires View(before, cfg) == Routes(Indices(|before|), {})
    ensures View(after, cfg) == Routes(Indices(|after|) - loaded, loaded)
  {
    PreparedView(before, staged, cfg);
    LoadView(staged, before, after, loaded, cfg);
    hide View;
    var all := Indices(|after|);
    assert (all - loaded) + ({} * loaded) == all - loaded;
    assert ({} - loaded) + (all * loaded) == loaded;
  }

  // --- the methods --------------------------------------------------------------------------

  function StagingOf(es: seq<R.Instance>): (ts: seq<R.Table>)
    reads es
    ensures |ts| == |es| && forall i :: 0 <= i < |es| ==> ts[i] == es[i].staging
  {
    seq(|es|, i requires 0 <= i < |es| reads es => es[i].staging)
  }

  function RuntimeOf(es: seq<R.Instance>): (ts: seq<R.Table>)
    reads es
    ensures |ts| == |es| && forall i :: 0 <= i < |es| ==> ts[i] == es[i].runtime
  {
    seq(|es|, i requires 0 <= i < |es| reads es => es[i].runtime)
  }

  /** The two-phase change on real tables does to the routes what RouteToRemote's step does
      to the sides. */
  method RouteAll(net: R.Network, es: seq<R.Instance>, cfg: R.RoutingConfig) returns (r: R.Outcome, ghost c: Change)
    requires Distinct(cfg)
    modifies net, set e | e in es
    ensures c.ok <==> r.Applied?
    ensures LegalRoute(c, Indices(|es|))
    ensures View(StagingOf(es), cfg) ==
      Routes(old(View(StagingOf(es), cfg)).local - c.removed, old(View(StagingOf(es), cfg)).remote + c.added)
    ensures View(RuntimeOf(es), cfg) == Load(old(View(RuntimeOf(es), cfg)), View(StagingOf(es), cfg), c.loaded)
  {
    hide R.Attempted, R.Loaded, R.Prepared, R.RestPrepared, R.RestCommitted, View, Removed, Added;
    ghost var staged0, runtime0 := StagingOf(es), RuntimeOf(es);
    ghost var loads, bad;
    r, loads, bad := R.ApplyFailoverRouting(net, es, cfg);
    ghost var staged, runtime := StagingOf(es), RuntimeOf(es);
    StageView(staged0, staged, cfg);
    ghost var loaded := set i: nat | i < |es| && (r.Applied? || (r.CommitFailed? && R.Loaded(es, loads, es[i])));
    if !r.PrepareFailed? {
      PreparedView(staged0, staged, cfg);
    }
    c := Change(r.Applied?, Removed(staged, cfg), Added(staged, cfg), loaded);
    if r.Applied? {
      assert loaded == Indices(|es|);
    }
    LoadView(staged, runtime0, runtime, loaded, cfg);
  }

  /** The fence on real tables does to the routes what BlackholeLocal's step does. */
  method FenceAll(net: R.Network, es: seq<R.Instance>, cfg: R.RoutingConfig, hostgroup: int)
    returns (ok: bool, ghost c: Change)
    requires Distinct(cfg)
    modifies net, set e | e in es
    ensures c.ok == ok && LegalFence(c, Indices(|es|))
    ensures View(StagingOf(es), cfg) ==
      Routes(old(View(StagingOf(es), cfg)).local - c.removed, old(View(StagingOf(es), cfg)).remote)
    ensures View(RuntimeOf(es), cfg) == Load(old(View(RuntimeOf(es), cfg)), View(StagingOf(es), cfg), c.loaded)
  {
    hide R.FenceStep, View, R.Hits, R.FencedIn, R.Fenced, Sends;
    ghost var staged0, runtime0 := StagingOf(es), RuntimeOf(es);
    ghost var target, bad;
    ok, target, bad := R.Blackhole(net, es, cfg.oldHost, cfg.oldPort, hostgroup);
    ghost var staged, runtime := StagingOf(es), RuntimeOf(es);
    FenceView(staged0, staged, cfg, target);
    ghost var loaded := set i: nat | i < |es| && runtime[i] == staged[i] == R.Fenced(staged0[i], target);
    forall i | i in loaded
      ensures !Sends(staged[i], cfg.OldWriter())
    {
      FencedSendsNothing(staged0[i], cfg, target);
    }
    c := Change(ok, Removed(staged, cfg), {}, loaded);
    if ok {
      assert loaded == Indices(|es|);
    }
    LoadView(staged, runtime0, runtime, loaded, cfg);
  }

  lemma FencedSendsNothing(t: R.Table, cfg: R.RoutingConfig, target: R.Key)
    requires target.host == cfg.oldHost && target.port == cfg.oldPort
    ensures !Sends(R.Fenced(t, target), cfg.OldWriter())
  {
    assert cfg.OldWriter() in t ==> cfg.OldWriter() in R.Hits(t, target.host, target.port);
  }
}

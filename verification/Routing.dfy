/** Two-phase routing changes and the blackhole fence over any number of ProxySQL
    instances (internal/proxysql/manager.go).

    Every instance has a staging table (edited by SQL), a runtime table (LOAD copies
    staging into it) and a disk copy (SAVE). A failing statement may or may not have
    been applied. The same instance may be listed more than once. */
module Routing {
  /** Primary key of mysql_servers. */
  datatype Key = Key(hostgroup: int, host: string, port: int)

  datatype Server = Server(status: string, maxConnections: int, weight: int)

  type Table = map<Key, Server>

  const ONLINE := Server("ONLINE", 1000, 1)
  const BLACKHOLE := Server("OFFLINE_HARD", 0, 0)

  datatype RoutingConfig = RoutingConfig(
    oldHost: string, oldPort: int, newHost: string, newPort: int, readWrite: int, readOnly: int)
  {
    function OldWriter(): Key { Key(readWrite, oldHost, oldPort) }

    function NewWriter(): Key { Key(readWrite, newHost, newPort) }

    function NewReader(): Key { Key(readOnly, newHost, newPort) }

    function Swapped(): RoutingConfig
    {
      RoutingConfig(newHost, newPort, oldHost, oldPort, readWrite, readOnly)
    }
  }

  // --- the prepare statements as table transformations ---------------------------------

  /** The effect of the first k of the three prepare statements. */
  function PrepareTo(t: Table, cfg: RoutingConfig, k: nat): Table
    requires k <= 3
  {
    if k == 0 then t
    else if k == 1 then t - {cfg.OldWriter()}
    else if k == 2 then (t - {cfg.OldWriter()})[cfg.NewWriter() := ONLINE]
    else (t - {cfg.OldWriter()})[cfg.NewWriter() := ONLINE][cfg.NewReader() := ONLINE]
  }

  function Prepared(t: Table, cfg: RoutingConfig): Table { PrepareTo(t, cfg, 3) }

  /** A staging table after several attempts, each stopped after some statement. */
  function Attempts(t: Table, cfg: RoutingConfig, stops: seq<nat>): Table
    requires forall i :: 0 <= i < |stops| ==> stops[i] <= 3
  {
    if stops == [] then t
    else PrepareTo(Attempts(t, cfg, stops[..|stops| - 1]), cfg, stops[|stops| - 1])
  }

  ghost predicate Attempted(before: Table, t: Table, cfg: RoutingConfig)
  {
    exists stops: seq<nat> ::
      (forall i :: 0 <= i < |stops| ==> stops[i] <= 3) && t == Attempts(before, cfg, stops)
  }

  lemma AttemptedNothing(t: Table, cfg: RoutingConfig)
    ensures Attempted(t, t, cfg)
  {
    assert t == Attempts(t, cfg, []);
  }

  lemma AttemptedMore(before: Table, t: Table, cfg: RoutingConfig, k: nat)
    requires Attempted(before, t, cfg) && k <= 3
    ensures Attempted(before, PrepareTo(t, cfg, k), cfg)
  {
    var stops: seq<nat> :| (forall i :: 0 <= i < |stops| ==> stops[i] <= 3) && t == Attempts(before, cfg, stops);
    var more := stops + [k];
    assert more[..|more| - 1] == stops;
    assert PrepareTo(t, cfg, k) == Attempts(before, cfg, more);
  }

  lemma PrepareAbsorbs(t: Table, cfg: RoutingConfig, k: nat)
    requires k <= 3
    ensures Prepared(PrepareTo(t, cfg, k), cfg) == Prepared(t, cfg)
  {
  }

  /** Retries converge: whatever earlier attempts left behind, one complete prepare gives
      the table a single clean attempt would have given. */
  lemma {:induction false} RetryConverges(t: Table, cfg: RoutingConfig, stops: seq<nat>)
    requires forall i :: 0 <= i < |stops| ==> stops[i] <= 3
    ensures Prepared(Attempts(t, cfg, stops), cfg) == Prepared(t, cfg)
  {
    if stops != [] {
      var earlier := stops[..|stops| - 1];
      PrepareAbsorbs(Attempts(t, cfg, earlier), cfg, stops[|stops| - 1]);
      RetryConverges(t, cfg, earlier);
    }
  }

  lemma AttemptedConverges(before: Table, t: Table, cfg: RoutingConfig)
    requires Attempted(before, t, cfg)
    ensures Prepared(t, cfg) == Prepared(before, cfg)
  {
    var stops: seq<nat> :| (forall i :: 0 <= i < |stops| ==> stops[i] <= 3) && t == Attempts(before, cfg, stops);
    RetryConverges(before, cfg, stops);
  }

  // --- what a prepared table routes -----------------------------------------------------

  /** The (host, port) pairs of one hostgroup. */
  function Members(t: Table, hostgroup: int): set<(string, int)>
  {
    set k | k in t && k.hostgroup == hostgroup :: (k.host, k.port)
  }

  lemma MemberKey(t: Table, hostgroup: int, m: (string, int))
    ensures m in Members(t, hostgroup) <==> Key(hostgroup, m.0, m.1) in t
  {
  }

  /** The write group loses exactly the old writer and gains exactly the new one, which is
      ONLINE in both groups; every other row is as before. */
  lemma PreparedRoutes(t: Table, cfg: RoutingConfig)
    ensures var t' := Prepared(t, cfg);
            var writer := Key(cfg.readWrite, cfg.newHost, cfg.newPort);
            var reader := Key(cfg.readOnly, cfg.newHost, cfg.newPort);
            && Members(t', cfg.readWrite) ==
                 Members(t, cfg.readWrite) - {(cfg.oldHost, cfg.oldPort)} + {(cfg.newHost, cfg.newPort)}
            && writer in t' && t'[writer].status == "ONLINE" && t'[writer].maxConnections == 1000
            && reader in t' && t'[reader].status == "ONLINE" && t'[reader].maxConnections == 1000
            && t'[writer].weight == t'[reader].weight == 1
            && forall k :: k != Key(cfg.readWrite, cfg.oldHost, cfg.oldPort) && k != writer && k != reader ==>
                 (k in t' <==> k in t) && (k in t ==> t'[k] == t[k])
  {
    var t' := Prepared(t, cfg);
    forall m
      ensures m in Members(t', cfg.readWrite) <==>
              m in Members(t, cfg.readWrite) - {(cfg.oldHost, cfg.oldPort)} + {(cfg.newHost, cfg.newPort)}
    {
      MemberKey(t', cfg.readWrite, m);
      MemberKey(t, cfg.readWrite, m);
    }
  }

  /** Rolling back restores the write group's membership exactly when the old writer had
      been in it and the new one (if different) had not. */
  lemma RollbackRestores(t: Table, cfg: RoutingConfig, stops: seq<nat>)
    requires forall i :: 0 <= i < |stops| ==> stops[i] <= 3
    ensures var rolledBack := Prepared(Prepared(Attempts(t, cfg, stops), cfg), cfg.Swapped());
            var demoted, promoted := (cfg.oldHost, cfg.oldPort), (cfg.newHost, cfg.newPort);
            Members(rolledBack, cfg.readWrite) == Members(t, cfg.readWrite) <==>
              (demoted in Members(t, cfg.readWrite) &&
               (promoted == demoted || promoted !in Members(t, cfg.readWrite)))
  {
    var w := Members(t, cfg.readWrite);
    var demoted, promoted := (cfg.oldHost, cfg.oldPort), (cfg.newHost, cfg.newPort);
    RetryConverges(t, cfg, stops);
    PreparedRoutes(t, cfg);
    PreparedRoutes(Prepared(t, cfg), cfg.Swapped());
    var r := w - {demoted} + {promoted} - {promoted} + {demoted};
    assert demoted in r && (promoted in r ==> promoted == demoted);
    if demoted in w && (promoted == demoted || promoted !in w) {
      assert r == w;
    }
  }

  // --- the blackhole fence as table transformations ----------------------------------------

  /** Every row of one MySQL node, whatever its hostgroup. */
  function Hits(t: Table, host: string, port: int): set<Key>
  {
    set k | k in t && k.host == host && k.port == port
  }

  /** What UPDATE mysql_servers SET hostgroup_id = hg, max_connections = 0, status =
      'OFFLINE_HARD' makes of each row: the node's rows move, the others stay. */
  function NewKey(k: Key, target: Key): Key
  {
    if k.host == target.host && k.port == target.port then target else k
  }

  function NewServer(k: Key, s: Server, target: Key): Server
  {
    if k.host == target.host && k.port == target.port then s.(status := "OFFLINE_HARD", maxConnections := 0) else s
  }

  /** Two rows would get the same primary key. */
  ghost predicate Collides(t: Table, target: Key)
  {
    exists a, b :: a in t && b in t && a != b && NewKey(a, target) == NewKey(b, target)
  }

  /** The UPDATE row by row; there is no outcome if two rows collide. */
  ghost predicate Updated(t: Table, t': Table, target: Key)
  {
    && !Collides(t, target)
    && (forall k :: k in t ==> NewKey(k, target) in t' && t'[NewKey(k, target)] == NewServer(k, t[k], target))
    && (forall k' :: k' in t' ==> exists k :: k in t && k' == NewKey(k, target))
  }

  /** The same, in terms of the node's rows: none or one to move. */
  predicate Moved(t: Table, t': Table, target: Key)
  {
    var hits := Hits(t, target.host, target.port);
    && |hits| <= 1
    && (hits == {} ==> t' == t)
    && (forall k :: k in hits ==>
          t' == (t - {k})[target := t[k].(status := "OFFLINE_HARD", maxConnections := 0)])
  }

  lemma TwoHitsCollide(t: Table, target: Key)
    requires |Hits(t, target.host, target.port)| > 1
    ensures Collides(t, target)
  {
    var hits := Hits(t, target.host, target.port);
    var a :| a in hits;
    assert |hits - {a}| > 0;
    var b :| b in hits - {a};
    assert NewKey(a, target) == NewKey(b, target);
  }

  lemma CollidingHits(t: Table, target: Key)
    requires Collides(t, target)
    ensures |Hits(t, target.host, target.port)| > 1
  {
    var a, b :| a in t && b in t && a != b && NewKey(a, target) == NewKey(b, target);
    var hits := Hits(t, target.host, target.port);
    assert {a, b} <= hits;
    AtLeastTwo(hits, a, b);
  }

  lemma AtLeastTwo(s: set<Key>, a: Key, b: Key)
    requires {a, b} <= s && a != b
    ensures |s| > 1
  {
    assert s == {a, b} + (s - {a, b});
  }

  /** The primary key is what stops the UPDATE: rows collide exactly when the node has more
      than one. */
  lemma CollidesIff(t: Table, target: Key)
    ensures Collides(t, target) <==> |Hits(t, target.host, target.port)| > 1
  {
    hide Collides, Hits;
    if Collides(t, target) {
      CollidingHits(t, target);
    }
    if |Hits(t, target.host, target.port)| > 1 {
      TwoHitsCollide(t, target);
    }
  }

  lemma AtMostOne(hits: set<Key>, k: Key)
    requires |hits| <= 1 && k in hits
    ensures hits == {k}
  {
    assert |hits - {k}| == 0;
  }

  lemma UpdatedIff(t: Table, t': Table, target: Key)
    ensures Updated(t, t', target) <==> Moved(t, t', target)
  {
    CollidesIff(t, target);
    if Moved(t, t', target) {
      MovedIsUpdated(t, t', target);
    }
    if Updated(t, t', target) {
      UpdatedIsMoved(t, t', target);
    }
  }

  lemma MovedIsUpdated(t: Table, t': Table, target: Key)
    requires Moved(t, t', target) && !Collides(t, target)
    ensures Updated(t, t', target)
  {
    var hits := Hits(t, target.host, target.port);
    if hits == {} {
      assert forall k :: k in t ==> k !in hits && NewKey(k, target) == k;
    } else {
      var h :| h in hits;
      AtMostOne(hits, h);
      forall k | k in t
        ensures NewKey(k, target) in t' && t'[NewKey(k, target)] == NewServer(k, t[k], target)
      {
        assert k == h || k !in hits;
      }
      forall k' | k' in t'
        ensures exists k :: k in t && k' == NewKey(k, target)
      {
        if k' == target {
          assert NewKey(h, target) == target;
        } else {
          assert k' in t && k' !in hits;
          assert NewKey(k', target) == k';
        }
      }
    }
  }

  lemma UpdatedIsMoved(t: Table, t': Table, target: Key)
    requires Updated(t, t', target) && |Hits(t, target.host, target.port)| <= 1
    ensures Moved(t, t', target)
  {
    var hits := Hits(t, target.host, target.port);
    hide Updated;
    if hits == {} {
      NoRowMoves(t, t', target);
    } else {
      var h :| h in hits;
      AtMostOne(hits, h);
      OneRowMoves(t, t', target, h);
    }
  }

  lemma RowsThatStay(t: Table, t': Table, target: Key, k: Key)
    requires Updated(t, t', target)
    ensures k in t && (k.host, k.port) != (target.host, target.port) ==> k in t' && t'[k] == t[k]
    ensures k in t' && k != target ==> k in t && (k.host, k.port) != (target.host, target.port)
    ensures k in t' && k == target ==> exists h :: h in Hits(t, target.host, target.port)
  {
    if k in t && (k.host, k.port) != (target.host, target.port) {
      assert NewKey(k, target) == k;
      assert t'[NewKey(k, target)] == NewServer(k, t[k], target);
    }
    if k in t' {
      var j :| j in t && k == NewKey(j, target);
      if k == target {
        assert j in Hits(t, target.host, target.port);
      }
    }
  }

  lemma NoRowMoves(t: Table, t': Table, target: Key)
    requires Updated(t, t', target) && Hits(t, target.host, target.port) == {}
    ensures t' == t
  {
    hide Updated;
    forall k
      ensures (k in t' <==> k in t) && (k in t ==> t'[k] == t[k])
    {
      RowsThatStay(t, t', target, k);
      assert k in t ==> k !in Hits(t, target.host, target.port);
    }
  }

  lemma OneRowMoves(t: Table, t': Table, target: Key, h: Key)
    requires Updated(t, t', target) && Hits(t, target.host, target.port) == {h}
    ensures t' == (t - {h})[target := t[h].(status := "OFFLINE_HARD", maxConnections := 0)]
  {
    assert h in Hits(t, target.host, target.port);
    assert NewKey(h, target) == target;
    assert target in t' && t'[target] == NewServer(h, t[h], target);
    hide Updated;
    var want := (t - {h})[target := t[h].(status := "OFFLINE_HARD", maxConnections := 0)];
    forall k
      ensures (k in t' <==> k in want) && (k in want ==> t'[k] == want[k])
    {
      RowsThatStay(t, t', target, k);
      if k in t && k != h {
        assert k !in Hits(t, target.host, target.port);
      }
    }
  }

  /** The complete fence: the node's only row is the unroutable one. */
  function Fenced(t: Table, target: Key): Table
  {
    (t - Hits(t, target.host, target.port))[target := BLACKHOLE]
  }

  predicate FencedIn(t: Table, target: Key)
  {
    && target in t && t[target].status == "OFFLINE_HARD" && t[target].maxConnections == 0
    && Hits(t, target.host, target.port) == {target}
  }

  lemma MovedHits(t: Table, t': Table, target: Key)
    requires Moved(t, t', target)
    ensures Hits(t', target.host, target.port) == if Hits(t, target.host, target.port) == {} then {} else {target}
  {
    var hits := Hits(t, target.host, target.port);
    if hits != {} {
      var k :| k in hits;
      assert hits == {k} by {
        assert |hits - {k}| == 0;
      }
    }
  }

  /** The fence reaches the same table from any point an earlier attempt stopped at. */
  lemma FenceAbsorbs(t: Table, t': Table, target: Key)
    requires Moved(t, t', target)
    ensures Fenced(t', target) == Fenced(t, target)
    ensures Moved(t', t', target)
  {
    MovedHits(t, t', target);
    var hits := Hits(t, target.host, target.port);
    if hits != {} {
      var k :| k in hits;
      assert hits == {k} by {
        assert |hits - {k}| == 0;
      }
    }
  }

  lemma FencedIsFenced(t: Table, target: Key)
    ensures FencedIn(Fenced(t, target), target)
    ensures Fenced(Fenced(t, target), target) == Fenced(t, target)
    ensures Moved(Fenced(t, target), Fenced(t, target), target)
  {
    var t' := Fenced(t, target);
    assert Hits(t', target.host, target.port) == {target};
  }

  /** One complete routing change away from a fenced node keeps the fence exactly when
      the blackhole hostgroup is not the write group. */
  lemma RoutingKeepsFenceIff(t: Table, cfg: RoutingConfig, target: Key)
    requires FencedIn(t, target)
    requires cfg.oldHost == target.host && cfg.oldPort == target.port
    requires (cfg.newHost, cfg.newPort) != (cfg.oldHost, cfg.oldPort)
    ensures FencedIn(Prepared(t, cfg), target) <==> target.hostgroup != cfg.readWrite
  {
    var t' := Prepared(t, cfg);
    if target.hostgroup == cfg.readWrite {
      assert target == cfg.OldWriter();
    } else {
      assert forall k :: k in Hits(t', target.host, target.port) <==> k in Hits(t, target.host, target.port);
    }
  }

  /** What can happen to one instance after the fence: routing attempts that stop after
      any number of statements, and loads of the staging table. */
  datatype Event = Stage(cfg: RoutingConfig, stop: nat) | Load

  datatype Tables = Tables(staging: Table, runtime: Table)

  function Play(start: Tables, events: seq<Event>): Tables
  {
    if events == [] then start
    else
      var s := Play(start, events[..|events| - 1]);
      match events[|events| - 1]
      case Stage(cfg, stop) => if stop <= 3 then s.(staging := PrepareTo(s.staging, cfg, stop)) else s
      case Load => s.(runtime := s.staging)
  }

  /** The event demotes the target in favour of another writer, in groups apart from the
      blackhole group. */
  predicate RoutesAway(e: Event, target: Key)
  {
    e.Stage? ==>
      && e.cfg.oldHost == target.host && e.cfg.oldPort == target.port
      && (e.cfg.newHost, e.cfg.newPort) != (e.cfg.oldHost, e.cfg.oldPort)
      && e.cfg.readWrite != target.hostgroup
  }

  /** Over any run of routing attempts, complete or not, the fenced node never comes back
      into a routed hostgroup, in staging or at runtime. */
  lemma {:induction false} FenceSurvives(start: Tables, events: seq<Event>, target: Key)
    requires FencedIn(start.staging, target) && FencedIn(start.runtime, target)
    requires forall i :: 0 <= i < |events| ==> RoutesAway(events[i], target)
    ensures FencedIn(Play(start, events).staging, target) && FencedIn(Play(start, events).runtime, target)
  {
    if events != [] {
      var earlier, last := events[..|events| - 1], events[|events| - 1];
      FenceSurvives(start, earlier, target);
      if last.Stage? && last.stop <= 3 {
        var before := Play(start, earlier).staging;
        var after := PrepareTo(before, last.cfg, last.stop);
        assert forall k :: k in Hits(after, target.host, target.port) <==> k in Hits(before, target.host, target.port);
      }
    }
  }

  // --- instances and the manager ---------------------------------------------------------------

  class Instance {
    var staging: Table
    var runtime: Table
    var disk: Table

    constructor (t: Table)
      ensures staging == runtime == disk == t
    {
      staging, runtime, disk := t, t, t;
    }
  }

  /** The admin connections. Any call may fail, and a failed call may have been applied;
      `failures` counts the failed ones. */
  class Network {
    var failures: nat

    constructor ()
      ensures failures == 0
    {
      failures := 0;
    }

    method Call() returns (ok: bool, applied: bool)
      modifies this
      ensures ok ==> applied
      ensures failures == old(failures) + if ok then 0 else 1
    {
      ok, applied := *, *;
      if ok {
        applied := true;
      } else {
        failures := failures + 1;
      }
    }
  }

  /** Dial, ping and the three prepare statements on one instance. */
  method PrepareOne(net: Network, inst: Instance, cfg: RoutingConfig) returns (ok: bool)
    modifies net, inst`staging
    ensures net.failures == old(net.failures) + if ok then 0 else 1
    ensures exists k: nat :: k <= 3 && inst.staging == PrepareTo(old(inst.staging), cfg, k)
    ensures ok ==> inst.staging == Prepared(old(inst.staging), cfg)
  {
    ghost var before := inst.staging;
    assert inst.staging == PrepareTo(before, cfg, 0);
    var done, applied := net.Call();
    if !done {
      return false;
    }
    done, applied := net.Call();
    if applied {
      inst.staging := inst.staging - {cfg.OldWriter()};
      assert inst.staging == PrepareTo(before, cfg, 1);
    }
    if !done {
      return false;
    }
    done, applied := net.Call();
    if applied {
      inst.staging := inst.staging[cfg.NewWriter() := ONLINE];
      assert inst.staging == PrepareTo(before, cfg, 2);
    }
    if !done {
      return false;
    }
    done, applied := net.Call();
    if applied {
      inst.staging := inst.staging[cfg.NewReader() := ONLINE];
      assert inst.staging == PrepareTo(before, cfg, 3);
    }
    return done;
  }

  /** What an instance routes by once a commit is over: LOAD copies staging, SAVE does not
      matter. */
  function RuntimeAfter(staging: Table, runtime: Table, loaded: bool): Table
  {
    if loaded then staging else runtime
  }

  /** LOAD and SAVE. The runtime changes exactly when LOAD was applied, so a failed SAVE,
      or a LOAD that reported failure, is an error although the runtime has changed. */
  method CommitOne(net: Network, inst: Instance) returns (ok: bool, ghost loaded: bool)
    modifies net, inst`runtime, inst`disk
    ensures net.failures == old(net.failures) + if ok then 0 else 1
    ensures inst.runtime == if loaded then inst.staging else old(inst.runtime)
    ensures inst.disk == old(inst.disk) || inst.disk == inst.staging
    ensures ok ==> loaded && inst.disk == inst.staging
  {
    var done, applied := net.Call();
    loaded := applied;
    if applied {
      inst.runtime := inst.staging;
    }
    if !done {
      return false, loaded;
    }
    done, applied := net.Call();
    if applied {
      inst.disk := inst.staging;
    }
    return done, loaded;
  }

  datatype Outcome = Applied | PrepareFailed | CommitFailed

  /** None of the positions at which the instance is listed is among the bad ones. */
  predicate Unscathed(listed: seq<Instance>, bad: set<nat>, e: Instance)
  {
    forall i: nat :: i in bad && i < |listed| ==> listed[i] != e
  }

  /** Every instance that had no failure is prepared. */
  twostate predicate RestPrepared(endpoints: seq<Instance>, bad: set<nat>, cfg: RoutingConfig)
    reads endpoints
  {
    forall e :: e in endpoints && Unscathed(endpoints, bad, e) ==> e.staging == Prepared(old(e.staging), cfg)
  }

  /** Every listing without a failure is loaded and saved. */
  ghost predicate RestCommitted(endpoints: seq<Instance>, bad: set<nat>, loads: seq<bool>)
    reads endpoints
  {
    && |loads| == |endpoints|
    && forall i: nat :: i < |endpoints| && i !in bad ==>
         loads[i] && endpoints[i].runtime == endpoints[i].disk == endpoints[i].staging
  }

  /** Phase 1 on every instance, continuing past failures: each failed call stops the work at
      one position of the list and at no other. */
  method PrepareAll(net: Network, endpoints: seq<Instance>, cfg: RoutingConfig)
    returns (staged: seq<Instance>, errs: nat, ghost bad: set<nat>)
    modifies net, set e | e in endpoints :: e`staging
    ensures net.failures == old(net.failures) + errs && |bad| == errs
    ensures forall e :: e in endpoints && Unscathed(endpoints, bad, e) ==>
      e.staging == Prepared(old(e.staging), cfg)
    ensures forall e :: e in endpoints ==> Attempted(old(e.staging), e.staging, cfg)
    ensures errs == 0 ==>
      staged == endpoints && forall e :: e in endpoints ==> e.staging == Prepared(old(e.staging), cfg)
  {
    forall e | e in endpoints
      ensures Attempted(old(e.staging), e.staging, cfg)
    {
      AttemptedNothing(e.staging, cfg);
    }
    staged, errs, bad := [], 0, {};
    for i := 0 to |endpoints|
      invariant net.failures == old(net.failures) + errs && |bad| == errs && forall k :: k in bad ==> k < i
      invariant forall e :: e in endpoints ==> Attempted(old(e.staging), e.staging, cfg)
      invariant forall e :: e in endpoints[..i] && Unscathed(endpoints, bad, e) ==>
        e.staging == Prepared(old(e.staging), cfg)
      invariant errs == 0 ==> staged == endpoints[..i]
    {
      var ep := endpoints[i];
      ghost var before := ep.staging;
      var ok := PrepareOne(net, ep, cfg);
      ghost var k: nat :| k <= 3 && ep.staging == PrepareTo(before, cfg, k);
      AttemptedMore(old(ep.staging), before, cfg, k);
      AttemptedConverges(old(ep.staging), before, cfg);
      if !ok {
        errs, bad := errs + 1, bad + {i};
      } else {
        staged := staged + [ep];
      }
      assert endpoints[..i + 1] == endpoints[..i] + [ep];
    }
  }

  /** Some listing of the instance had its LOAD applied. */
  predicate Loaded(listed: seq<Instance>, loads: seq<bool>, e: Instance)
  {
    exists i :: 0 <= i < |listed| && i < |loads| && listed[i] == e && loads[i]
  }

  lemma LoadedSnoc(listed: seq<Instance>, loads: seq<bool>, i: nat, loaded: bool, e: Instance)
    requires i < |listed| && |loads| == i
    ensures Loaded(listed, loads + [loaded], e) <==> Loaded(listed, loads, e) || (listed[i] == e && loaded)
  {
    if Loaded(listed, loads, e) {
      var k :| 0 <= k < i && listed[k] == e && loads[k];
      assert (loads + [loaded])[k];
    }
    if listed[i] == e && loaded {
      assert (loads + [loaded])[i];
    }
  }

  /** Phase 2 on every staged instance, continuing past failures in the same way. */
  method CommitAll(net: Network, staged: seq<Instance>)
    returns (errs: nat, ghost loads: seq<bool>, ghost bad: set<nat>)
    modifies net, set e | e in staged
    ensures net.failures == old(net.failures) + errs && |bad| == errs
    ensures |loads| == |staged| && forall i: nat :: i < |loads| && i !in bad ==> loads[i]
    ensures forall e :: e in staged ==>
      e.staging == old(e.staging) && e.runtime == RuntimeAfter(e.staging, old(e.runtime), Loaded(staged, loads, e))
    ensures forall i: nat :: i < |staged| && i !in bad ==> staged[i].runtime == staged[i].disk == staged[i].staging
  {
    errs, loads, bad := 0, [], {};
    for i := 0 to |staged|
      invariant net.failures == old(net.failures) + errs && |bad| == errs && forall k :: k in bad ==> k < i
      invariant |loads| == i && forall k: nat :: k < i && k !in bad ==> loads[k]
      invariant forall e :: e in staged ==>
        e.staging == old(e.staging) && e.runtime == RuntimeAfter(e.staging, old(e.runtime), Loaded(staged, loads, e))
      invariant forall k: nat :: k < i && k !in bad ==> staged[k].runtime == staged[k].disk == staged[k].staging
    {
      hide Loaded;
      ghost var before := loads;
      var ok;
      ghost var loaded;
      ok, loaded := CommitOne(net, staged[i]);
      loads := before + [loaded];
      forall e | e in staged
        ensures Loaded(staged, loads, e) <==> Loaded(staged, before, e) || (staged[i] == e && loaded)
      {
        LoadedSnoc(staged, before, i, loaded, e);
      }
      if !ok {
        errs, bad := errs + 1, bad + {i};
      }
    }
  }

  /** The two-phase change succeeds exactly when no call fails. A prepare failure leaves
      every runtime untouched and every staging table where a retry converges from. Past
      that, each runtime becomes the prepared table exactly when a LOAD of that instance
      was applied, and stays wholly as it was otherwise; nothing is rolled back. */
  method ApplyFailoverRouting(net: Network, endpoints: seq<Instance>, cfg: RoutingConfig)
    returns (r: Outcome, ghost loads: seq<bool>, ghost bad: set<nat>)
    modifies net, set e | e in endpoints
    ensures r.Applied? <==> net.failures == old(net.failures)
    ensures |bad| == net.failures - old(net.failures)
    ensures forall e :: e in endpoints ==> Attempted(old(e.staging), e.staging, cfg)
    ensures r.PrepareFailed? ==>
      && loads == []
      && (forall e :: e in endpoints ==> e.runtime == old(e.runtime) && e.disk == old(e.disk))
      && RestPrepared(endpoints, bad, cfg)
    ensures !r.PrepareFailed? ==>
      |loads| == |endpoints| && forall e :: e in endpoints ==>
        && e.staging == Prepared(old(e.staging), cfg)
        && e.runtime == RuntimeAfter(e.staging, old(e.runtime), Loaded(endpoints, loads, e))
    ensures !r.PrepareFailed? ==> RestCommitted(endpoints, bad, loads)
    ensures r.Applied? ==>
      forall e :: e in endpoints ==>
        var demoted := Key(cfg.readWrite, cfg.oldHost, cfg.oldPort);
        var promoted := Key(cfg.readWrite, cfg.newHost, cfg.newPort);
        && e.runtime == e.disk == e.staging
        && promoted in e.runtime && e.runtime[promoted].status == "ONLINE" && e.runtime[promoted].maxConnections == 1000
        && (demoted in e.runtime ==> demoted == promoted || demoted.hostgroup == cfg.readOnly)
  {
    hide Loaded;
    var staged, prepareErrs;
    staged, prepareErrs, bad := PrepareAll(net, endpoints, cfg);
    if prepareErrs > 0 {
      return PrepareFailed, [], bad;
    }
    var commitErrs;
    commitErrs, loads, bad := CommitAll(net, staged);
    return if commitErrs > 0 then CommitFailed else Applied, loads, bad;
  }

  /** The same change with the writers' roles swapped. */
  method RollbackRouting(net: Network, endpoints: seq<Instance>, cfg: RoutingConfig)
    returns (r: Outcome, ghost loads: seq<bool>)
    modifies net, set e | e in endpoints
    ensures r.Applied? <==> net.failures == old(net.failures)
    ensures r.PrepareFailed? ==>
      forall e :: e in endpoints ==> e.runtime == old(e.runtime) && e.disk == old(e.disk)
    ensures !r.PrepareFailed? ==>
      |loads| == |endpoints| && forall e :: e in endpoints ==>
        && e.staging == Prepared(old(e.staging), cfg.Swapped())
        && e.runtime == RuntimeAfter(e.staging, old(e.runtime), Loaded(endpoints, loads, e))
    ensures r.Applied? ==>
      forall e :: e in endpoints ==>
        e.runtime == e.disk == e.staging == Prepared(old(e.staging), cfg.Swapped())
  {
    hide Loaded;
    var back := RoutingConfig(cfg.newHost, cfg.newPort, cfg.oldHost, cfg.oldPort, cfg.readWrite, cfg.readOnly);
    ghost var bad;
    r, loads, bad := ApplyFailoverRouting(net, endpoints, back);
  }

  /** A routing rollback readmits the fenced node, ONLINE and into the write group. */
  lemma RollbackReadmits(t: Table, cfg: RoutingConfig, target: Key)
    requires FencedIn(t, target) && cfg.oldHost == target.host && cfg.oldPort == target.port
    ensures var back := Prepared(t, cfg.Swapped());
            var readmitted := Key(cfg.readWrite, target.host, target.port);
            && readmitted in back && back[readmitted].status == "ONLINE" && back[readmitted].maxConnections == 1000
            && !FencedIn(back, target)
  {
    var back := Prepared(t, cfg.Swapped());
    PreparedRoutes(t, cfg.Swapped());
    assert cfg.Swapped().NewWriter() == cfg.OldWriter();
    assert cfg.OldWriter() in Hits(back, target.host, target.port);
  }

  const DEFAULT_BLACKHOLE := 9999

  /** The UPDATE: it moves the node's only row, and fails on two. */
  method MoveRow(net: Network, inst: Instance, target: Key) returns (ok: bool)
    modifies net, inst`staging
    ensures net.failures >= old(net.failures)
    ensures ok <==> net.failures == old(net.failures) && |Hits(old(inst.staging), target.host, target.port)| <= 1
    ensures inst.staging == old(inst.staging) || Moved(old(inst.staging), inst.staging, target)
    ensures ok ==> Moved(old(inst.staging), inst.staging, target)
  {
    var done, applied := net.Call();
    var hits := Hits(inst.staging, target.host, target.port);
    if |hits| > 1 {
      return false;
    }
    if applied && hits != {} {
      var k :| k in hits;
      assert hits == {k} by {
        assert |hits - {k}| == 0;
      }
      inst.staging := (inst.staging - {k})[target := inst.staging[k].(status := "OFFLINE_HARD", maxConnections := 0)];
    }
    return done;
  }

  /** Dial, ping, UPDATE, INSERT OR REPLACE, LOAD and SAVE on one instance. */
  method BlackholeOne(net: Network, inst: Instance, target: Key) returns (ok: bool)
    modifies net, inst
    ensures net.failures >= old(net.failures)
    ensures ok <==> net.failures == old(net.failures) && |Hits(old(inst.staging), target.host, target.port)| <= 1
    ensures FenceStep(old(inst.staging), inst.staging, target)
    ensures inst.runtime == old(inst.runtime)
            || (|Hits(old(inst.staging), target.host, target.port)| <= 1
                && inst.runtime == inst.staging == Fenced(old(inst.staging), target))
    ensures inst.disk == old(inst.disk) || inst.disk == inst.staging
    ensures ok ==> inst.runtime == inst.disk == inst.staging == Fenced(old(inst.staging), target)
  {
    ghost var before := inst.staging;
    var done, applied := net.Call();
    if !done {
      return false;
    }
    done := MoveRow(net, inst, target);
    if !done {
      return false;
    }
    FenceAbsorbs(before, inst.staging, target);
    MovedHits(before, inst.staging, target);
    ghost var moved := inst.staging;
    done, applied := net.Call();
    if applied {
      inst.staging := inst.staging[target := BLACKHOLE];
      assert inst.staging == Fenced(moved, target);
    }
    if !done {
      return false;
    }
    ghost var loaded;
    ok, loaded := CommitOne(net, inst);
  }

  /** A fence attempt, complete or not, on one staging table. */
  predicate FenceStep(t: Table, t': Table, target: Key)
  {
    t' == t || Moved(t, t', target)
    || (|Hits(t, target.host, target.port)| <= 1 && t' == Fenced(t, target))
  }

  /** A complete fence is not changed by another attempt at it. */
  lemma FencedStays(t: Table, t': Table, target: Key)
    ensures FenceStep(Fenced(t, target), t', target) ==> t' == Fenced(t, target)
  {
    FencedIsFenced(t, target);
  }

  lemma FenceStepsCompose(t: Table, t': Table, t'': Table, target: Key)
    requires FenceStep(t, t', target) && FenceStep(t', t'', target)
    ensures FenceStep(t, t'', target)
    ensures |Hits(t, target.host, target.port)| <= 1 <==> |Hits(t', target.host, target.port)| <= 1
    ensures |Hits(t, target.host, target.port)| <= 1 ==> Fenced(t', target) == Fenced(t, target)
  {
    if t' != t {
      FencedIsFenced(t, target);
      if Moved(t, t', target) {
        MovedHits(t, t', target);
        FenceAbsorbs(t, t', target);
      }
      if Moved(t', t'', target) {
        assert t'' == t' by {
          if Hits(t', target.host, target.port) != {} {
            assert target in Hits(t', target.host, target.port);
          }
        }
      }
    }
  }

  /** A node listed in two hostgroups, say for writes and for reads, cannot be fenced: its
      rows would collide on the primary key, so the UPDATE has no outcome. */
  lemma TwoHostgroupsBlockTheFence(t: Table, a: int, b: int, target: Key)
    requires a != b && Key(a, target.host, target.port) in t && Key(b, target.host, target.port) in t
    ensures Collides(t, target)
    ensures forall t' :: !Updated(t, t', target) && !Moved(t, t', target)
  {
    assert NewKey(Key(a, target.host, target.port), target) == NewKey(Key(b, target.host, target.port), target);
    forall t'
      ensures !Updated(t, t', target) && !Moved(t, t', target)
    {
      UpdatedIff(t, t', target);
    }
  }

  /** Rows that an aborted routing change left staged are not harmless: the next fence loads
      them, and the new writer starts to take writes. */
  lemma FencePublishesStagedWriter(t: Table, cfg: RoutingConfig, target: Key, k: nat)
    requires 2 <= k <= 3 && cfg.oldHost == target.host && cfg.newHost != cfg.oldHost
    ensures var fenced := Fenced(PrepareTo(t, cfg, k), target);
            var writer := Key(cfg.readWrite, cfg.newHost, cfg.newPort);
            writer in fenced && fenced[writer].status == "ONLINE" && fenced[writer].maxConnections == 1000
  {
    assert cfg.NewWriter() !in Hits(PrepareTo(t, cfg, k), target.host, target.port);
  }

  /** The target's only row is out of service, and the other nodes' rows are as before. */
  ghost predicate OnlyFenced(t: Table, t': Table, target: Key)
  {
    && target in t' && t'[target].status == "OFFLINE_HARD" && t'[target].maxConnections == 0
    && (forall k :: k in t' && k.host == target.host && k.port == target.port ==> k == target)
    && (forall k: Key :: k.host != target.host || k.port != target.port ==>
          (k in t' <==> k in t) && (k in t' ==> t'[k] == t[k]))
  }

  lemma FencedRows(t: Table, target: Key)
    ensures OnlyFenced(t, Fenced(t, target), target)
  {
  }

  lemma FenceStepRefl(t: Table, target: Key)
    ensures FenceStep(t, t, target)
  {
  }

  /** What any number of fence attempts may have made of an instance's tables. */
  predicate Started(staged: Table, runtime: Table, staging': Table, runtime': Table, target: Key)
  {
    FenceStep(staged, staging', target)
    && (runtime' == runtime || runtime' == staging' == Fenced(staged, target))
  }

  /** All three tables are the fence. */
  predicate Complete(staged: Table, staging': Table, runtime': Table, disk': Table, target: Key)
  {
    staging' == runtime' == disk' == Fenced(staged, target)
  }

  predicate ListedOnce(t: Table, target: Key) { |Hits(t, target.host, target.port)| <= 1 }

  /** One more fence attempt on an instance that may have seen some before: `staged` and
      `runtime` are its tables from before the first. */
  method FenceAgain(net: Network, inst: Instance, target: Key, ghost staged: Table, ghost runtime: Table)
    returns (ok: bool)
    requires Started(staged, runtime, inst.staging, inst.runtime, target)
    modifies net, inst
    ensures Started(staged, runtime, inst.staging, inst.runtime, target)
    ensures net.failures >= old(net.failures)
    ensures ok <==> net.failures == old(net.failures) && ListedOnce(staged, target)
    ensures ok || old(Complete(staged, inst.staging, inst.runtime, inst.disk, target)) ==>
      Complete(staged, inst.staging, inst.runtime, inst.disk, target)
  {
    hide Hits, Fenced, FenceStep;
    ghost var before := inst.staging;
    ok := BlackholeOne(net, inst, target);
    FenceStepsCompose(staged, before, inst.staging, target);
    FencedStays(staged, inst.staging, target);
  }

  lemma NotStarted(t: Table, r: Table, target: Key)
    ensures Started(t, r, t, r, target)
  {
  }

  /** The fence on every instance, continuing past failures: an instance is left unfenced only
      if it lists the target twice, or if it cost a failed call. */
  method BlackholeAll(net: Network, endpoints: seq<Instance>, target: Key) returns (ok: bool, ghost bad: set<nat>)
    modifies net, set e | e in endpoints
    ensures net.failures >= old(net.failures) && |bad| <= net.failures - old(net.failures)
    ensures ok <==> net.failures == old(net.failures)
                    && forall i: nat :: i < |endpoints| ==> ListedOnce(old(endpoints[i].staging), target)
    ensures forall e :: e in endpoints ==> Started(old(e.staging), old(e.runtime), e.staging, e.runtime, target)
    ensures forall i: nat :: i < |endpoints| && i !in bad && ListedOnce(old(endpoints[i].staging), target) ==>
      var e := endpoints[i];
      Complete(old(e.staging), e.staging, e.runtime, e.disk, target)
    ensures bad == {} ==> net.failures == old(net.failures)
  {
    hide Started, Complete, ListedOnce;
    bad := {};
    forall e | e in endpoints ensures Started(old(e.staging), old(e.runtime), e.staging, e.runtime, target) {
      NotStarted(e.staging, e.runtime, target);
    }
    var errs := 0;
    for i := 0 to |endpoints|
      invariant forall e :: e in endpoints ==> Started(old(e.staging), old(e.runtime), e.staging, e.runtime, target)
      invariant |bad| <= net.failures - old(net.failures) && forall k :: k in bad ==> k < i
      invariant bad == {} ==> net.failures == old(net.failures)
      invariant forall k: nat :: k < i && k !in bad && ListedOnce(old(endpoints[k].staging), target) ==>
        var e := endpoints[k];
        Complete(old(e.staging), e.staging, e.runtime, e.disk, target)
      invariant errs == 0 <==> bad == {} && forall k: nat :: k < i ==> ListedOnce(old(endpoints[k].staging), target)
      invariant errs >= 0
    {
      var ep := endpoints[i];
      ghost var failures := net.failures;
      var done := FenceAgain(net, ep, target, old(ep.staging), old(ep.runtime));
      if !done {
        errs := errs + 1;
        if net.failures > failures {
          bad := bad + {i};
        }
      }
    }
    ok := errs == 0;
  }

  /** The fence succeeds exactly when a target is named, no call fails, and no instance lists
      the target twice; then the target's only row, on every instance and at runtime, is out
      of service, and the other nodes' rows are as they were staged. */
  method Blackhole(net: Network, endpoints: seq<Instance>, host: string, port: int, hostgroup: int)
    returns (ok: bool, ghost target: Key, ghost bad: set<nat>)
    modifies net, set e | e in endpoints
    ensures target == Key(if hostgroup == 0 then 9999 else hostgroup, host, port)
    ensures ok <==> host != "" && net.failures == old(net.failures)
                    && forall e :: e in endpoints ==> |Hits(old(e.staging), host, port)| <= 1
    ensures net.failures >= old(net.failures) && |bad| <= net.failures - old(net.failures)
    ensures host != "" ==>
      forall i: nat :: i < |endpoints| && i !in bad && |Hits(old(endpoints[i].staging), host, port)| <= 1 ==>
        endpoints[i].runtime == endpoints[i].staging == Fenced(old(endpoints[i].staging), target)
    ensures forall e :: e in endpoints ==> FenceStep(old(e.staging), e.staging, target)
    ensures forall e :: e in endpoints ==>
      e.runtime == old(e.runtime) || e.runtime == e.staging == Fenced(old(e.staging), target)
    ensures ok ==> forall e :: e in endpoints ==>
      e.runtime == e.disk == e.staging == Fenced(old(e.staging), target) && FencedIn(e.runtime, target)
    ensures ok ==> forall e :: e in endpoints ==>
      && target in e.runtime && e.runtime[target].status == "OFFLINE_HARD" && e.runtime[target].maxConnections == 0
      && (forall k :: k in e.runtime && k.host == host && k.port == port ==> k == target)
      && (forall k: Key :: k.host != host || k.port != port ==>
            (k in e.runtime <==> k in old(e.staging)) && (k in e.runtime ==> e.runtime[k] == old(e.staging)[k]))
  {
    hide Hits, Fenced, FencedIn, FenceStep;
    var key := Key(if hostgroup == 0 then DEFAULT_BLACKHOLE else hostgroup, host, port);
    target, bad := key, {};
    forall e | e in endpoints
      ensures FencedIn(Fenced(e.staging, key), key)
      ensures OnlyFenced(e.staging, Fenced(e.staging, key), key)
      ensures FenceStep(e.staging, e.staging, key)
    {
      FencedIsFenced(e.staging, key);
      FencedRows(e.staging, key);
      FenceStepRefl(e.staging, key);
    }
    if host == "" {
      return false, key, {};
    }
    ok, bad := BlackholeAll(net, endpoints, key);
    if ok {
      forall e | e in endpoints
        ensures e.runtime == e.disk == e.staging == Fenced(old(e.staging), key)
      {
        var i: nat :| i < |endpoints| && endpoints[i] == e;
      }
    }
  }

  lemma {:induction false} AttemptsKeepFence(t: Table, cfg: RoutingConfig, stops: seq<nat>, target: Key)
    requires forall i :: 0 <= i < |stops| ==> stops[i] <= 3
    requires FencedIn(t, target) && RoutesAway(Stage(cfg, 0), target)
    ensures FencedIn(Attempts(t, cfg, stops), target)
  {
    if stops != [] {
      var before := Attempts(t, cfg, stops[..|stops| - 1]);
      AttemptsKeepFence(t, cfg, stops[..|stops| - 1], target);
      var after := PrepareTo(before, cfg, stops[|stops| - 1]);
      assert forall k :: k in Hits(after, target.host, target.port) <==> k in Hits(before, target.host, target.port);
    }
  }

  lemma AttemptedKeepsFence(before: Table, t: Table, cfg: RoutingConfig, target: Key)
    requires Attempted(before, t, cfg) && FencedIn(before, target) && RoutesAway(Stage(cfg, 0), target)
    ensures FencedIn(t, target)
  {
    var stops: seq<nat> :| (forall i :: 0 <= i < |stops| ==> stops[i] <= 3) && t == Attempts(before, cfg, stops);
    AttemptsKeepFence(before, cfg, stops, target);
  }

  /** A fence that succeeded survives any list of routing changes away from its target,
      whatever becomes of them: on every instance the target stays unroutable. */
  method FenceThenRoute(net: Network, endpoints: seq<Instance>, host: string, port: int, hostgroup: int,
                        changes: seq<RoutingConfig>) returns (fenced: bool, ghost target: Key)
    requires forall i :: 0 <= i < |changes| ==>
      && changes[i].oldHost == host && changes[i].oldPort == port
      && (changes[i].newHost, changes[i].newPort) != (host, port)
      && changes[i].readWrite != if hostgroup == 0 then 9999 else hostgroup
    modifies net, set e | e in endpoints
    ensures target == Key(if hostgroup == 0 then 9999 else hostgroup, host, port)
    ensures fenced ==> forall e :: e in endpoints ==> FencedIn(e.staging, target) && FencedIn(e.runtime, target)
    ensures fenced ==> forall e, k :: e in endpoints && k in e.runtime && k.host == host && k.port == port ==>
      e.runtime[k].status == "OFFLINE_HARD" && e.runtime[k].maxConnections == 0
  {
    ghost var unfenced;
    fenced, target, unfenced := Blackhole(net, endpoints, host, port, hostgroup);
    for i := 0 to |changes|
      invariant fenced ==> forall e :: e in endpoints ==> FencedIn(e.staging, target) && FencedIn(e.runtime, target)
    {
      hide FencedIn, Attempted, Prepared, Loaded;
      ghost var staged := map e | e in endpoints :: e.staging;
      var r;
      ghost var loads, bad;
      r, loads, bad := ApplyFailoverRouting(net, endpoints, changes[i]);
      if fenced {
        forall e | e in endpoints
          ensures FencedIn(e.staging, target)
        {
          AttemptedKeepsFence(staged[e], e.staging, changes[i], target);
        }
      }
    }
    forall e, k | fenced && e in endpoints && k in e.runtime && k.host == host && k.port == port
      ensures e.runtime[k].status == "OFFLINE_HARD" && e.runtime[k].maxConnections == 0
    {
      assert k in Hits(e.runtime, target.host, target.port);
    }
  }
}

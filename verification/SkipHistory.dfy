/** Auto-skip of failing replicated transactions: the sliding-window rate limiter, the
    bounded skip history and the quarantine it drives
    (internal/controller/replication_skip.go, internal/controller/replication_errors.go).

    The history kept on the resource is pruned by age and capped at 50 entries. The
    unbounded log of every skip ever recorded is what the limits are about. */
module SkipHistory {
  import opened Text
  import opened BoundedHistory
  import SqlText

  /** A worker error as detected, and whether injecting an empty transaction for it
      would succeed. */
  datatype Observed = Observed(channel: string, errno: int, gtid: string, injectable: bool)

  /** MaxSkipsPerWindow is an int32. */
  const MAX_INT32 := 0x7FFF_FFFF

  /** The effective configuration, with defaults filled in. */
  datatype Config = Config(
    enabled: bool, dryRun: bool, whitelist: seq<int>, maxPerWindow: int, window: int,
    threshold: int, quarantineWindow: int, retention: int)
  {
    predicate Effective()
    {
      0 < maxPerWindow <= MAX_INT32 && window > 0 && threshold > 0 && quarantineWindow > 0 && retention > 0
    }
  }

  /** The part of status.replicationErrors that decisions depend on. */
  datatype Status = Status(skipped: seq<Skip>, quarantinedSince: Option<int>, lastClear: string)

  const INITIAL := Status([], None, "")

  /** A cycle is blind when it returns before detection has succeeded: no inspector, no
      channel, local MySQL unreachable, or the detection query failed. */
  datatype Detection = Blind | Seen(errors: seq<Observed>, hasSkipper: bool)

  /** One reconcile: what was detected, the clear annotation, and the two clock readings. */
  datatype Cycle = Cycle(detection: Detection, annotation: string, skipAt: int, updateAt: int)

  /** Detection reports only positive error numbers, and no injection succeeds with
      arguments that SkipNextTransaction rejects. */
  predicate Genuine(c: Cycle)
  {
    c.detection.Seen? ==>
      forall e :: e in c.detection.errors ==>
        e.errno > 0 && (e.injectable ==> SqlText.Accepts(e.channel, e.gtid))
  }

  // --- what one cycle records ----------------------------------------------------------------

  predicate Admissible(cfg: Config, history: seq<Skip>, pending: seq<Skip>, e: Observed, now: int)
  {
    && e.errno in cfg.whitelist
    && e.gtid != ""
    && CountSince(history, now - cfg.window) + CountSince(pending, now - cfg.window) < cfg.maxPerWindow
  }

  /** The skips recorded while going through the observed errors. */
  function Admit(cfg: Config, history: seq<Skip>, errors: seq<Observed>, now: int): (pending: seq<Skip>)
    ensures forall i :: 0 <= i < |pending| ==> pending[i].at == now
  {
    if errors == [] then []
    else
      var pending := Admit(cfg, history, errors[..|errors| - 1], now);
      var e := errors[|errors| - 1];
      if Admissible(cfg, history, pending, e, now) && (cfg.dryRun || e.injectable)
      then pending + [Skip(e.gtid, e.errno, now, cfg.dryRun)]
      else pending
  }

  /** The GTIDs for which SQL is issued: every admissible error, unless in dry run. */
  function Injected(cfg: Config, history: seq<Skip>, errors: seq<Observed>, now: int): seq<string>
  {
    if errors == [] then []
    else
      var before := errors[..|errors| - 1];
      var e := errors[|errors| - 1];
      Injected(cfg, history, before, now) +
      if !cfg.dryRun && Admissible(cfg, history, Admit(cfg, history, before, now), e, now) then [e.gtid] else []
  }

  predicate Skipping(cfg: Config, st: Status, c: Cycle)
  {
    cfg.enabled && c.detection.Seen? && c.detection.hasSkipper && st.quarantinedSince.None?
  }

  function Skipped(cfg: Config, st: Status, c: Cycle): (pending: seq<Skip>)
    ensures forall i :: 0 <= i < |pending| ==> pending[i].at == c.skipAt
  {
    if Skipping(cfg, st, c) then Admit(cfg, st.skipped, c.detection.errors, c.skipAt) else []
  }

  function Sql(cfg: Config, st: Status, c: Cycle): seq<string>
  {
    if Skipping(cfg, st, c) then Injected(cfg, st.skipped, c.detection.errors, c.skipAt) else []
  }

  // --- quarantine -----------------------------------------------------------------------------

  /** The clear annotation is non-empty and not the value processed last. */
  predicate Requested(st: Status, c: Cycle) { c.annotation != "" && c.annotation != st.lastClear }

  function WindowCount(cfg: Config, st: Status, c: Cycle): nat
  {
    CountSince(st.skipped, c.skipAt - cfg.quarantineWindow)
    + CountSince(Skipped(cfg, st, c), c.skipAt - cfg.quarantineWindow)
  }

  predicate Safe(cfg: Config, st: Status, c: Cycle)
    requires c.detection.Seen?
  {
    c.detection.errors == [] && WindowCount(cfg, st, c) <= cfg.threshold
  }

  predicate Released(cfg: Config, st: Status, c: Cycle)
  {
    c.detection.Blind? || (Requested(st, c) && Safe(cfg, st, c))
  }

  predicate Quarantines(cfg: Config, st: Status, c: Cycle)
  {
    if st.quarantinedSince.Some? then !Released(cfg, st, c)
    else c.detection.Seen? && WindowCount(cfg, st, c) > cfg.threshold
  }

  /** The operator's request is turned down, which is reported once and remembered. */
  predicate Refused(cfg: Config, st: Status, c: Cycle)
  {
    c.detection.Seen? && st.quarantinedSince.Some? && Requested(st, c) && !Safe(cfg, st, c)
  }

  function After(cfg: Config, st: Status, c: Cycle): Status
  {
    var pruned := if cfg.retention <= 0 then st.skipped else Since(st.skipped, c.updateAt - cfg.retention);
    var pending := Skipped(cfg, st, c);
    Status(
      if pending == [] then pruned else Capped(pruned, pending),
      if !Quarantines(cfg, st, c) then None
      else if st.quarantinedSince.Some? then st.quarantinedSince
      else Some(c.updateAt),
      if Refused(cfg, st, c) then c.annotation
      else if st.quarantinedSince.Some? && !Quarantines(cfg, st, c) && c.annotation != "" then c.annotation
      else st.lastClear)
  }

  // --- the reconciler ---------------------------------------------------------------------------

  class Policy {
    var status: Status

    constructor ()
      ensures status == INITIAL
    {
      status := INITIAL;
    }
  }

  class Outcome {
    var errors: seq<Observed>
    var skipped: seq<Skip>
    var sql: seq<string>
    var quarantineActive: bool
    var refusedClear: string

    constructor ()
      ensures errors == [] && skipped == [] && sql == [] && !quarantineActive && refusedClear == ""
    {
      errors, skipped, sql, quarantineActive, refusedClear := [], [], [], false, "";
    }
  }

  method CountSkipsInWindow(history: seq<Skip>, pending: seq<Skip>, window: int, now: int) returns (count: nat)
    ensures count == if window <= 0 then 0 else CountSince(history, now - window) + CountSince(pending, now - window)
  {
    if window <= 0 {
      return 0;
    }
    var cutoff := now - window;
    count := 0;
    for i := 0 to |history|
      invariant count == CountSince(history[..i], cutoff)
    {
      assert history[..i + 1][..i] == history[..i];
      if history[i].at >= cutoff {
        count := count + 1;
      }
    }
    assert history[..|history|] == history;
    for i := 0 to |pending|
      invariant count == CountSince(history, cutoff) + CountSince(pending[..i], cutoff)
    {
      assert pending[..i + 1][..i] == pending[..i];
      if pending[i].at >= cutoff {
        count := count + 1;
      }
    }
    assert pending[..|pending|] == pending;
  }

  /** One more error: what it adds to the recorded skips and to the SQL. */
  lemma OneMoreError(cfg: Config, history: seq<Skip>, errors: seq<Observed>, i: nat, now: int)
    requires i < |errors|
    ensures var e, p := errors[i], Admit(cfg, history, errors[..i], now);
            var taken := CountSince(history, now - cfg.window) + CountSince(p, now - cfg.window);
            var ok := e.errno in cfg.whitelist && e.gtid != "" && taken < cfg.maxPerWindow;
            && Admit(cfg, history, errors[..i + 1], now) ==
                 p + (if ok && (cfg.dryRun || e.injectable) then [Skip(e.gtid, e.errno, now, cfg.dryRun)] else [])
            && Injected(cfg, history, errors[..i + 1], now) ==
                 Injected(cfg, history, errors[..i], now) + if ok && !cfg.dryRun then [e.gtid] else []
  {
    hide CountSince;
    assert errors[..i + 1][..i] == errors[..i];
  }

  /** The per-error gates: whitelist, known GTID, room in the window. */
  method MaySkip(cfg: Config, history: seq<Skip>, pending: seq<Skip>, e: Observed, now: int) returns (ok: bool)
    requires cfg.Effective()
    ensures ok <==>
      && e.errno in cfg.whitelist && e.gtid != ""
      && CountSince(history, now - cfg.window) + CountSince(pending, now - cfg.window) < cfg.maxPerWindow
  {
    if e.errno !in cfg.whitelist {
      return false;
    }
    if e.gtid == "" {
      return false;
    }
    var count := CountSkipsInWindow(history, pending, cfg.window, now);
    return count < cfg.maxPerWindow;
  }

  /** One error: the gates, then the injection, then the record. */
  method AdmitOne(history: seq<Skip>, cfg: Config, out: Outcome, e: Observed, now: int)
    requires cfg.Effective()
    modifies out`skipped, out`sql
    ensures var taken := CountSince(history, now - cfg.window) + CountSince(old(out.skipped), now - cfg.window);
            var ok := e.errno in cfg.whitelist && e.gtid != "" && taken < cfg.maxPerWindow;
            && out.skipped == old(out.skipped) +
                 (if ok && (cfg.dryRun || e.injectable) then [Skip(e.gtid, e.errno, now, cfg.dryRun)] else [])
            && out.sql == old(out.sql) + if ok && !cfg.dryRun then [e.gtid] else []
  {
    hide CountSince;
    var ok := MaySkip(cfg, history, out.skipped, e, now);
    if ok {
      if !cfg.dryRun {
        out.sql := out.sql + [e.gtid];
      }
      if cfg.dryRun || e.injectable {
        out.skipped := out.skipped + [Skip(e.gtid, e.errno, now, cfg.dryRun)];
      }
    }
  }

  /** The loop over the observed errors. */
  method AdmitErrors(history: seq<Skip>, cfg: Config, out: Outcome, now: int)
    requires cfg.Effective() && out.skipped == [] && out.sql == []
    modifies out`skipped, out`sql
    ensures out.skipped == Admit(cfg, history, out.errors, now)
    ensures out.sql == Injected(cfg, history, out.errors, now)
  {
    NoErrors(cfg, history, out.errors, now);
    hide Admit, Injected, CountSince, Config.Effective;
    for i := 0 to |out.errors|
      invariant out.skipped == Admit(cfg, history, out.errors[..i], now)
      invariant out.sql == Injected(cfg, history, out.errors[..i], now)
    {
      OneMoreError(cfg, history, out.errors, i, now);
      AdmitOne(history, cfg, out, out.errors[i], now);
    }
    assert out.errors[..|out.errors|] == out.errors;
  }

  lemma NoErrors(cfg: Config, history: seq<Skip>, errors: seq<Observed>, now: int)
    ensures Admit(cfg, history, errors[..0], now) == [] && Injected(cfg, history, errors[..0], now) == []
  {
  }

  /** The gates on the whole cycle, then the errors, then quarantine. */
  method ApplyAutoSkip(policy: Policy, cfg: Config, c: Cycle, out: Outcome)
    requires cfg.Effective() && c.detection.Seen? && out.errors == c.detection.errors
    requires out.skipped == [] && out.sql == [] && !out.quarantineActive && out.refusedClear == ""
    modifies out
    ensures out.skipped == Skipped(cfg, policy.status, c)
    ensures out.sql == Sql(cfg, policy.status, c)
    ensures var st := policy.status;
            var cutoff := c.skipAt - cfg.quarantineWindow;
            var count := CountSince(st.skipped, cutoff) + CountSince(out.skipped, cutoff);
            var asked := c.annotation != "" && c.annotation != st.lastClear;
            var clean := c.detection.errors == [] && count <= cfg.threshold;
            && out.quarantineActive ==
                 (if st.quarantinedSince.Some? then !(asked && clean) else count > cfg.threshold)
            && out.refusedClear == if st.quarantinedSince.Some? && asked && !clean then c.annotation else ""
  {
    hide Admit, Injected, CountSince;
    if cfg.enabled && out.errors != [] && c.detection.hasSkipper && policy.status.quarantinedSince.None? {
      AdmitErrors(policy.status.skipped, cfg, out, c.skipAt);
    } else {
      NoErrors(cfg, policy.status.skipped, out.errors, c.skipAt);
    }
    EvaluateQuarantine(policy, cfg, c, out);
  }

  /** Quarantine starts when more than the threshold of skips lie in the window. Once in
      force it ends exactly when a fresh non-empty annotation asks for it, no error is active
      and the count is back at the threshold; any other fresh request is refused. */
  method EvaluateQuarantine(policy: Policy, cfg: Config, c: Cycle, out: Outcome)
    requires cfg.Effective() && c.detection.Seen? && out.errors == c.detection.errors
    requires !out.quarantineActive && out.refusedClear == ""
    modifies out`quarantineActive, out`refusedClear
    ensures var st := policy.status;
            var cutoff := c.skipAt - cfg.quarantineWindow;
            var count := CountSince(st.skipped, cutoff) + CountSince(out.skipped, cutoff);
            && (st.quarantinedSince.None? ==> (out.quarantineActive <==> count > cfg.threshold))
            && (st.quarantinedSince.Some? ==>
                  (!out.quarantineActive <==>
                     && c.detection.errors == [] && c.annotation != "" && c.annotation != st.lastClear
                     && count <= cfg.threshold))
            && (out.refusedClear != "" ==> out.refusedClear == c.annotation)
            && (out.refusedClear != "" <==>
                  && st.quarantinedSince.Some? && c.annotation != "" && c.annotation != st.lastClear
                  && (c.detection.errors != [] || count > cfg.threshold))
  {
    var st := policy.status;
    var count := CountSkipsInWindow(st.skipped, out.skipped, cfg.quarantineWindow, c.skipAt);
    hide CountSince;
    if st.quarantinedSince.Some? && c.annotation != "" && c.annotation != st.lastClear {
      if out.errors == [] && count <= cfg.threshold {
        return;
      }
      out.refusedClear := c.annotation;
    }
    if st.quarantinedSince.Some? {
      out.quarantineActive := true;
      return;
    }
    if count > cfg.threshold {
      out.quarantineActive := true;
    }
  }

  /** The history is pruned, extended and cut to its newest 50 entries; a quarantine starts
      at the time of the update; and the annotation that ended or failed to end a quarantine
      is remembered. */
  method UpdateReplicationErrorStatus(policy: Policy, cfg: Config, c: Cycle, out: Outcome)
    modifies policy
    ensures var st, now := old(policy.status), policy.status;
            && now.quarantinedSince ==
                 (if !out.quarantineActive then None
                  else if st.quarantinedSince.Some? then st.quarantinedSince
                  else Some(c.updateAt))
            && now.lastClear ==
                 (if out.refusedClear != "" then out.refusedClear
                  else if st.quarantinedSince.Some? && !out.quarantineActive && c.annotation != "" then c.annotation
                  else st.lastClear)
    ensures var kept := if cfg.retention <= 0 then old(policy.status).skipped
                        else Since(old(policy.status).skipped, c.updateAt - cfg.retention);
            var all := kept + out.skipped;
            policy.status.skipped == if out.skipped == [] then kept else if |all| <= 50 then all else all[|all| - 50..]
  {
    hide Since;
    var cur := policy.status;
    var kept := PruneSkipsByRetention(cur.skipped, cfg.retention, c.updateAt);
    cur := cur.(skipped := kept);
    if |out.skipped| > 0 {
      cur := cur.(skipped := Capped(cur.skipped, out.skipped));
    }
    if out.quarantineActive {
      if cur.quarantinedSince.None? {
        cur := cur.(quarantinedSince := Some(c.updateAt));
      }
    } else if cur.quarantinedSince.Some? {
      cur := cur.(quarantinedSince := None);
      if c.annotation != "" {
        cur := cur.(lastClear := c.annotation);
      }
    }
    if out.refusedClear != "" {
      cur := cur.(lastClear := out.refusedClear);
    }
    policy.status := cur;
  }

  /** Detection followed by the status update, as one reconcile runs them. */
  method Reconcile(policy: Policy, cfg: Config, c: Cycle) returns (out: Outcome)
    requires cfg.Effective()
    modifies policy
    ensures fresh(out)
    ensures policy.status == After(cfg, old(policy.status), c)
    ensures out.skipped == Skipped(cfg, old(policy.status), c)
    ensures out.sql == Sql(cfg, old(policy.status), c)
    ensures out.refusedClear == if Refused(cfg, old(policy.status), c) then c.annotation else ""
    ensures c.detection.Blind? ==> policy.status.quarantinedSince == None && out.refusedClear == ""
    ensures c.detection.Seen? ==>
      var st := old(policy.status);
      var cutoff := c.skipAt - cfg.quarantineWindow;
      var count := CountSince(st.skipped, cutoff) + CountSince(out.skipped, cutoff);
      var asked := c.annotation != "" && c.annotation != st.lastClear;
      var clean := c.detection.errors == [] && count <= cfg.threshold;
      && policy.status.quarantinedSince ==
           (if st.quarantinedSince.None? then (if count > cfg.threshold then Some(c.updateAt) else None)
            else if asked && clean then None
            else st.quarantinedSince)
      && (out.refusedClear != "" <==> st.quarantinedSince.Some? && asked && !clean)
    ensures policy.status.lastClear ==
      if old(policy.status).quarantinedSince.Some? && c.annotation != "" then c.annotation
      else old(policy.status).lastClear
  {
    hide CountSince, Since, Admit, Injected;
    out := new Outcome();
    if c.detection.Seen? {
      out.errors := c.detection.errors;
      ApplyAutoSkip(policy, cfg, c, out);
    }
    UpdateReplicationErrorStatus(policy, cfg, c, out);
  }
}
